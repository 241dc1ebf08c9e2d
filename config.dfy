/** The endpoint table of the Svelte front end: every endpoint is the API base followed by a fixed path. */
module Config {
  import opened Wrappers
  import opened Text

  /** `import.meta.env.VITE_API_URL || '/api'`. */
  function ApiUrl(env: Option<string>): (url: string)
    ensures Truthy(env) ==> url == env.value
    ensures !Truthy(env) ==> url == "/api"
  {
    OrElse(env, "/api")
  }

  datatype EndpointName =
    | Login | Refresh | Dashboard
    | Stocks | StockMovements | DailySummary | WeeklySummary
    | Products | Categories | Brands
    | ImportConfigs | ScraperConfigs | UploadHistory
    | Suppliers | Notifications

  /** The fixed path each endpoint appends to the base. */
  function Suffix(n: EndpointName): (s: string)
    ensures |s| >= 2 && s[0] == '/' && s[|s| - 1] == '/'
  {
    match n
    case Login => "/token/"
    case Refresh => "/token/refresh/"
    case Dashboard => "/dashboard/metrics/"
    case Stocks => "/stock/"
    case StockMovements => "/stock-movements/"
    case DailySummary => "/stock-movements/daily_summary/"
    case WeeklySummary => "/stock-movements/weekly_summary/"
    case Products => "/products/"
    case Categories => "/categories/"
    case Brands => "/brands/"
    case ImportConfigs => "/import-configs/"
    case ScraperConfigs => "/scraper-configs/"
    case UploadHistory => "/upload-history/"
    case Suppliers => "/suppliers/"
    case Notifications => "/notifications/"
  }

  /** `config.endpoints.<name>`. */
  function Endpoint(env: Option<string>, n: EndpointName): (url: string)
    ensures |url| >= |ApiUrl(env)| + 2
    ensures url[..|ApiUrl(env)|] == ApiUrl(env)
    ensures url[|ApiUrl(env)|] == '/' && url[|url| - 1] == '/'
  {
    var base, s := ApiUrl(env), Suffix(n);
    assert (base + s)[|base|] == s[0];
    assert (base + s)[|base + s| - 1] == s[|s| - 1];
    base + s
  }

  /** The refresh endpoint extends the login endpoint. */
  lemma RefreshExtendsLogin(env: Option<string>)
    ensures Endpoint(env, Refresh) == Endpoint(env, Login) + "refresh/"
  {
  }

  /** The two summary endpoints extend the movements endpoint. */
  lemma SummariesExtendMovements(env: Option<string>)
    ensures Endpoint(env, DailySummary) == Endpoint(env, StockMovements) + "daily_summary/"
    ensures Endpoint(env, WeeklySummary) == Endpoint(env, StockMovements) + "weekly_summary/"
  {
    var base := ApiUrl(env);
    assert "/stock-movements/daily_summary/" == "/stock-movements/" + "daily_summary/";
    assert "/stock-movements/weekly_summary/" == "/stock-movements/" + "weekly_summary/";
    assert base + ("/stock-movements/" + "daily_summary/") == (base + "/stock-movements/") + "daily_summary/";
    assert base + ("/stock-movements/" + "weekly_summary/") == (base + "/stock-movements/") + "weekly_summary/";
  }

  /** The name whose path is `s`, if any: the inverse of `Suffix`. */
  function NameOfSuffix(s: string): Option<EndpointName> {
    if s == "/token/" then Some(Login)
    else if s == "/token/refresh/" then Some(Refresh)
    else if s == "/dashboard/metrics/" then Some(Dashboard)
    else if s == "/stock/" then Some(Stocks)
    else if s == "/stock-movements/" then Some(StockMovements)
    else if s == "/stock-movements/daily_summary/" then Some(DailySummary)
    else if s == "/stock-movements/weekly_summary/" then Some(WeeklySummary)
    else if s == "/products/" then Some(Products)
    else if s == "/categories/" then Some(Categories)
    else if s == "/brands/" then Some(Brands)
    else if s == "/import-configs/" then Some(ImportConfigs)
    else if s == "/scraper-configs/" then Some(ScraperConfigs)
    else if s == "/upload-history/" then Some(UploadHistory)
    else if s == "/suppliers/" then Some(Suppliers)
    else if s == "/notifications/" then Some(Notifications)
    else None
  }

  /** Every path names its endpoint back. */
  lemma SuffixRoundTrip(n: EndpointName)
    ensures NameOfSuffix(Suffix(n)) == Some(n)
  {
  }

  /** Different names never give the same endpoint. */
  lemma EndpointsDistinct(env: Option<string>, a: EndpointName, b: EndpointName)
    requires a != b
    ensures Endpoint(env, a) != Endpoint(env, b)
  {
    SuffixRoundTrip(a);
    SuffixRoundTrip(b);
    assert Endpoint(env, a)[|ApiUrl(env)|..] == Suffix(a);
    assert Endpoint(env, b)[|ApiUrl(env)|..] == Suffix(b);
  }

  /** The stock endpoint is `/stock/`, not the `/stocks/` the client's axios table uses. */
  lemma StockEndpointIsSingular(env: Option<string>)
    ensures Endpoint(env, Stocks) == ApiUrl(env) + "/stock/"
    ensures Endpoint(env, Stocks) != ApiUrl(env) + "/stocks/"
  {
  }
}
