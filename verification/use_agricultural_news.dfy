/**
 * The `useAgriculturalNews` hook: options with defaults, the query parameters of the news
 * request, whether a polling interval is installed, and the `(articles, loading, error)`
 * state that each fetch drives. The request's outcome is a parameter of each fetch.
 */
module UseAgriculturalNews {
  import opened Common
  import opened Text
  import opened Json

  /** The hook's options; `None` is an option left undefined. */
  datatype Options = Options(
    query: Option<string>,
    category: Option<string>,
    region: Option<string>,
    limit: Option<int>,
    pollInterval: Option<int>)

  /** The options after destructuring with defaults. */
  datatype Settings = Settings(query: string, category: string, region: string, limit: int, pollInterval: int)

  const DEFAULT_QUERY := "agriculture farming government schemes"
  const DEFAULT_CATEGORY := "agriculture"
  const DEFAULT_REGION := "jharkhand"
  const DEFAULT_LIMIT := 10
  const DEFAULT_POLL_INTERVAL := 0

  function OrElse<T>(o: Option<T>, default: T): T {
    if o.Some? then o.value else default
  }

  /** Each option takes its default exactly when it is undefined. */
  function Resolve(options: Options): (s: Settings)
    ensures options.query.Some? ==> s.query == options.query.value
    ensures options.query.None? ==> s.query == DEFAULT_QUERY
    ensures options.category.Some? ==> s.category == options.category.value
    ensures options.category.None? ==> s.category == DEFAULT_CATEGORY
    ensures options.region.Some? ==> s.region == options.region.value
    ensures options.region.None? ==> s.region == DEFAULT_REGION
    ensures options.limit.Some? ==> s.limit == options.limit.value
    ensures options.limit.None? ==> s.limit == DEFAULT_LIMIT
    ensures options.pollInterval.Some? ==> s.pollInterval == options.pollInterval.value
    ensures options.pollInterval.None? ==> s.pollInterval == DEFAULT_POLL_INTERVAL
  {
    Settings(
      OrElse(options.query, DEFAULT_QUERY),
      OrElse(options.category, DEFAULT_CATEGORY),
      OrElse(options.region, DEFAULT_REGION),
      OrElse(options.limit, DEFAULT_LIMIT),
      OrElse(options.pollInterval, DEFAULT_POLL_INTERVAL))
  }

  /** One name/value pair of the query string. */
  datatype Param = Param(name: string, value: string)

  /** The `URLSearchParams` of a request, in order: q, category, region, limit, lang. */
  function Params(s: Settings): (ps: seq<Param>)
    ensures |ps| == 5
    ensures ps[0] == Param("q", s.query) && ps[1] == Param("category", s.category) && ps[2] == Param("region", s.region)
    ensures ps[3].name == "limit" && ParseInt(ps[3].value) == Some(s.limit)
    ensures ps[4] == Param("lang", "en")
  {
    ParseIntOfIntToString(s.limit);
    [Param("q", s.query), Param("category", s.category), Param("region", s.region),
     Param("limit", IntToString(s.limit)), Param("lang", "en")]
  }

  /** Whether the effect installs a refresh interval. */
  predicate Polls(s: Settings) {
    s.pollInterval > 0
  }

  /** Without a poll interval the feed is fetched once; the default interval does not poll. */
  lemma DefaultDoesNotPoll(options: Options)
    requires options.pollInterval.None?
    ensures !Polls(Resolve(options))
  {
  }

  const FETCH_FAILED := "Failed to fetch news"

  /** `data.articles || []`, or the message of what reading it threw. */
  function ArticlesOf(body: Result<Json, string>): (r: Result<Json, string>)
    ensures body.Err? ==> r == Err(body.error)
    ensures body.Ok? && body.value == JNull ==> r == Err(NullRead("articles"))
    ensures body.Ok? && body.value != JNull && Truthy(Member(body.value, "articles")) ==>
              r == Ok(Member(body.value, "articles").v)
    ensures body.Ok? && body.value != JNull && !Truthy(Member(body.value, "articles")) ==> r == Ok(JArr([]))
  {
    match body
    case Err(m) => Err(m)
    case Ok(data) =>
      if data == JNull then Err(NullRead("articles"))
      else
        var articles := Member(data, "articles");
        if Truthy(articles) then Ok(articles.v) else Ok(JArr([]))
  }

  class NewsFeed {
    const settings: Settings
    var articles: Json
    var loading: bool
    var error: Option<string>

    /** No articles, loading, no error. */
    constructor (options: Options)
      ensures settings == Resolve(options)
      ensures articles == JArr([]) && loading && error == None
    {
      settings := Resolve(options);
      articles := JArr([]);
      loading := true;
      error := None;
    }

    /** The start of `fetchNews`: loading on, error cleared, articles kept. */
    method Start()
      modifies this
      ensures loading && error == None && articles == old(articles)
    {
      loading := true;
      error := None;
    }

    /**
     * The rest of `fetchNews` once the request settles: on success the articles are replaced
     * wholesale; on any failure they are kept and the error is set; loading ends either way.
     */
    method Settle(reply: HttpReply)
      modifies this
      ensures !loading
      ensures reply.Answered? && reply.ok && ArticlesOf(reply.body).Ok? ==>
                articles == ArticlesOf(reply.body).value && error == old(error)
      ensures reply.Answered? && reply.ok && ArticlesOf(reply.body).Err? ==>
                articles == old(articles) && error == Some(ArticlesOf(reply.body).error)
      ensures reply.Answered? && !reply.ok ==>
                articles == old(articles) && error == Some(ErrorMessage(reply.body, "details", FETCH_FAILED))
      ensures reply.Unreachable? ==> articles == old(articles) && error == Some(reply.message)
    {
      match reply {
        case Unreachable(message) =>
          error := Some(message);
        case Answered(ok, body) =>
          if !ok {
            error := Some(ErrorMessage(body, "details", FETCH_FAILED));
          } else {
            var read := ArticlesOf(body);
            match read {
              case Err(message) => error := Some(message);
              case Ok(list) => articles := list;
            }
          }
      }
      loading := false;
    }

    /**
     * One whole `fetchNews`: the request carries `Params(settings)`; a successful reply
     * replaces the articles and leaves no error; a failed one keeps the articles.
     */
    method FetchNews(reply: HttpReply) returns (params: seq<Param>)
      modifies this
      ensures params == Params(settings)
      ensures !loading
      ensures reply.Answered? && reply.ok && ArticlesOf(reply.body).Ok? ==>
                articles == ArticlesOf(reply.body).value && error == None
      ensures !(reply.Answered? && reply.ok && ArticlesOf(reply.body).Ok?) ==>
                articles == old(articles) && error.Some?
      ensures reply.Answered? && !reply.ok ==> error == Some(ErrorMessage(reply.body, "details", FETCH_FAILED))
      ensures reply.Unreachable? ==> error == Some(reply.message)
    {
      Start();
      params := Params(settings);
      Settle(reply);
    }

    /** The mount effect: one fetch, and an interval exactly when the poll interval is positive. */
    method Mount(reply: HttpReply) returns (params: seq<Param>, polls: bool)
      modifies this
      ensures params == Params(settings) && !loading
      ensures polls <==> settings.pollInterval > 0
    {
      params := FetchNews(reply);
      polls := Polls(settings);
    }
  }
}
