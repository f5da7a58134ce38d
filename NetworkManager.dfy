/**
 * The network manager's decision logic. Transport and decoding are abstract:
 * a `Reply` says whether the transport reported an error, which HTTP status
 * came back (none when the response is not an HTTP response) and whether a
 * body arrived; decoders are functions from bytes to an optional value, and
 * whether a string parses as a URL is the parameter `validUrl`.
 */
module NetworkManager {
  import opened Wrappers
  import opened LaunchErrors
  import opened Launches

  type Bytes = seq<bv8>

  const BASE_URL := "https://api.spacexdata.com/v4/"
  const LAUNCHES_URL := BASE_URL + "launches/query"
  const COMPANY_URL := BASE_URL + "company"

  /** The JSON values a request body is built from. */
  datatype Json = JNumber(n: int) | JObject(members: seq<(string, Json)>)

  datatype Request = Request(httpMethod: string, url: string, headers: map<string, string>, body: Option<Json>)

  /** What a data task hands its completion handler. `status` is `None` when the response is not an HTTP response. */
  datatype Reply = Reply(transportError: bool, status: Option<int>, data: Option<Bytes>)

  /** A decoded image. */
  datatype Image = Image(pixels: Bytes)

  /** The result type of a launch-page fetch. */
  type LaunchResult = Result<Option<LaunchDocs>, LaunchError>

  /** The value of `key` in a JSON object's members, the first one if it is repeated. */
  function Member(members: seq<(string, Json)>, key: string): (v: Option<Json>)
    ensures v.Some? ==>
      exists i :: 0 <= i < |members| && members[i] == (key, v.value) && forall j :: 0 <= j < i ==> members[j].0 != key
    ensures v.None? ==> forall i :: 0 <= i < |members| ==> members[i].0 != key
  {
    if members == [] then None
    else if members[0].0 == key then Some(members[0].1)
    else Member(members[1..], key)
  }

  /** The page a launches query asks for: the number at `options.page` in its body. */
  function RequestedPage(r: Request): Option<int>
  {
    match r.body
    case Some(JObject(top)) =>
      (match Member(top, "options")
       case Some(JObject(options)) =>
         (match Member(options, "page")
          case Some(JNumber(p)) => Some(p)
          case _ => None)
       case _ => None)
    case _ => None
  }

  /** The launches query for one page: a JSON POST with body `{"options": {"page": page}}`. */
  function LaunchesRequest(page: int): (r: Request)
    ensures r.httpMethod == "POST" && r.url == LAUNCHES_URL
    ensures r.headers == map["Content-Type" := "application/json"]
    ensures RequestedPage(r) == Some(page)
  {
    var body := JObject([("options", JObject([("page", JNumber(page))]))]);
    Request("POST", LAUNCHES_URL, map["Content-Type" := "application/json"], Some(body))
  }

  /** Distinct pages give distinct requests. */
  lemma LaunchesRequestInjective(p: int, q: int)
    requires LaunchesRequest(p) == LaunchesRequest(q)
    ensures p == q
  {
    assert RequestedPage(LaunchesRequest(p)) == Some(p);
  }

  /** A plain GET for `url`, as a data task created from a URL sends it. */
  function GetRequest(url: string): (r: Request)
    ensures r.httpMethod == "GET" && r.url == url && r.body.None?
  {
    Request("GET", url, map[], None)
  }

  /** The test every fetch applies to a reply: no transport error, status 200, a body, and the body decodes. */
  predicate Accepted<T>(reply: Reply, decode: Bytes -> Option<T>)
  {
    && !reply.transportError
    && reply.status == Some(200)
    && reply.data.Some?
    && decode(reply.data.value).Some?
  }

  /** The value an accepted reply decodes to. */
  function Decoded<T>(reply: Reply, decode: Bytes -> Option<T>): T
    requires Accepted(reply, decode)
  {
    decode(reply.data.value).value
  }

  /**
   * How a reply to the launches query is classified: the guards are tried in
   * the order transport error, HTTP status, body, decoding; a decoded page has
   * its launches constructed with identities from `firstId` on.
   */
  function ClassifyLaunchReply(reply: Reply, decode: Bytes -> Option<seq<LaunchRecord>>, firstId: nat): (r: LaunchResult)
    ensures r.Success? <==> Accepted(reply, decode)
    ensures r.Success? ==> r.value == Some(LaunchDocs(Stamp(Decoded(reply, decode), firstId)))
    ensures r == Failure(InvalidResponse) <==> reply.transportError
    ensures r == Failure(UnableToComplete) <==> !reply.transportError && reply.status != Some(200)
    ensures r == Failure(InvalidData) <==>
      !reply.transportError && reply.status == Some(200) && !Accepted(reply, decode)
  {
    if reply.transportError then Failure(InvalidResponse)
    else if reply.status != Some(200) then Failure(UnableToComplete)
    else if reply.data.None? then Failure(InvalidData)
    else match decode(reply.data.value)
      case None => Failure(InvalidData)
      case Some(records) => Success(Some(LaunchDocs(Stamp(records, firstId))))
  }

  /** Everything one launch fetch does: the request it sends, if any, and each call of its completion handler. */
  datatype LaunchFetch = LaunchFetch(request: Option<Request>, completions: seq<LaunchResult>)

  /** Fetching one page of launches, from building the URL to calling the completion handler. */
  function FetchLaunchDetails(page: int, validUrl: string -> bool, reply: Reply,
                              decode: Bytes -> Option<seq<LaunchRecord>>, firstId: nat): (f: LaunchFetch)
    ensures |f.completions| == 1
    ensures f.request.Some? <==> validUrl(LAUNCHES_URL)
    ensures f.request.Some? ==> f.request.value == LaunchesRequest(page)
    ensures f.completions[0] == Failure(InvalidUrl) <==> !validUrl(LAUNCHES_URL)
    ensures validUrl(LAUNCHES_URL) ==> f.completions[0] == ClassifyLaunchReply(reply, decode, firstId)
  {
    if !validUrl(LAUNCHES_URL) then LaunchFetch(None, [Failure(InvalidUrl)])
    else LaunchFetch(Some(LaunchesRequest(page)), [ClassifyLaunchReply(reply, decode, firstId)])
  }

  /** A successful launch fetch always carries a page: the concrete manager never reports success without one. */
  lemma LaunchFetchSuccessCarriesPage(page: int, validUrl: string -> bool, reply: Reply,
                                      decode: Bytes -> Option<seq<LaunchRecord>>, firstId: nat)
    ensures var r := FetchLaunchDetails(page, validUrl, reply, decode, firstId).completions[0];
      r.Success? ==> r.value.Some?
  {
  }

  /** Everything one company-info fetch does. */
  datatype CompanyFetch<C> = CompanyFetch(request: Option<Request>, completions: seq<C>)

  /** Fetching the company info: the completion handler runs only on an accepted reply; every failure is silent. */
  function FetchCompanyInfo<C>(validUrl: string -> bool, reply: Reply, decode: Bytes -> Option<C>): (f: CompanyFetch<C>)
    ensures |f.completions| <= 1
    ensures f.request.Some? <==> validUrl(COMPANY_URL)
    ensures f.request.Some? ==> f.request.value == GetRequest(COMPANY_URL)
    ensures |f.completions| == 1 <==> validUrl(COMPANY_URL) && Accepted(reply, decode)
    ensures |f.completions| == 1 ==> f.completions[0] == Decoded(reply, decode)
  {
    if !validUrl(COMPANY_URL) then CompanyFetch(None, [])
    else if Accepted(reply, decode) then CompanyFetch(Some(GetRequest(COMPANY_URL)), [Decoded(reply, decode)])
    else CompanyFetch(Some(GetRequest(COMPANY_URL)), [])
  }

  /** The company and launch fetches apply the same acceptance test to the same reply. */
  lemma CompanyAndLaunchAgree<C>(reply: Reply, decodeCompany: Bytes -> Option<C>,
                                 decodeLaunches: Bytes -> Option<seq<LaunchRecord>>, firstId: nat)
    requires forall b :: decodeCompany(b).Some? <==> decodeLaunches(b).Some?
    ensures |FetchCompanyInfo(_ => true, reply, decodeCompany).completions| == 1
      <==> ClassifyLaunchReply(reply, decodeLaunches, firstId).Success?
  {
  }

  /** What the image request does before any network reply: answer from the cache, start a task, or give up. */
  datatype ImageLookup = CacheHit(image: Image) | TaskStarted(request: Request) | Abandoned

  /**
   * The image loader. Its cache maps URL strings to decoded images; the
   * system may evict any entry at any time, which `Evict` stands for.
   */
  class ConcreteNetworkManager {
    var cache: map<string, Image>

    constructor ()
      ensures cache == map[]
    {
      cache := map[];
    }

    /**
     * The synchronous part of `setAndCacheLaunchImage`: a cache hit answers at
     * once and starts nothing; on a miss a GET is started if the string parses
     * as a URL, and nothing at all happens otherwise.
     */
    method SetAndCacheLaunchImage(urlString: string, validUrl: string -> bool) returns (step: ImageLookup)
      ensures urlString in cache ==> step == CacheHit(cache[urlString])
      ensures urlString !in cache ==> step == (if validUrl(urlString) then TaskStarted(GetRequest(urlString)) else Abandoned)
    {
      if urlString in cache {
        return CacheHit(cache[urlString]);
      }
      if !validUrl(urlString) {
        return Abandoned;
      }
      step := TaskStarted(GetRequest(urlString));
    }

    /**
     * The data task's completion for the image at `cacheKey`: on an accepted
     * reply the image is stored under the key and then delivered; on any
     * failure nothing is stored and nothing is delivered.
     */
    method ImageTaskCompleted(cacheKey: string, reply: Reply, decode: Bytes -> Option<Image>) returns (delivered: Option<Image>)
      modifies this
      ensures delivered.Some? <==> Accepted(reply, decode)
      ensures delivered.Some? ==> delivered.value == Decoded(reply, decode) && cache == old(cache)[cacheKey := delivered.value]
      ensures delivered.None? ==> cache == old(cache)
    {
      if reply.transportError { return None; }
      if reply.status != Some(200) { return None; }
      if reply.data.None? { return None; }
      var image := decode(reply.data.value);
      if image.None? { return None; }
      cache := cache[cacheKey := image.value];
      delivered := image;
    }

    /** The cache dropping an entry on its own, as NSCache may under memory pressure. */
    method Evict(cacheKey: string)
      modifies this
      ensures cache == old(cache) - {cacheKey}
    {
      cache := cache - {cacheKey};
    }
  }
}
