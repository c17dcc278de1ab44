/**
 * FileList: the client. It holds the Basic authorisation header built once
 * from the username and passkey, turns a builder into the API's parameter
 * string, sends one GET request to the API and classifies the answer by its
 * status code.
 *
 * The network, the base64 encoding of the credential, URL-decoding and JSON
 * decoding are not modelled: they are parameters (`send`, `base64Ascii`,
 * `urlDecode`), and a response is the status code together with what its
 * body decodes to.
 */
module Client {
  import opened Wrappers
  import opened Runtime
  import opened QueryString
  import SearchParams
  import LatestParams
  import opened Torrent

  const ApiUrl := "https://filelist.io/api.php"
  /** "&action=search-torrents&output=json" */
  const SearchSuffix := ActionSuffix("search-torrents")
  /** "&action=latest-torrents&output=json" */
  const LatestSuffix := ActionSuffix("latest-torrents")
  const TooManyRequests: int := 429
  const RateLimitMessage := "Rate limit reached, try again later."
  const FailurePrefix := "Failed to successfully query the API, error: "
  const UnknownError := "Unknown"

  /** The text the client appends to a builder's parameters: the action, then JSON output. */
  function ActionSuffix(action: string): string
  {
    "&action=" + action + "&output=json"
  }

  /** An `Authorization` header: a scheme and its credential. */
  datatype AuthenticationHeader = AuthenticationHeader(scheme: string, parameter: string)

  /** A GET request as sent: the URL and the client's authorisation header. */
  datatype Request = Request(url: string, authorization: AuthenticationHeader)

  /**
   * An answer of the API: its status code, the error text its body decodes to
   * (read only on failure) and the torrent list it decodes to (read only on success).
   */
  datatype HttpResponse = HttpResponse(statusCode: int, errorText: Option<string>, torrents: Option<seq<FileListTorrent>>)

  /** The requests a call sent, in order, and what it returned or threw. */
  datatype Outcome = Outcome(requests: seq<Request>, result: Result<Option<seq<FileListTorrent>>, Exception>)

  /** The header the constructor installs: scheme "Basic", credential base64(ASCII("username:passkey")). */
  function Authorization(username: string, passkey: string, base64Ascii: string -> string): (h: AuthenticationHeader)
    ensures h.scheme == "Basic"
    ensures h.parameter == base64Ascii(username + ":" + passkey)
  {
    AuthenticationHeader("Basic", base64Ascii(username + ":" + passkey))
  }

  /** `IsSuccessStatusCode`: a status in 200..299; the rate-limit status 429 is never one. */
  predicate IsSuccessStatusCode(code: int)
    ensures IsSuccessStatusCode(code) ==> code != TooManyRequests
  {
    200 <= code <= 299
  }

  /** The message of the exception a failed call throws. */
  function FailureMessage(errorText: Option<string>): string
  {
    FailurePrefix + (if errorText.Some? then errorText.value else UnknownError)
  }

  /**
   * What a call returns for a response: the decoded list on success; on a
   * 429 the rate-limit exception whatever the body holds; on any other
   * failure an exception carrying the decoded error text, or "Unknown".
   */
  function Classify(response: HttpResponse): (r: Result<Option<seq<FileListTorrent>>, Exception>)
    ensures r.Success? <==> IsSuccessStatusCode(response.statusCode)
    ensures r.Success? ==> r.value == response.torrents
    ensures response.statusCode == TooManyRequests ==> r == Failure(GeneralException(RateLimitMessage))
    ensures !IsSuccessStatusCode(response.statusCode) && response.statusCode != TooManyRequests ==>
              r == Failure(GeneralException(FailureMessage(response.errorText)))
  {
    if !IsSuccessStatusCode(response.statusCode) then
      if response.statusCode == TooManyRequests then Failure(GeneralException(RateLimitMessage))
      else Failure(GeneralException(FailureMessage(response.errorText)))
    else Success(response.torrents)
  }

  /** On a 429 the body is never read: any two 429 answers are classified alike. */
  lemma RateLimitIgnoresBody(a: HttpResponse, b: HttpResponse)
    requires a.statusCode == TooManyRequests && b.statusCode == TooManyRequests
    ensures Classify(a) == Classify(b)
  {
  }

  lemma RateLimitMessageIsNotAFailureMessage(errorText: Option<string>)
    ensures RateLimitMessage != FailureMessage(errorText)
  {
    assert |RateLimitMessage| < |FailurePrefix| <= |FailureMessage(errorText)|;
  }

  /**
   * A caller can tell a rate limit from any other failure by the message, and
   * two other failures apart by their error texts, except that a missing
   * error text reads the same as the text "Unknown".
   */
  lemma FailuresDistinguishable(a: HttpResponse, b: HttpResponse)
    requires Classify(a).Failure? && Classify(b).Failure?
    requires Classify(a) == Classify(b)
    ensures a.statusCode == TooManyRequests <==> b.statusCode == TooManyRequests
    ensures a.statusCode != TooManyRequests ==>
              (if a.errorText.Some? then a.errorText.value else UnknownError)
              == (if b.errorText.Some? then b.errorText.value else UnknownError)
  {
    RateLimitMessageIsNotAFailureMessage(a.errorText);
    RateLimitMessageIsNotAFailureMessage(b.errorText);
    if a.statusCode != TooManyRequests {
      var x := FailureMessage(a.errorText);
      var y := FailureMessage(b.errorText);
      assert x[|FailurePrefix|..] == (if a.errorText.Some? then a.errorText.value else UnknownError);
      assert y[|FailurePrefix|..] == (if b.errorText.Some? then b.errorText.value else UnknownError);
    }
  }

  /** The request URL: the API's address, '?', then the URL-decoded parameter string. */
  function RequestUrl(parameters: string, urlDecode: string -> string): (url: string)
    ensures |url| > |ApiUrl|
    ensures url[..|ApiUrl|] == ApiUrl && url[|ApiUrl|] == '?'
    ensures url[|ApiUrl| + 1..] == urlDecode(parameters)
  {
    ApiUrl + "?" + urlDecode(parameters)
  }

  /** `_Query`: one GET request, then the classification of its answer. */
  function QueryApi(authorization: AuthenticationHeader, parameters: string,
                    urlDecode: string -> string, send: Request -> HttpResponse): (o: Outcome)
    ensures |o.requests| == 1
    ensures o.requests[0] == Request(RequestUrl(parameters, urlDecode), authorization)
    ensures o.result == Classify(send(o.requests[0]))
  {
    var request := Request(RequestUrl(parameters, urlDecode), authorization);
    Outcome([request], Classify(send(request)))
  }

  /** The parameter string of a search: the builder's string followed by the search action. */
  function SearchParameters(s: SearchParams.SearchState): (r: Result<string, Exception>)
    ensures r.Success? <==> s.query.Some?
    ensures r.Failure? ==> r == SearchParams.Serialize(s)
    ensures r.Success? ==> r.value == SearchParams.Serialize(s).value + SearchSuffix
  {
    var p := SearchParams.Serialize(s);
    if p.Failure? then Failure(p.error) else Success(p.value + SearchSuffix)
  }

  /** The parameter string of a latest-torrents request: the builder's string followed by the latest action. */
  function LatestParameters(s: LatestParams.LatestState): (r: string)
    ensures |r| >= |LatestSuffix| && r[|r| - |LatestSuffix|..] == LatestSuffix
    ensures r == LatestSuffix <==> s == LatestParams.Empty
  {
    LatestParams.Serialize(s) + LatestSuffix
  }

  /** `SearchAsync` on a builder in state s. */
  function Search(authorization: AuthenticationHeader, s: SearchParams.SearchState,
                  urlDecode: string -> string, send: Request -> HttpResponse): (o: Outcome)
    ensures s.query.None? ==> o == Outcome([], Failure(ArgumentNullException("Query", SearchParams.MissingQueryMessage)))
    ensures s.query.Some? ==> o == QueryApi(authorization, SearchParams.Serialize(s).value + SearchSuffix, urlDecode, send)
  {
    var parameters := SearchParameters(s);
    if parameters.Failure? then Outcome([], Failure(parameters.error))
    else QueryApi(authorization, parameters.value, urlDecode, send)
  }

  /** `LatestAsync` on a builder in state s. */
  function Latest(authorization: AuthenticationHeader, s: LatestParams.LatestState,
                  urlDecode: string -> string, send: Request -> HttpResponse): (o: Outcome)
    ensures |o.requests| == 1
    ensures o.requests[0] == Request(RequestUrl(LatestParameters(s), urlDecode), authorization)
    ensures o.result == Classify(send(o.requests[0]))
  {
    QueryApi(authorization, LatestParameters(s), urlDecode, send)
  }

  /** A latest-torrents request from a new builder carries just the action. */
  lemma LatestEmptyBuilder()
    ensures LatestParameters(LatestParams.Empty) == LatestSuffix
  {
  }

  /** The suffix of an action, as the parameters it reads back as. */
  function ActionParams(action: string): seq<Param>
  {
    [Param("action", action), Param("output", "json")]
  }

  lemma ActionRendered(action: string)
    requires '&' !in action
    ensures Render(ActionParams(action)) == ActionSuffix(action)
    ensures AllUnambiguous(ActionParams(action))
  {
    var ps := ActionParams(action);
    RenderCons(ps[0], ps[1..]);
    assert ps[1..] == [ps[1]];
    OutputRendered();
    assert Unambiguous(ps[0]) && Unambiguous(ps[1]);
  }

  lemma OutputRendered()
    ensures Render([Param("output", "json")]) == "&output=json"
  {
    RenderOne(Param("output", "json"));
  }

  lemma ActionsPlain()
    ensures '&' !in "search-torrents" && '&' !in "latest-torrents"
  {
  }

  /**
   * The parameter string of a search, before it is URL-decoded, reads back
   * as the builder's parameters, then action=search-torrents and
   * output=json (as long as the type and the query hold no '&'). What the
   * API reads depends further on the URL decoding, which can turn an
   * escaped '&' or a '+' of the query into a separator or a space.
   */
  lemma SearchParametersReadBack(s: SearchParams.SearchState)
    requires s.query.Some? && '&' !in s.query.value && '&' !in s.searchType
    ensures SearchParameters(s).Success?
    ensures Parse(SearchParameters(s).value) == SearchParams.AllParams(s) + ActionParams("search-torrents")
  {
    var opt := SearchParams.OptionalParams(s);
    var rest := opt + ActionParams("search-torrents");
    SearchText(s);
    SearchParams.OptionalParamsUnambiguous(s);
    ActionsPlain();
    ActionRendered("search-torrents");
    AllUnambiguousAppend(opt, ActionParams("search-torrents"));
    SearchParams.HeadKeysPlain();
    ParseLeadingTwo("type", s.searchType, "query", s.query.value, rest);
    assert SearchParams.AllParams(s) + ActionParams("search-torrents")
        == [Param("type", s.searchType), Param("query", s.query.value)] + rest;
  }

  lemma SearchText(s: SearchParams.SearchState)
    requires s.query.Some?
    ensures SearchParameters(s).Success?
    ensures SearchParameters(s).value
         == "type" + "=" + s.searchType + Render([Param("query", s.query.value)] + (SearchParams.OptionalParams(s) + ActionParams("search-torrents")))
  {
    SearchParams.SerializedShape(s);
    ActionsPlain();
    ActionRendered("search-torrents");
    AppendText("type" + "=" + s.searchType, [Param("query", s.query.value)], SearchParams.OptionalParams(s), ActionParams("search-torrents"));
  }

  /**
   * The parameter string of a latest-torrents request, before it is
   * URL-decoded, reads back as the builder's parameters, then the action.
   */
  lemma LatestParametersReadBack(s: LatestParams.LatestState)
    requires s.imdb.Some? ==> '&' !in s.imdb.value
    ensures Parse(LatestParameters(s)) == LatestParams.Params(s) + ActionParams("latest-torrents")
  {
    ActionsPlain();
    ActionRendered("latest-torrents");
    RenderAppend(LatestParams.Params(s), ActionParams("latest-torrents"));
    LatestParams.ParamsUnambiguous(s);
    AllUnambiguousAppend(LatestParams.Params(s), ActionParams("latest-torrents"));
    ParseRender(LatestParams.Params(s) + ActionParams("latest-torrents"));
  }

  /**
   * The client. Its only state is the authorisation header, fixed by the
   * constructor; each call builds its parameters, sends one request and
   * classifies the answer.
   */
  class FileList {
    const authorization: AuthenticationHeader

    constructor (username: string, passkey: string, base64Ascii: string -> string)
      ensures authorization == Authorization(username, passkey, base64Ascii)
    {
      authorization := Authorization(username, passkey, base64Ascii);
    }

    /** Searches with the builder's current parameters; throws before sending when no query is set. */
    method SearchAsync(searchParams: SearchParams.FileListSearchParams,
                       urlDecode: string -> string, send: Request -> HttpResponse) returns (o: Outcome)
      ensures o == Search(authorization, searchParams.State(), urlDecode, send)
    {
      var built := searchParams.ToString();
      if built.Failure? {
        return Outcome([], Failure(built.error));
      }
      var parameters := built.value + SearchSuffix;
      o := QueryApi(authorization, parameters, urlDecode, send);
    }

    /** Asks for the latest torrents with the builder's current parameters. */
    method LatestAsync(latestParams: LatestParams.FileListLatestParams,
                       urlDecode: string -> string, send: Request -> HttpResponse) returns (o: Outcome)
      ensures o == Latest(authorization, latestParams.State(), urlDecode, send)
    {
      var built := latestParams.ToString();
      var parameters := built + LatestSuffix;
      o := QueryApi(authorization, parameters, urlDecode, send);
    }
  }
}
