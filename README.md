# FileListSharp in Dafny

FileListSharp is a small C# client for the filelist.io torrent tracker's JSON
API. This project models its core and proves properties of that model:

- the two fluent parameter builders, `FileListSearchParams` and
  `FileListLatestParams`. Each is a class with mutable optional fields,
  validating setters that return the builder, and a `ToString` that
  appends `&key=value` for each field that is set;
- the `FileListTorrent` record: the 0/1 integers `internal` and `moderated`
  become booleans, the TV season and episode are read from a dictionary, and
  every other field is copied;
- the `FileList` client:
  - it builds the Basic authorisation header once;
  - it appends the action suffix to a builder's string;
  - it assembles the request URL;
  - it classifies the response as success, rate limit or other failure.

Layout:

- `wrappers.dfy`: `Option` and `Result`.
- `runtime.dfy`: the parts of .NET the core relies on:
  - 32- and 64-bit integers, and the exceptions thrown;
  - ASCII `ToLower`;
  - `$"{n}"` formatting and `string.Join(',', ints)`, with parsers that invert them;
  - splitting a string at a character. The library never splits; only the reference reader in `query_string.dfy` does.
- `validation.dfy`: the IMDb pattern `(tt[0-9]*)`, the category check and the limit range.
- `query_string.dfy`:
  - the `&key=value` rendering both builders use;
  - a reference reader for it, which splits at `&` and then at the first `=`. It is used to state what a receiver reads back.
- `search_params.dfy`, `latest_params.dfy`: the builder classes, with:
  - a pure `Serialize` of each builder's state;
  - `ToString` as a method proved equal to `Serialize`;
  - lemmas about what the serialised string holds;
  - short methods that use the builders the way the library's callers do.
- `torrent.dfy`: the record and its constructor. The constructor can throw, so it returns a `Result`.
- `file_list.dfy`: the client.

Thrown exceptions become `Failure` values. A C# `null` becomes `None`. An
`int[]?` field is an `array?<Int32>`, and the builder keeps the caller's
array itself, not a copy.

## Model

| member | source | states |
|---|---|---|
| Runtime.ToLower | FileListSharp/Builders/FileListSearchParams.cs:45 | Lowering keeps the length and maps each character to its lower-case letter when it is an ASCII capital, leaving it unchanged otherwise |
| Runtime.ToLowerIdempotent | FileListSharp/Builders/FileListSearchParams.cs:45-48 | Lowering a lowered type again changes nothing |
| Runtime.ToLowerFixedIff | FileListSharp/Builders/FileListSearchParams.cs:45-46 | A string is left unchanged by lowering exactly when it holds no ASCII capital |
| Runtime.FormatInt | FileListSharp/Builders/FileListSearchParams.cs:27-32 | An int renders as a nonempty string of digits, with a leading '-' exactly for negative values |
| Runtime.ParseFormatInt | FileListSharp/Builders/FileListSearchParams.cs:27-32 | Every rendered int reads back as the same int |
| Runtime.FormatIntInjective | FileListSharp/Builders/FileListSearchParams.cs:27-32 | Distinct ints render differently |
| Runtime.FormatOpt | FileListSharp/Builders/FileListLatestParams.cs:16 | A nullable int renders only when set, and the text reads back as the stored value |
| Runtime.JoinIntsRoundTrip | FileListSharp/Builders/FileListSearchParams.cs:26 | The comma-joined category ids read back as exactly the stored ids, in order, for every list including the empty one |
| Validation.ImdbRegexIsMatch | FileListSharp/Builders/FileListSearchParams.cs:171-172 | The pattern search, tried at each position from the left, succeeds only where a "tt" occurs |
| Validation.ImdbRegexIsMatchIff | FileListSharp/Builders/FileListSearchParams.cs:171-172 | The unanchored pattern (tt[0-9]*) matches exactly when "tt" occurs somewhere; equivalently, when a span "tt" followed by digits exists |
| Validation.TTDigitsAccepted | FileListSharp/Builders/FileListSearchParams.cs:76 | An id of the form tt0000000 is accepted |
| Validation.BareDigitsRejected | FileListSharp/Builders/FileListSearchParams.cs:76 | A bare-digit id such as 0000000 is refused, although the error message names it as a valid form |
| Validation.SurroundedTTAccepted | FileListSharp/Builders/FileListSearchParams.cs:171-172 | Any string containing "tt" is accepted, whatever surrounds it |
| Validation.AllInvalid | FileListSharp/Builders/FileListSearchParams.cs:96-99 | A category list is refused exactly when no id lies in 1..27; the empty list is refused |
| Validation.ValidLimit | FileListSharp/Builders/FileListLatestParams.cs:31 | The accepted limits are 1..100, and each one is sent as one to three digits without a sign |
| QueryString.AppendIfSet | FileListSharp/Builders/FileListSearchParams.cs:26-32 | Appending an optional field adds "&key=value" when the value is set and nothing otherwise |
| SearchParams.Serialize | FileListSharp/Builders/FileListSearchParams.cs:21-35 | Serialising fails exactly when no query is set, with ArgumentNullException("Query", "The query for FileListSearchParams cannot be null.") |
| SearchParams.FileListSearchParams.constructor | FileListSharp/Builders/FileListSearchParams.cs:11-19 | A new builder has type "name", no query, a fresh empty category array and no other field set; the invariant holds |
| SearchParams.FileListSearchParams.ToString | FileListSharp/Builders/FileListSearchParams.cs:21-35 | The string built step by step is exactly Serialize of the builder's current state |
| SearchParams.FileListSearchParams.Type | FileListSharp/Builders/FileListSearchParams.cs:43-56 | The type is lower-cased and stored when it is "name" or "imdb"; otherwise the exception is returned and the type is unchanged |
| SearchParams.FileListSearchParams.Query | FileListSharp/Builders/FileListSearchParams.cs:64-86 | In imdb mode a query without a pattern match is refused and the old query kept; in every other case the query is stored |
| SearchParams.FileListSearchParams.Categories | FileListSharp/Builders/FileListSearchParams.cs:94-103 | The array is refused, leaving the field unchanged, exactly when every id is outside 1..27; otherwise the field refers to the caller's array |
| SearchParams.FileListSearchParams.Moderated | FileListSharp/Builders/FileListSearchParams.cs:110-114 | Stores 1 for true and 0 for false, and returns the builder |
| SearchParams.FileListSearchParams.Internal | FileListSharp/Builders/FileListSearchParams.cs:121-125 | Stores 1 for true and 0 for false, and returns the builder |
| SearchParams.FileListSearchParams.FreeLeech | FileListSharp/Builders/FileListSearchParams.cs:132-136 | Stores 1 for true and 0 for false, and returns the builder |
| SearchParams.FileListSearchParams.DoubleUp | FileListSharp/Builders/FileListSearchParams.cs:143-147 | Stores 1 for true and 0 for false, and returns the builder |
| SearchParams.FileListSearchParams.Season | FileListSharp/Builders/FileListSearchParams.cs:154-158 | Stores any int, unchecked, and returns the builder |
| SearchParams.FileListSearchParams.Episode | FileListSharp/Builders/FileListSearchParams.cs:165-169 | Stores any int, unchecked, and returns the builder |
| SearchParams.RenderedInOrder | FileListSharp/Builders/FileListSearchParams.cs:24-34 | The output is the head followed by each field's parameter in the order category, moderated, internal, freeleech, doubleup, season, episode |
| SearchParams.KeysDistinct | FileListSharp/Builders/FileListSearchParams.cs:26-32 | Distinct fields use distinct parameter names, none of them "type" or "query" and none containing '&' or '=' |
| SearchParams.FieldValueHasNoAmpersand | FileListSharp/Builders/FileListSearchParams.cs:26-32 | No rendered field value contains '&' |
| SearchParams.OptionalParamsCountLookup | FileListSharp/Builders/FileListSearchParams.cs:26-32 | Among the optional parameters each field's name occurs once with its text when set and not at all when unset; "type" and "query" never occur |
| SearchParams.SerializeReadsBack | FileListSharp/Builders/FileListSearchParams.cs:23-34 | When type and query contain no '&', the output reads back as type, query, then exactly the set optional fields in order |
| SearchParams.SerializedFieldsOnce | FileListSharp/Builders/FileListSearchParams.cs:23-34 | A receiver reads "type" and "query" once each with the stored values, each set field exactly once with its value, and the category ids as stored |
| SearchParams.FreshWithQuery | FileListSharp/Builders/FileListSearchParams.cs:11-26 | A builder given only a query (and perhaps a type) outputs "type=<t>&query=<q>&category=", because the category array starts empty, not null |
| SearchParams.DocumentedState | FileListSharp/FileListSharp.cs:35 | Name search with category 21 and freeleech outputs "type=name&query=<q>&category=21&freeleech=1" |
| SearchParams.UnencodedQuerySmuggles | FileListSharp/Builders/FileListSearchParams.cs:24 | A query "q&k=v" is sent unencoded and read back as query q plus a parameter k=v the builder never set |
| SearchParams.UnencodedQueryAddsSeason | FileListSharp/Builders/FileListSearchParams.cs:24 | A query "x&season=2" on a builder without a season makes the receiver read season 2 and query x |
| SearchParams.QueryOnly | FileListSharp/Builders/FileListSearchParams.cs:11-35 | A new builder with a query returns "type=name&query=<q>&category=" |
| SearchParams.TypeSetAfterQuery | FileListSharp/Builders/FileListSearchParams.cs:43-86 | Setting the type to IMDB after the query keeps any query, pattern or not, and outputs "type=imdb&query=<q>&category=" |
| SearchParams.ImdbQueryRefused | FileListSharp/Builders/FileListSearchParams.cs:23-77 | In imdb mode a query without "tt" is refused and ToString then throws for the missing query |
| SearchParams.DocumentedSearch | FileListSharp/FileListSharp.cs:35 | The documented chain Query(q).Categories([21]).FreeLeech(true) returns "type=name&query=<q>&category=21&freeleech=1" |
| SearchParams.WellFormedSendsCategory | FileListSharp/Builders/FileListSearchParams.cs:13-26 | Every builder keeps a non-null category array, so when its query has no '&' it sends exactly one category parameter, which reads back as the stored ids, and a type of "name" or "imdb" |
| SearchParams.WellFormedFlags | FileListSharp/Builders/FileListSearchParams.cs:110-147 | On every builder whose query has no '&', each flag the receiver reads is "0" or "1" |
| SearchParams.MissingQuery | FileListSharp/Builders/FileListSearchParams.cs:23 | A builder with a type, all four flags, season and episode set but no query throws the missing-query exception from ToString (the general case is the contract of Serialize) |
| LatestParams.FileListLatestParams.constructor | FileListSharp/Builders/FileListLatestParams.cs:8-10 | A new builder has no field set |
| LatestParams.FileListLatestParams.ToString | FileListSharp/Builders/FileListLatestParams.cs:12-21 | The string built step by step is exactly Serialize of the builder's current state |
| LatestParams.FileListLatestParams.Limit | FileListSharp/Builders/FileListLatestParams.cs:29-35 | A limit in 1..100 is stored; any other is refused with "Invalid limit provided in FileListLatestParams. Valid limits are 1-100" and the old limit kept |
| LatestParams.FileListLatestParams.Imdb | FileListSharp/Builders/FileListLatestParams.cs:43-53 | An id the pattern matches is stored; any other is refused and the old id kept |
| LatestParams.FileListLatestParams.Categories | FileListSharp/Builders/FileListLatestParams.cs:61-70 | The array is refused, leaving the field unchanged, exactly when every id is outside 1..27; otherwise the field refers to the caller's array |
| LatestParams.RenderedInOrder | FileListSharp/Builders/FileListLatestParams.cs:14-20 | The output is limit, imdb, category, each only when set, in that order |
| LatestParams.Params | FileListSharp/Builders/FileListLatestParams.cs:16-18 | Each set field contributes exactly one parameter, so the list is empty exactly when nothing is set |
| LatestParams.Serialize | FileListSharp/Builders/FileListLatestParams.cs:12-21 | The output is empty exactly when no field is set, and otherwise starts with '&' |
| LatestParams.WellFormedReadsBack | FileListSharp/Builders/FileListLatestParams.cs:29-53 | On every builder whose IMDb id has no '&', the receiver reads any limit as a number in 1..100 and any IMDb id as one the pattern matches |
| LatestParams.SerializeReadsBack | FileListSharp/Builders/FileListLatestParams.cs:12-21 | When the IMDb id has no '&', the output reads back as the set fields; each occurs once; limit and category read back as the stored numbers |
| LatestParams.ImdbSmugglesLimit | FileListSharp/Builders/FileListLatestParams.cs:43-72 | The id "tt1&limit=500" is accepted and makes the receiver read a limit of 500, which the limit setter would have refused |
| LatestParams.NothingSet | FileListSharp/Builders/FileListLatestParams.cs:12-21 | A new builder returns "" |
| LatestParams.LimitRefused | FileListSharp/Builders/FileListLatestParams.cs:29-35 | An out-of-range limit is refused and the output stays "" |
| LatestParams.DocumentedLatest | FileListSharp/FileListSharp.cs:54 | The documented chain Imdb(id).Categories([21]) returns "&imdb=<id>&category=21" |
| LatestParams.DocumentedState | FileListSharp/FileListSharp.cs:54 | A state with an IMDb id and category 21 serialises to "&imdb=<id>&category=21" |
| Torrent.Construct | FileListSharp/Builders/FileListTorrent.cs:5-119 | Construction succeeds exactly when the tv map has both keys, throwing KeyNotFound for "season" first; Internal and Moderated are true exactly when the raw value is 1; the TV fields are the map's values |
| Torrent.ConstructCopies | FileListSharp/Builders/FileListTorrent.cs:29-109 | Every field that is not decoded equals its argument |
| Torrent.ConstructDeconstruct | FileListSharp/Builders/FileListTorrent.cs:5-119 | Every record is built from canonical arguments: flags 0/1 and a tv map with exactly "season" and "episode" |
| Torrent.DeconstructConstruct | FileListSharp/Builders/FileListTorrent.cs:5-119 | Construction loses nothing exactly when the arguments are canonical |
| Torrent.ConstructInjectiveUpToDecoding | FileListSharp/Builders/FileListTorrent.cs:5-119 | Distinct canonical arguments give distinct records |
| Torrent.OnlyOneIsTrue | FileListSharp/Builders/FileListTorrent.cs:69-74 | Raw flags 2 and -1 decode to false |
| Client.Authorization | FileListSharp/FileListSharp.cs:20-26 | The header has scheme "Basic" and the encoded "username:passkey" as its credential |
| Client.FileList.constructor | FileListSharp/FileListSharp.cs:20-26 | The client's header is set once, from the username and passkey |
| Client.IsSuccessStatusCode | FileListSharp/FileListSharp.cs:70-72 | Success means a status in 200..299, so the rate-limit status 429 is always handled as a failure |
| Client.Classify | FileListSharp/FileListSharp.cs:66-84 | Success exactly for 2xx, returning the decoded list; 429 gives the rate-limit exception; any other status gives the failure message with the error text or "Unknown" |
| Client.RateLimitIgnoresBody | FileListSharp/FileListSharp.cs:70-75 | Any two 429 responses give the same result, whatever their bodies |
| Client.RateLimitMessageIsNotAFailureMessage | FileListSharp/FileListSharp.cs:74-78 | The rate-limit message differs from every other failure message |
| Client.FailuresDistinguishable | FileListSharp/FileListSharp.cs:70-78 | Equal failures are both 429 or both not; and when not, their error texts agree, with a missing text reading as "Unknown" |
| Client.RequestUrl | FileListSharp/FileListSharp.cs:68 | The URL is the API address, then '?', then the URL-decoded parameters |
| Client.QueryApi | FileListSharp/FileListSharp.cs:66-84 | A query sends exactly one request, to the assembled URL with the client's header, and its result is the classification of the answer |
| Client.SearchParameters | FileListSharp/FileListSharp.cs:40-45 | The search parameters are the builder's string followed by "&action=search-torrents&output=json", and fail exactly when the builder has no query |
| Client.Search | FileListSharp/FileListSharp.cs:40-45 | Without a query, a search sends no request and throws; otherwise it queries once with the builder's string plus the search action |
| Client.LatestParameters | FileListSharp/FileListSharp.cs:61-62 | The parameters always end with "&action=latest-torrents&output=json", and are exactly that suffix when nothing is set |
| Client.Latest | FileListSharp/FileListSharp.cs:59-64 | A latest-torrents call always sends exactly one request, to the URL of the builder's string plus the latest action, and returns its classification |
| Client.LatestEmptyBuilder | FileListSharp/FileListSharp.cs:59-64 | A new latest builder gives just "&action=latest-torrents&output=json" |
| Client.SearchParametersReadBack | FileListSharp/FileListSharp.cs:42-44 | When type and query have no '&', the parameter string, before URL-decoding, reads back as the builder's parameters followed by action=search-torrents and output=json |
| Client.LatestParametersReadBack | FileListSharp/FileListSharp.cs:61-63 | When the IMDb id has no '&', the parameter string, before URL-decoding, reads back as the builder's parameters followed by action=latest-torrents and output=json |
| Client.FileList.SearchAsync | FileListSharp/FileListSharp.cs:40-45 | Calling the builder's ToString and appending the action behaves as Search on the builder's current state |
| Client.FileList.LatestAsync | FileListSharp/FileListSharp.cs:59-64 | Calling the builder's ToString and appending the action behaves as Latest on the builder's current state |

## Left out

- HTTP, `async`/`Task`, and reading the response body are not modelled. A call takes a `send` function from request to response. A response is its status code plus what its body decodes to.
- JSON decoding of the torrent list and the error body is not modelled, and neither are the exceptions the decoder can throw. Which JSON keys map to which constructor arguments is not modelled either.
- `HttpUtility.UrlDecode` is a parameter, `urlDecode`. The model therefore does not show that a `%26` in a query decodes to an `&` and adds a parameter.
- The ASCII bytes and base64 of the credential are a single parameter, `base64Ascii`.
- Only ASCII lower-casing is modelled. Culture-specific mappings of `ToLower` are not.
- Runtime.FormatInt: renders negative numbers with '-'. .NET formats an int with the current culture's negative sign, which is not '-' in every culture (U+2212 in some). Negative values reach the output through Season, Episode and an accepted category list such as [5, -3]; under such a culture their text, and the read-back lemmas about it, differ.
- The .NET regex engine is not modelled. The pattern is modelled by what it accepts: a string that contains "tt".
- A `null` argument to a setter, a `null` tv dictionary, and a `null` builder passed to the client are not modelled. The C# signatures declare all of these non-nullable.
- Messages that use `GetType().Name` are fixed to the declared class names. A subclass of a builder would change the name in the message; that is not modelled.
- The message of an `ArgumentNullException` is kept as the parameter name and the text separately. The model does not add .NET's " (Parameter 'Query')" suffix.
- `FileListError` is modelled only as the optional error text it carries.
- The category array is shared with the caller, and the model keeps the array reference. The serialised state is read at the moment `ToString` runs, so a later change the caller makes to the array shows up in the output.
- Where the library's documentation and its code differ, the model follows the code:
  - the query is not URL-encoded;
  - a category list is refused only when all of its ids are invalid, so an empty list is refused too;
  - bare-digit IMDb ids are refused;
  - a new search builder always sends `&category=`.
