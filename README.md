# MAL-Wrapper query builder and resource clients, in Dafny

This project models the core of MAL-Wrapper, a Ruby client for the MyAnimeList API, and proves properties of that model. The core has three parts.

- `MalWrapper::API::Base#build_query` runs in four steps:
  - It validates that `type` and `query` are present, raising `ArgumentError` with a message that names every missing key.
  - It filters the caller's Hash in place down to `type`, `query`, `limit`, `offset` and `fields`.
  - It picks a URL shape. A query with a decimal digit gets the direct shape `type/query?fields=a,b`. Any other query gets the search shape `type?q=query&k=v&...`.
  - It puts a `/` in front of the suffix unless the base URL already ends in one.
- `Base#parse` appends that suffix to the base URL and fetches the result.
- `Anime` and `Manga` are two façades with the same operations: `id`, `find` (and its alias `search`), `first` and `ranking`. Each operation builds a fixed Hash, sends it through `build_query` and `parse`, and unwraps `data[].node`. Since the façades differ only in the `type` they send, the model has one `Client` parameterised by a `Kind`.

Modules:

- `Text`: helpers that stand in for the Ruby core methods used here:
  - the `/\d+/` test
  - `Integer#to_s`, with its inverse
  - `Array#join`, with `Split` as its inverse
  - `Array#inspect`
  - `String#end_with?`
- `Outcomes`: `Option`, and a `Result` whose failures are the exceptions the library lets escape. These are `ArgumentError`, `NoMethodError` (method name and receiver class) and `TypeError`.
- `Response`: the value `JSON.parse` returns. A Hash keeps its key order. The module also models the Ruby methods the façades call on that value: `[]` with a String key, `first`, and `map { |x| x[key] }`, each with its exact failure on every kind of receiver.
- `QueryBuilder`: `Base`.
  - A parameter Hash is an insertion-ordered sequence of (key, value) pairs.
  - `Api.Build` is the specification function: what `build_query` returns or raises.
  - `Api.BuildQuery` is the imperative operation. It returns both the caller's Hash after the in-place `select!` and the result, and it is proved equal to `Build`.
- `Resources`: the `Anime` and `Manga` façades. The HTTP request plus JSON parsing is a function parameter `fetch: string -> Json`.

Behaviour that the code has, and that its own comments or a reader might expect otherwise:

- **`separator` is dead.** The comment example of `build_query` (`lib/malWrapper/api/base.rb:44`) passes `:separator => "?"`, and `ranking` sends it. But `select!` (`lib/malWrapper/api/base.rb:52`) removes `separator` before the test at line 54, so only the digit test picks the shape. `ranking("bypopularity")` therefore requests the search shape (`RankingIsFind`, `RankingSearch`, `MangaRankingByPopularity`).
- **Missing keys.** A missing `type` or `query` raises `ArgumentError`. No error type of the library's own is defined.
- **`id` on an empty response.** `id` raises on an empty `data` (`first` gives nil, then `[]` is called on nil) and on a `data` that is missing (`first` on nil). These are Ruby's own `NoMethodError`s, and the model returns them (`IdOfData`).
- **`find`, `search` and `ranking` raise less.** An empty `data` gives `[]`. An element without `"node"` maps to nil, with no exception. They raise in these cases:
  - A response that is neither a Hash nor a String already fails at `["data"]`. An Array or an Integer raises `TypeError`, and nil raises `NoMethodError` for `[]` (`Response.Index`).
  - A missing `data` raises `map` on nil. A `data` that is an Integer or a String raises `map` on that Integer or String.
  - A non-empty Hash `data` raises `TypeError`.
  - An element that is nil, an Integer or an Array fails when indexed with `"node"` (`FindNodes`, `Response.MapIndex`).
- **`first` never returns.** Its comment promises `@return [Hash] The anime` (`lib/malWrapper/api/anime.rb:56`). The code indexes the Array that `find` returns with `"data"`, so it always raises (see Findings). The corrected `FirstRecord` returns nil for an empty `data`, as `Array#first` does, rather than raising.
- **Double slash.** No `/` is added when the base ends in `/`, so a base ending in `//` keeps its `//` (`SlashJoin`).
- **Missing `fields`.** A digit in the `id` name, or in any query without `fields`, makes the direct shape call `join` on nil.

## Model

| member | source | states |
|---|---|---|
| `Text.ContainsDigit` | lib/malWrapper/api/base.rb:54 | No contract of its own: `query.match(/\d+/)` is truthy exactly when some character is an ASCII digit. `DirectShape` and `SearchShape` state the branch it selects. |
| `Text.NatToString` | lib/malWrapper/api/base.rb:60 | Interpolating a non-negative Integer gives a non-empty string of digits with no leading zero, except for zero itself. `ParseNatToString` reads it back. |
| `Text.IntToString` | lib/malWrapper/api/base.rb:60 | Interpolating an Integer gives a non-empty string. It starts with `-` exactly when the number is negative, and it contains a digit. |
| `Text.IntToStringReads` | lib/malWrapper/api/base.rb:60 | The rendering of every Integer reads back: after the sign of a negative number, its digits are the number's magnitude, and they start with `0` only for zero. |
| `Text.ParseNatToString` | lib/malWrapper/api/base.rb:60 | Reading back the decimal rendering of a non-negative integer gives the same integer, so `limit=`/`offset=` values lose nothing. |
| `Text.SplitJoin` | lib/malWrapper/api/base.rb:63 | Joining with a one-character separator that no part contains can be undone: splitting at that character gives back the parts. This covers `fields` joined by `,` and arguments joined by `&`. |
| `Text.Join` | lib/malWrapper/api/base.rb:55-63 | No contract of its own: `Array#join`. `SplitJoin` states that a one-character separator join can be undone, and `JoinThree` spells out three parts. |
| `Text.Inspect` | lib/malWrapper/api/base.rb:60 | No contract of its own: `"#{v}"` of an Array of Strings, each quoted and separated by `, ` inside brackets. No call site reaches it (see Left out). |
| `Text.EndsWith` | lib/malWrapper/api/base.rb:55 | No contract of its own: `String#end_with?`. `Api.Prefix` and `Api.SlashJoin` state what the slash test decides. |
| `Response.Get` | lib/malWrapper/api/anime.rb:33 | `Hash#[]` gives the value of the first entry with the key, and nil when no entry has it. |
| `Response.Index` | lib/malWrapper/api/anime.rb:33 | `v[key]` succeeds exactly on a Hash or a String. On nil it raises `NoMethodError` for `[]`. On an Array or an Integer it raises `TypeError` "no implicit conversion of String into Integer". On a Hash it is the lookup. |
| `Response.First` | lib/malWrapper/api/anime.rb:33 | `first` succeeds exactly on an Array or a Hash. It gives the first element of an Array, the first `[key, value]` pair of a Hash, or nil when the receiver is empty. |
| `Response.MapIndexItems` | lib/malWrapper/api/anime.rb:50 | Mapping `x[key]` over an Array succeeds iff every element can be indexed. The result then has the same length and holds each element's value in order. A failure is that of the first element that cannot be indexed. |
| `Response.MapIndex` | lib/malWrapper/api/anime.rb:50 | `map` on an Array maps the elements. An empty Hash gives `[]`. A non-empty Hash gives `TypeError`. nil, Integer and String raise `NoMethodError` for `map`. |
| `QueryBuilder.RequiredAreAuthorized` | lib/malWrapper/api/base.rb:47 | `type` and `query` are in the whitelist; `separator` is not. |
| `QueryBuilder.HasKey` | lib/malWrapper/api/base.rb:50 | No contract of its own: `params.key?(k)`. `Lookup` is non-nil exactly when it holds, and `MissingOfExactly` uses it to say which keys are missing. |
| `QueryBuilder.Lookup` | lib/malWrapper/api/base.rb:54 | `params[k]` is non-nil exactly when the Hash has key `k`. |
| `QueryBuilder.MissingOf` | lib/malWrapper/api/base.rb:50 | No more keys are reported missing than were listed. `MissingOfExactly` and `MissingRequired` state which ones. |
| `QueryBuilder.MissingOfExactly` | lib/malWrapper/api/base.rb:50 | A key is reported missing exactly when it is listed and the Hash lacks it. |
| `QueryBuilder.MissingRequired` | lib/malWrapper/api/base.rb:50 | The missing keys are `type` if it is absent, followed by `query` if it is absent. |
| `QueryBuilder.Authorized` | lib/malWrapper/api/base.rb:52 | `select!` keeps no more entries than it was given, and only whitelisted keys. |
| `QueryBuilder.AuthorizedAppend` | lib/malWrapper/api/base.rb:52 | Filtering works entry by entry and keeps insertion order: filtering a concatenation is the concatenation of the filtered parts. |
| `QueryBuilder.AuthorizedLookup` | lib/malWrapper/api/base.rb:52-54 | After the filter, a whitelisted key reads as before and any other key, `separator` included, reads nil. |
| `QueryBuilder.AuthorizedIdempotent` | lib/malWrapper/api/base.rb:52 | Filtering twice is filtering once. |
| `QueryBuilder.MissingMessage` | lib/malWrapper/api/base.rb:50 | No contract of its own: "Missing required keys: " followed by the missing keys joined by `, `. `MissingKeysRaise` gives the three exact messages. |
| `QueryBuilder.Render` | lib/malWrapper/api/base.rb:60 | No contract of its own: `"#{v}"` is the String itself, `Integer#to_s` or `Array#inspect`. `IntToString`, `IntToStringReads` and `FindArgs` state what it gives for the values the façades send. |
| `QueryBuilder.JoinFields` | lib/malWrapper/api/base.rb:55 | `fields.join(",")` succeeds exactly when `fields` is an Array, and then gives the comma join. A nil `fields` raises `NoMethodError` for `join` on nil. |
| `QueryBuilder.ArgOf` | lib/malWrapper/api/base.rb:57-61 | The `map` block fails only for a `fields` entry that is not an Array. A `fields` Array gives the single argument `fields=` followed by its comma join. |
| `QueryBuilder.ArgsOf` | lib/malWrapper/api/base.rb:57-63 | The argument list is built exactly when every `fields` entry is an Array. Otherwise the failure is a `NoMethodError` for `join`. |
| `QueryBuilder.ArgsAppend` | lib/malWrapper/api/base.rb:57-63 | Arguments follow insertion order: the arguments of a concatenation are the concatenated arguments. |
| `QueryBuilder.OnlyRequiredKept` | lib/malWrapper/api/base.rb:57-63 | If `type` and `query` are the only whitelisted keys, the argument list is empty. |
| `QueryBuilder.Api.SlashJoin` | lib/malWrapper/api/base.rb:28 | The base URL followed by the prefix ends in `/`. It ends in `//` exactly when the base URL itself does. |
| `QueryBuilder.Api.Prefix` | lib/malWrapper/api/base.rb:55 | The prefix is empty exactly when the base URL ends in `/`, and it is `/` otherwise, so the base URL followed by the prefix always ends in `/`. |
| `QueryBuilder.Api.Direct` | lib/malWrapper/api/base.rb:55 | The direct shape is built exactly when `fields` is an Array, raises `join` on nil when `fields` is absent, and starts with `prefix + type + "/" + query + "?fields="`. `DirectShape` gives its whole value through `Build`. |
| `QueryBuilder.Api.SearchUrl` | lib/malWrapper/api/base.rb:57-63 | The search shape is built exactly when every `fields` entry is an Array, raises `join` otherwise, and starts with `prefix + type + "?q=" + query + "&"`. `SearchShape` gives its whole value through `Build`. |
| `QueryBuilder.Api.Shape` | lib/malWrapper/api/base.rb:54-63 | Once validation has passed, the only way to fail is a `NoMethodError`, such as `match` on a non-String query or `join` on a `fields` that is not an Array. |
| `QueryBuilder.Api.Build` | lib/malWrapper/api/base.rb:46-65 | `build_query` raises only `ArgumentError` or `NoMethodError`, and a URL it returns starts with the prefix. `MissingKeysRaise`, `BuildIgnoresEntry`, `DirectShape`, `SearchShape` and `TrailingAmpersand` state the rest. |
| `QueryBuilder.Api.BuildQuery` | lib/malWrapper/api/base.rb:46-65 | The result is `Build(params)`. The caller's Hash comes back filtered when validation passed, and untouched when it raised. |
| `QueryBuilder.Api.MissingKeysRaise` | lib/malWrapper/api/base.rb:50 | `ArgumentError` is raised iff `type` or `query` is missing. The message is exactly "Missing required keys: type, query", "...: type" or "...: query". |
| `QueryBuilder.Api.BuildIgnoresUnauthorized` | lib/malWrapper/api/base.rb:52-54 | The result depends only on the whitelisted entries. |
| `QueryBuilder.Api.BuildIgnoresEntry` | lib/malWrapper/api/base.rb:47-54 | Inserting a non-whitelisted entry anywhere, `separator: "?"` included, changes neither the URL nor the error. |
| `QueryBuilder.Api.DirectShape` | lib/malWrapper/api/base.rb:54-55 | For a query with a digit, the result is `prefix + type + "/" + query + "?fields=" + fields joined by ","`. It succeeds iff `fields` is an Array, and raises `join` on nil when `fields` is absent. |
| `QueryBuilder.Api.SearchShape` | lib/malWrapper/api/base.rb:54-63 | For a query without a digit, whatever `separator` says, the result is `prefix + type + "?q=" + query + "&" + args joined by "&"`, with the arguments taken from the filtered Hash. |
| `QueryBuilder.Api.TrailingAmpersand` | lib/malWrapper/api/base.rb:60-63 | With only `type` and `query` kept, the search shape ends in a dangling `&`. |
| `QueryBuilder.Api.Parse` | lib/malWrapper/api/base.rb:27-31 | No contract of its own: the response is `fetch` applied to the base URL followed by the suffix. `IdResult` and `FindNodes` state what the façades read from it. |
| `Resources.Client.IdParams` | lib/malWrapper/api/anime.rb:29-32 | No contract of its own: the Hash `id` builds, with `query`, `type`, `limit: 1` in that order. `IdArgs` states the arguments it yields. |
| `Resources.Client.Id` | lib/malWrapper/api/anime.rb:28-34 | No contract of its own. `IdRequest`, `IdResult` and `IdOfData` state its request and result. |
| `Resources.IdOf` | lib/malWrapper/api/anime.rb:33 | No contract of its own. `IdOfData` states what it reads from a response. |
| `Resources.Client.IdArgs` | lib/malWrapper/api/anime.rb:29-33 | The Hash `id` builds passes the filter whole and yields the single argument `limit=1`. |
| `Resources.Client.FindParams` | lib/malWrapper/api/anime.rb:44-49 | No contract of its own: the Hash `find` builds, with `query`, `type`, `limit`, `offset`, `fields` in that order. `FindArgs` states the arguments it yields, in that order. |
| `Resources.Client.Find` | lib/malWrapper/api/anime.rb:43-51 | No contract of its own. `FindRequest` states its request and `FindNodes` its result. |
| `Resources.Client.Search` | lib/malWrapper/api/anime.rb:82 | No contract of its own: it is `Find` by definition, as `alias search find` makes it. |
| `Resources.Client.First` | lib/malWrapper/api/anime.rb:60-62 | No contract of its own. `FirstNeverReturns` states that it always raises. |
| `Resources.Client.FirstRecord` | lib/malWrapper/api/manga.rb:57-58 | No contract of its own: the corrected `first`. `FirstRecordIsFirstNode` states its result. |
| `Resources.Client.RankingParams` | lib/malWrapper/api/anime.rb:72-78 | No contract of its own: the Hash of `find` followed by `separator: "?"`. `RankingIsFind` states that the separator changes nothing. |
| `Resources.Client.Ranking` | lib/malWrapper/api/anime.rb:71-80 | No contract of its own. `RankingIsFind` and `RankingSearch` state its request and result. |
| `Resources.Client.IdRequest` | lib/malWrapper/api/anime.rb:28-32 | For a name without a digit, `id` requests `prefix + kind + "?q=" + name + "&limit=1"`. A name with a digit raises `join` on nil, because `fields` is absent. |
| `Resources.Client.IdResult` | lib/malWrapper/api/manga.rb:25-30 | For a name with a digit, `id` fails before any request. Otherwise it reads the answer to exactly that search request. |
| `Resources.IdOfData` | lib/malWrapper/api/anime.rb:33 | What `id` reads from a response:<br>• an empty `data` raises `[]` on nil, and a missing `data` raises `first` on nil<br>• otherwise `id` is the first element's `node["id"]`<br>• a non-empty Hash `data` raises `TypeError` |
| `Resources.Client.FindRequest` | lib/malWrapper/api/anime.rb:43-49 | `find` requests the direct shape `kind/query?fields=...` for a query with a digit. Otherwise it requests `kind?q=query&limit=L&offset=O&fields=f1,f2`, in that order. |
| `Resources.Client.FindDirect` | lib/malWrapper/api/manga.rb:40-46 | The digit case of `FindRequest`. |
| `Resources.Client.FindSearch` | lib/malWrapper/api/base.rb:57-63 | The digit-free case of `FindRequest`. |
| `Resources.Client.FindArgs` | lib/malWrapper/api/anime.rb:44-49 | The Hash `find` builds passes the filter whole and yields the arguments `limit=L`, `offset=O`, `fields=...`. |
| `Resources.AllAuthorized` | lib/malWrapper/api/base.rb:52 | A Hash whose keys are all whitelisted passes the filter untouched. |
| `Resources.ArgsOfEntries` | lib/malWrapper/api/base.rb:57-61 | When no entry fails, the argument list is the concatenation of each entry's arguments. |
| `Resources.Client.FindNodes` | lib/malWrapper/api/anime.rb:50 | The response's `data` decides what `find` returns: <br>• a nil `data` raises `map` on nil <br>• an empty Array gives `[]` <br>• otherwise `find` succeeds iff every element has a `node` lookup, and then returns each element's `node`, with the same length and order |
| `Resources.Client.FirstNeverReturns` | lib/malWrapper/api/anime.rb:60-61 | `first` never returns normally. When `find` succeeds it raises `TypeError`; otherwise it re-raises `find`'s error. |
| `Resources.Client.FirstRecordIsFirstNode` | lib/malWrapper/api/manga.rb:57-58 | The intended `first` fails exactly when `find` does, gives nil for an empty `data`, and otherwise gives the first element's `node`. |
| `Resources.Client.RankingIsFind` | lib/malWrapper/api/anime.rb:71-79 | `ranking` requests the same suffix as `find` and returns the same records, because `build_query` drops `separator`. |
| `Resources.Client.RankingSearch` | lib/malWrapper/api/manga.rb:68-76 | A ranking type without a digit is requested in the search shape `kind?q=type&limit=L&offset=O&fields=...`. |
| `Resources.Client.RequestsCarryKind` | lib/malWrapper/api/manga.rb:43 | `find` and `ranking` always build a request, and it starts with `prefix + kind`. |
| `Resources.Client.IdCarriesKind` | lib/malWrapper/api/manga.rb:28 | A request that `id` builds starts with `prefix + kind`. |
| `Resources.SearchScenario` | lib/malWrapper/api/anime.rb:43-50 | `find("Naruto", limit: 10, fields: ["title", "rank"])` on a base without a trailing slash requests `/anime?q=Naruto&limit=10&offset=0&fields=title,rank`. |
| `Resources.MangaRankingByPopularity` | lib/malWrapper/api/manga.rb:66-76 | `ranking("bypopularity", limit: 5)` on the manga client requests `prefix + "manga?q=bypopularity&limit=5&offset=0&fields="`, the search shape. |

## Findings

| source | as written | input that shows it | evidently intended | confidence | as-written member | corrected member |
|---|---|---|---|---|---|---|
| lib/malWrapper/api/anime.rb:61 | `first` (and its twin in `manga.rb`) indexes the Array that `find` returns with `"data"` | any query: either `find` raises, or its Array result raises `TypeError` on `["data"]` | the first record `find` returns | high, not executed | `Resources.Client.FirstNeverReturns` | `Resources.Client.FirstRecord` |

## Left out

- `Base#parse`: `RestClient.get` with `HEADERS` and `JSON.parse` are network I/O and foreign libraries. They are the function parameter `fetch`. The client-ID header constant carries no behaviour.
- Transport errors, HTTP status handling and JSON parse errors are not modelled. They are raised by the foreign libraries, not by this code.
- JSON floats, booleans and non-String Hash keys are not part of `Json`, since the extraction logic only distinguishes Hash, Array, String, Integer and nil.
- `Json` and the parameter `Hash` can hold a key twice, which no Ruby Hash can. Such values stand for no Ruby value: `JSON.parse` keeps the last duplicate, whereas `Get` and `Lookup` read the first.
- `transform_keys!(&:to_s)` is the identity in the model. A key is modelled by its name, so a Hash holding both `:type` and `"type"` is not represented. Every call site passes Symbol keys.
- `Text.Inspect` omits the escaping `Array#inspect` applies to quotes and control characters inside the elements. It is used only when a non-`fields` key holds an Array, which no call site does.
- `Api.BuildQuery` returns the caller's Hash after `select!` as the out-parameter `after`, rather than updating a shared object. Aliasing of that Hash by other references is not modelled.
- `Value` limits parameter values to Strings, Integers and Arrays of Strings, the only kinds any call site passes. A façade's `limit` and `offset` are typed `int`, and its `fields` is typed `seq<string>`.
- `Resources.Client.Search` is `find` by definition, because the source declares it with `alias search find`. It has no lemma of its own.
- `Resources.Client.FindNodes` is stated under the guard that `build_query` accepts the request. `FindRequest` shows that it always does for `find`.
