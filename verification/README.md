# go-form3 client core in Dafny

This project models the core of the `form3` Go package, a client for the Form3 account API.

- **Client construction.** `NewClient` parses a base URL and makes its path end in `/v1/`. `NewClientFromEnvironment` reads that URL from `FORM3_BASE_URL`.
- **Requests.** `Client.NewRequest` resolves a relative path against the base URL. It JSON-encodes an optional body and sets the `Accept` and `Content-Type` headers.
- **Sending.** `Client.Do` sends a request under a context and classifies the response: a 2xx status is a success, anything else an `ErrorResponse`. It decodes a 2xx body into an optional target and closes the body exactly once. `CheckResponse` and `ErrorResponse.Error` are modelled too.
- **Accounts.** `AccountsService` has four operations: `Create` (POST), `Fetch` (GET by id), `List` (GET one page) and `Delete` (DELETE one version). Each builds its path, calls `NewRequest` and then `Do`, and returns the decoded value, the response and the error in a fixed pattern.

Modules:

- `Wrappers`: `Option` and `Result`.
- `Text`: prefix and suffix tests, cutting at a character, Go's `%d` formatting with a parser as its inverse, and a query-parameter lookup used to read query strings back.
- `Urls`: a URL value and reference resolution as `net/url` does it. This is section 5.2.2 of RFC 3986, with the merge of section 5.2.3, for references without dot segments.
- `Form3`: `form3/form3.go`.
- `Accounts`: `form3/accounts.go`.

Things outside the program are parameters:

- `url.Parse` is `parse`, and `URL.Parse` is `resolve`. `resolve` is pinned to the modelled resolution by the requirement `ResolvesAsModelled`, which only covers the plain relative references this client builds (`Urls.ModelledReference`).
- The JSON encoder and decoders are functions. For the accounts they are gathered in an `AccountCodec`.
- The result of one exchange on the network is a `Transport` value: either a delivered status, content and read error, or a transport error.
- A `context.Context` is a `Context` value. It records whether the context is done before the request is sent, and whether it becomes done while the request is in flight.
- The environment is a map.

`HttpClient` keeps a log of the requests handed to `http.Client.Do`, one entry per call, so "nothing was sent" can be stated; redirects the HTTP client would follow are not modelled. Each received `Response` owns a `Body` object that counts its `Close` calls.

NewClient only checks the suffix of the base path, so `/v1/accounts` becomes `/v1/accounts/v1/`: the version segment is guaranteed at the end, not guaranteed to appear once (`Form3.NormalizedPathRepeatsV1`).

## Model

| member | source | states |
|---|---|---|
| Form3.NormalizedPath | form3/form3.go:163-168 | the base path a client keeps; its properties are the lemmas below |
| Form3.NormalizationSteps | form3/form3.go:163-168 | the two suffix steps of NewClient, applied in order, give `NormalizedPath` |
| Form3.NormalizedPathShape | form3/form3.go:163-168 | a normalised base path always ends in "/v1/" and keeps the configured path as a prefix |
| Form3.NormalizedPathFixed | form3/form3.go:163-168 | normalisation leaves a path unchanged if and only if it already ends in "/v1/" |
| Form3.NormalizedPathIdempotent | form3/form3.go:163-168 | normalising twice is the same as normalising once |
| Form3.NormalizedPathRooted | form3/form3.go:163-168 | an empty or rooted base path stays rooted |
| Form3.NormalizedPathRepeatsV1 | form3/form3.go:166-168 | only the suffix is checked, so "/v1/accounts" becomes "/v1/accounts/v1/" |
| Form3.LocalhostBaseExample | form3/form3.go:154-176 | the base URL http://localhost becomes http://localhost/v1/ |
| Form3.LocalhostRequestExample | form3/form3.go:87-88 | against that base, the path "test" resolves to the path /v1/test |
| Form3.LocalhostRequestString | form3/form3.go:101 | that URL renders as http://localhost/v1/test |
| Form3.TestReference | form3/form3.go:82-88 | "test" is a plain relative reference without a query |
| Form3.NewClient | form3/form3.go:154-176 | a parse error is returned unchanged; otherwise a fresh client holds the given HTTP client (the default one when nil) and the parsed URL with its path normalised |
| Form3.NewClientFromEnvironment | form3/form3.go:181-188 | a missing FORM3_BASE_URL gives the fixed configuration error; otherwise the result is NewClient on its value with the default HTTP client |
| Form3.Client.constructor | form3/form3.go:170-173 | the client holds exactly the given HTTP client and base URL |
| Form3.Client.NewRequest | form3/form3.go:87-111 | errors in order (resolution, then encoding, then an invalid method) each give no request and that error; otherwise a fresh request with the resolved URL, the method ("" read as GET), the encoded body, Accept always and Content-Type exactly when there is a body |
| Form3.RequestMethod | form3/form3.go:101 | the method http.NewRequest uses: an empty one is read as GET |
| Form3.ValidMethod | form3/form3.go:101-104 | the method check of http.NewRequest: non-empty and made of token characters only |
| Form3.JsonHeaders | form3/form3.go:106-109 | Accept is always application/json, Content-Type is present if and only if there is a body, and no other header is set |
| Form3.Request.SetHeader | form3/form3.go:107 | sets one header and leaves the others unchanged |
| Form3.Request.constructor | form3/form3.go:101 | a request with the given method, URL and body and no headers |
| Form3.HttpClient.constructor | form3/form3.go:156 | an HTTP client that has sent nothing |
| Form3.HttpClient.Send | form3/form3.go:51 | exactly one request is appended to the log; a delivered outcome gives a fresh, unclosed body with that content and read error, a failed one gives no response |
| Form3.Body.constructor | form3/form3.go:51 | a body with the given content and read error, not yet closed |
| Form3.Body.Close | form3/form3.go:63-67 | a close adds one to the body's close count |
| Form3.Target.constructor | form3/accounts.go:71 | an empty decoding target |
| Form3.Client.Do | form3/form3.go:41-80 | a nil context sends nothing and gives "context should not be nil"; a context done before the call sends nothing and gives ctx.Err(); otherwise exactly one request is handed to the HTTP client, and a transport error gives way to ctx.Err() when the context is done; a received body is closed exactly once, a non-2xx status gives its ErrorResponse and decodes nothing, and a 2xx body is decoded only into a target; the target is untouched on every error |
| Form3.Client.DoAsWritten | form3/form3.go:45-80 | as Do for a nil context, for a transport error and for a received response (one close, the same settlement, the target untouched on every error), except that a context done before the call is not checked: a non-nil context always leads to one request on the wire |
| Form3.Settled | form3/form3.go:69-79 | how a received response settles Do's result: a non-2xx status gives its ErrorResponse and no value, a 2xx status without a target gives no error, and with a target the decoded value or the decoder's error |
| Form3.Exchanged | form3/form3.go:45-80 | the specification of one call of Do: what is sent, what comes back and what is decoded, for every context and transport outcome |
| Form3.Receive | form3/form3.go:63-79 | the body is closed exactly once on every path; the result is settled by status, target and decoder as in Do |
| Form3.CheckResponse | form3/form3.go:118-133 | no error if and only if the status is in 200..299; otherwise an ErrorResponse for this very response whose message follows `ErrorMessageOf` |
| Form3.ErrorMessageOf | form3/form3.go:123-130 | the message of an ErrorResponse: empty for an unreadable or empty body, the decoded error_message for a JSON body, the raw body otherwise |
| Form3.ErrorMessageFromBody | form3/form3.go:123-130 | an error message is empty, the raw body, or what the body decodes to, and never anything else |
| Form3.ErrorString | form3/form3.go:142-146 | the text starts with the request method and a space, and ends with the request URL, ": ", the status in decimal, a space and the error message |
| Form3.ErrorStringStatus | form3/form3.go:143-145 | the status can be read back from the text: two errors for the same method, URL and message have the same text only when their statuses are equal |
| Form3.CancelledContextIgnoredAsWritten | form3/form3.go:49 | as written, a context cancelled before the call, with a server answering 200, still sends the request and returns success |
| Form3.CancelledContextHonoured | form3/form3.go:43-44 | with the context bound to the request, the same call sends nothing and returns the cancellation error |
| Urls.SplitReference | form3/form3.go:88 | a reference is split at its first '?': the path has no '?', and the query is present exactly when the reference contains '?' |
| Urls.Resolve | form3/form3.go:88 | URL.Parse of a relative reference without dot segments, scheme, authority or fragment: scheme and host from the base, an empty path keeps the base path (and its query unless the reference has one), a rooted path replaces it, any other is merged |
| Urls.Merge | form3/form3.go:88 | the merge of section 5.2.3 of RFC 3986: "/" and the reference for a base with a host and an empty path, otherwise the base's directory and the reference |
| Urls.Directory | form3/form3.go:88 | the directory of a path is its longest prefix that is empty or ends in '/': nothing after it contains '/' |
| Urls.ResolveUnderDirectory | form3/form3.go:82-88 | a plain relative reference resolved against a rooted base path ending in '/' gives the base path followed by the reference's path, with the reference's query |
| Text.IndexOf | form3/form3.go:88 | the index of the first occurrence of a character, or the length when it does not occur |
| Text.FormatInt | form3/accounts.go:99 | the %d verb: a minus sign for negative values, then the decimal digits without leading zeros |
| Text.ParseInt | form3/accounts.go:99 | reads an optionally signed decimal integer back, as a server reads a query parameter; the inverse of FormatInt |
| Text.QueryValue | form3/accounts.go:99 | the value of the first field with a given key in a query string, as url.Values.Get finds it (no percent-decoding) |
| Text.DigitsRoundTrip | form3/accounts.go:99 | reading the decimal digits of a natural number gives the number back |
| Text.FormatIntRoundTrip | form3/accounts.go:99 | Go's %d text of any integer, negative ones included, parses back to that integer |
| Text.FormatIntInjective | form3/accounts.go:116 | different integers have different %d texts, so different versions give different paths |
| Text.FormatIntChars | form3/accounts.go:116 | %d text consists of digits and '-' only |
| Accounts.AccountsPathPlain | form3/accounts.go:11 | the collection path is relative, has no '?', no URL delimiters and no dot segments |
| Accounts.AccountPath | form3/accounts.go:82 | Fetch's path: the collection path, '/', and the id as given |
| Accounts.AccountPathReference | form3/accounts.go:82 | for an id that is one plain segment, Fetch's path is a plain reference without a query |
| Accounts.AccountURL | form3/accounts.go:82-83 | Fetch's URL path is the base path followed by organisation/accounts/ and the id |
| Accounts.ListQuery | form3/accounts.go:99 | the page query: page[number] and page[size] in decimal, unchecked |
| Accounts.ListPath | form3/accounts.go:99 | List's path: the collection path, '?', and the page query |
| Accounts.ListPathReference | form3/accounts.go:99 | List's path is always a plain reference: the collection path with the page query |
| Accounts.ListURL | form3/accounts.go:99-100 | List's URL path is the base path followed by organisation/accounts, with the page query |
| Accounts.ListQueryParameters | form3/accounts.go:99 | page[number] and page[size] read back from List's query as the decimal text of, and the very integers, passed in |
| Accounts.ListZeroExample | form3/accounts.go:99 | page 0 of size 0 gives the query page[number]=0&page[size]=0 after organisation/accounts?, with no bounds check |
| Accounts.DeleteQuery | form3/accounts.go:116 | the version query in decimal |
| Accounts.DeletePath | form3/accounts.go:116 | Delete's path: the account path, '?', and the version query |
| Accounts.DeletePathReference | form3/accounts.go:116 | for an id that is one plain segment, Delete's path is the account path with the version query |
| Accounts.DeleteURL | form3/accounts.go:116-117 | Delete's URL path is the base path followed by organisation/accounts/ and the id, with the version query |
| Accounts.DeleteQueryParameter | form3/accounts.go:116 | version reads back from Delete's query as the decimal text of, and the very integer, passed in |
| Accounts.AccountsService.constructor | form3/form3.go:174 | the service holds the given client |
| Accounts.AccountsService.Create | form3/accounts.go:65-78 | a request error gives no account, no response and that error, and sends nothing; otherwise one POST of the encoded account with both JSON headers, and the account, response and error are as in the corrected Do (`Exchanged`); with a codec that round-trips and a live context, a 2xx echo of the sent body returns the account created |
| Accounts.AccountsService.Fetch | form3/accounts.go:81-95 | a request error gives no account, no response and that error, and sends nothing; otherwise one GET of the account's URL with only Accept set, and the result is as in the corrected Do (`Exchanged`) |
| Accounts.AccountsService.List | form3/accounts.go:98-112 | a request error gives no list, no response and that error, and sends nothing; otherwise one GET of the page URL, and the list, response and error are as in the corrected Do (`Exchanged`) |
| Accounts.AccountsService.Delete | form3/accounts.go:115-122 | a request error gives no response and that error, and sends nothing; otherwise one DELETE of the versioned URL, with nothing decoded, and the response and error are those of the corrected Do (`Exchanged`) |

## Left out

- JSON: encoding and decoding are abstract functions. Field names, `omitempty` and the decoding of an error body's `error_message` are not modelled. A decode that fails partway and leaves a partly filled target is not modelled: the target keeps its old value on error.
- A JSON `null` body is not modelled. For `List` it would set the list pointer to nil, because `List` passes `&acc`, and the call would return nil with no error.
- `net/url`: only relative references without `#`, `%`, `:`, control characters, a leading `/` or dot segments, resolved against a base path without dot segments, are pinned down. A base such as `http://h/a/..` (kept by NewClient as `/a/../v1/`) is not: net/url removes the dot segments of the merged path, base included, and `resolve` is left unconstrained for it. The model does not cover escaping, fragments, user information, absolute references, or the dot-segment removal of section 5.2.4 of RFC 3986. Fetch and Delete ids outside `Accounts.PlainId` are allowed but not described.
- `http.NewRequest` re-parsing the resolved URL is not modelled. Of its checks only method validity is kept, using the token characters of section 3.2.6 of RFC 7230.
- The network, connection reuse and timing are a given `Transport` outcome. Cancellation is two booleans: done before the call, and done while it is in flight.
- Reading the body is not modelled as consuming a stream: `CheckResponse` and the decoder see the whole content.
- The warning logged when closing a body fails: `Close` is modelled as always succeeding.
- The `Client.Accounts` back-reference is not a field. `AccountsService` is built from a client instead, because a field would make the two modules refer to each other.
- `Create` called with a nil `*Account` is not modelled: JSON would encode it as `null`.
- Go's `int` is 64 bits wide. Page numbers, page sizes, versions and status codes are unbounded integers here.
- `http.DefaultClient` is a parameter, not a global.
- Form3.HttpClient.Send: redirects are not modelled. `http.Client` follows a 301, 302 or 303 answer with a further request (a POST or DELETE becoming a GET) and returns the response of the last request, whose `Request` is that last request. Here the log holds only the one request handed to `http.Client.Do`, and `resp.request` is that request, so `ErrorResponse.Error` always shows the original method and URL.
- Form3.CheckResponse: the JSON error body is unmarshalled into the whole `ErrorResponse` (form3/form3.go:126), whose `Response` field has no json tag. A body that is a JSON object with a "response" key can therefore set that field to nil (making `Error()` dereference nil) or rewrite the `http.Response` it points to, such as its status code. The model's `unmarshal` yields only the message, so the error always refers to the unchanged response `r`, and `Client.Do` and `Exchanged` report the received status.
- Accounts.AccountsService.Create: built on the corrected `Client.Do`. As written, `Create` inherits the defect of form3/form3.go:49 (see Findings): a context done before the call does not stop the POST, and the decoded account comes back as `Client.DoAsWritten` states.
- Accounts.AccountsService.Fetch: built on the corrected `Client.Do`; as written, a context done before the call does not stop the GET (`Client.DoAsWritten`).
- Accounts.AccountsService.List: built on the corrected `Client.Do`; as written, a context done before the call does not stop the GET (`Client.DoAsWritten`).
- Accounts.AccountsService.Delete: built on the corrected `Client.Do`; as written, a context done before the call does not stop the DELETE (`Client.DoAsWritten`).

## Findings

| source | as written | input that shows it | evidently intended | confidence | as-written member | corrected member |
|---|---|---|---|---|---|---|
| form3/form3.go:49 | `req.WithContext(ctx)` returns a new request and the result is discarded, so the request that is sent carries no context | a context cancelled before `Do`, with a server answering 200: the request is sent and `(resp, nil)` comes back | a cancelled context stops the call and `ctx.Err()` is returned (lines 43-44) | not executed | Form3.Client.DoAsWritten, Form3.CancelledContextIgnoredAsWritten | Form3.Client.Do, Form3.CancelledContextHonoured |
