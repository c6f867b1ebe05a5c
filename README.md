# branch-filter, modelled in Dafny

branch-filter is a small HTTP server that sits in front of a webhook consumer.
It receives a git provider's webhook, parses it with the go-scm library for the
configured provider, and answers the request only when the webhook is a pull
request whose target branch is on an allow-list. It answers by echoing every
request header and the request body, status 200. It writes nothing for a pull
request into any other branch. It answers 500 for a webhook it cannot read,
parse or recognise as a pull request. Requests other than POST are ignored.

The model covers `pkg/branchfilter/http.go`:

- `results.dfy` (module `Results`): the `Option` and `Result` wrappers.
- `go_strings.dfy` (module `GoStrings`): the parts of Go's `strings` package
  the filter depends on.
  - `Split` on a one-character separator, keeping empty pieces. It is proved
    against `Join` both ways, against the separator count, and against a
    positional definition of a field: a separator-free stretch bounded by the
    ends of the string or by separators.
  - `ToLower`, restricted to ASCII letters. It is proved against a separate
    definition of case-insensitive equality: two strings of the same length
    whose characters are equal or are the two cases of one ASCII letter.
- `net_http.dfy` (module `NetHttp`): the parts of `net/http` the handler
  touches.
  - The multi-valued `Header` map and `Header.Add`.
  - The response as a value: an optional status where the first write wins
    and a body write implies 200, headers, and body bytes.
  - The `ResponseWriter` class that holds a response and is changed in place.
  - The `Request` class, whose body the handler replaces.
- `branch_filter.dfy` (module `BranchFilter`): the filter itself.
  - Provider resolution (`getGitClient`).
  - The allow-list (`NewBranchFilterServeMux`).
  - The server class with its two handlers.
  - Specification functions for what a request does to the response, and the
    lemmas relating them to the request's verdict.

The settings that the Go code reads from the environment (`GIT_PROVIDER`,
`GIT_URL`, `ALLOWED_BRANCHES`) are parameters. The go-scm library is foreign
code, so two of its pieces become parameters too:

- the webhook parser, a function from the client and the request to the parse
  outcome;
- a driver's `New(url)` constructor, a function that accepts the URL or fails
  with an error.

`NewDefault()` cannot fail, so it needs no parameter.

## Model

| member | source | states |
|---|---|---|
| `GoStrings.IndexOf` | pkg/branchfilter/http.go:47 | the first position of the separator, or -1 exactly when it does not occur |
| `GoStrings.Split` | pkg/branchfilter/http.go:47 | `strings.Split` yields at least one piece, and no piece contains the separator |
| `GoStrings.SplitCount` | pkg/branchfilter/http.go:47 | there is one more piece than there are separators in the input |
| `GoStrings.JoinSplit` | pkg/branchfilter/http.go:47 | joining the pieces with the separator gives back the input, so no character is lost |
| `GoStrings.SplitJoin` | pkg/branchfilter/http.go:47 | splitting the join of separator-free pieces gives back those pieces: the decomposition is unique |
| `GoStrings.JoinPieceAt` | pkg/branchfilter/http.go:47 | every piece of a join sits in it at a position bounded by separators or the ends |
| `GoStrings.FieldsAreSplitPieces` | pkg/branchfilter/http.go:47 | every separator-free stretch bounded by separators or the ends is a piece of the split |
| `GoStrings.SplitIsFields` | pkg/branchfilter/http.go:47 | a string is a piece of the split exactly when it is a field of the input |
| `GoStrings.LowerChar` | pkg/branchfilter/http.go:126 | an upper-case ASCII letter becomes the same letter in lower case, and every other character is kept |
| `GoStrings.ToLower` | pkg/branchfilter/http.go:126 | lower-casing keeps the length and maps each character on its own |
| `GoStrings.LowerCharIffCaseEq` | pkg/branchfilter/http.go:126 | two characters lower-case alike exactly when they are equal or the two cases of one letter |
| `GoStrings.ToLowerIffAsciiEqualFold` | pkg/branchfilter/http.go:126 | two strings lower-case to the same string exactly when, position by position, their characters are equal or the two cases of one letter |
| `GoStrings.ToLowerIdempotent` | pkg/branchfilter/http.go:126 | lower-casing an already lower-cased name changes nothing |
| `GoStrings.AsciiEqualFoldToLower` | pkg/branchfilter/http.go:126 | a provider setting matches its own lower-cased form up to case |
| `NetHttp.Add` | pkg/branchfilter/http.go:116 | `Header.Add` appends one value to one name and leaves every other name alone |
| `NetHttp.AddValues` | pkg/branchfilter/http.go:115-117 | adding a run of values appends them, in order, to that one name |
| `NetHttp.AddValuesSnoc` | pkg/branchfilter/http.go:115-117 | one more `Add` in the inner loop extends the appended run by exactly that value |
| `NetHttp.Merge` | pkg/branchfilter/http.go:114-119 | after copying, each name holds its earlier values followed by all the request's values |
| `NetHttp.MergeNothing` | pkg/branchfilter/http.go:114 | before the outer loop has visited any name, the response headers are unchanged |
| `NetHttp.MergeOneMore` | pkg/branchfilter/http.go:114-119 | one outer-loop pass copies exactly one more name's values into the response |
| `NetHttp.MergeIntoEmpty` | pkg/branchfilter/http.go:114-119 | copied into an empty header, the request headers come back value for value; a name without values is dropped |
| `NetHttp.Response.WriteHeader` | pkg/branchfilter/http.go:84 | after a status write a status is set: the earlier one if there was one, else the code given; headers and body are untouched |
| `NetHttp.Response.Write` | pkg/branchfilter/http.go:120 | the bytes are appended to the body; the status becomes 200 only if none was set; headers are untouched |
| `NetHttp.Response.AddHeader` | pkg/branchfilter/http.go:116 | one value is appended to one name; other names, the status and the body are untouched |
| `NetHttp.Response.AddAll` | pkg/branchfilter/http.go:114-119 | each name gets the source's values after its own; the status and the body are untouched |
| `NetHttp.ResponseWriter.constructor` | pkg/branchfilter/http.go:81 | a response starts with no status, no headers and no body |
| `NetHttp.ResponseWriter.WriteHeader` | pkg/branchfilter/http.go:84 | the first status written wins; later calls change nothing |
| `NetHttp.ResponseWriter.Write` | pkg/branchfilter/http.go:120 | writing the body implies status 200 when none was written, and appends the bytes |
| `NetHttp.ResponseWriter.AddHeader` | pkg/branchfilter/http.go:116 | `w.Header().Add` appends one value and changes neither status nor body |
| `NetHttp.Request.constructor` | pkg/branchfilter/http.go:81 | a request carries its method, its headers and its body stream |
| `BranchFilter.ProviderFor` | pkg/branchfilter/http.go:126-149 | each driver is chosen exactly when the setting equals one of its aliases up to letter case. GitHub is chosen exactly when the setting matches none of the known names |
| `BranchFilter.NamedAsLowered` | pkg/branchfilter/http.go:126-129 | against lower-case aliases, matching up to case is the same as matching the lower-cased setting exactly |
| `BranchFilter.NewClient` | pkg/branchfilter/http.go:132 | `New(url)` gives a client on that URL exactly when the driver's constructor accepts it, and otherwise the constructor's error |
| `BranchFilter.GetGitClient` | pkg/branchfilter/http.go:124-150 | the provider comes from the lower-cased name. The endpoint is the default exactly for Bitbucket or GitHub with an empty URL, and is otherwise the URL as given. Resolution fails exactly when the URL had to be used and the driver's constructor failed, with that error |
| `BranchFilter.ProviderIgnoresCase` | pkg/branchfilter/http.go:126 | provider names that differ only in case select the same driver |
| `BranchFilter.DefaultEndpointNeverFails` | pkg/branchfilter/http.go:129-149 | Bitbucket and GitHub with no URL always get a client on the default endpoint |
| `BranchFilter.NewAllowedBranches` | pkg/branchfilter/http.go:41-50 | an empty setting fails with "no branches allowed". Otherwise the keys are exactly the pieces of the colon split, each mapped to "", and there is at least one |
| `BranchFilter.SplitTwoNames` | pkg/branchfilter/http.go:47 | `main:release` allows exactly `main` and `release` |
| `BranchFilter.SplitKeepsEmptyPieces` | pkg/branchfilter/http.go:47 | a doubled or trailing colon yields empty pieces, so the empty branch name is allowed |
| `BranchFilter.RelayedIffTargetIsField` | pkg/branchfilter/http.go:113 | a pull request is relayed exactly when its target is, letter for letter, a field of the setting, and dropped otherwise |
| `BranchFilter.PostResponse` | pkg/branchfilter/http.go:81-122 | as written. An earlier status is kept; otherwise a failed read or a failed parse leaves 500, a relay 200, and a dropped request no status. A relay appends the body bytes and every request header value after the existing ones. Anything else leaves headers and body alone |
| `BranchFilter.HandleResponse` | pkg/branchfilter/http.go:67-75 | a method other than POST leaves the response as it was. Headers and body change only on a relay, which appends exactly the bytes read |
| `BranchFilter.ResponseShowsVerdict` | pkg/branchfilter/http.go:67-122 | on a fresh response and a clean read, the response tells the verdict (see below) |
| `BranchFilter.NonPostIgnored` | pkg/branchfilter/http.go:69-74 | a method other than POST leaves the response exactly as it was |
| `BranchFilter.ParseFailureIs500` | pkg/branchfilter/http.go:88-111 | each of the four parse failures sets 500 and adds no header and no body |
| `BranchFilter.FilteredOutWritesNothing` | pkg/branchfilter/http.go:113-121 | a target outside the allow-list writes no status, no header and no body |
| `BranchFilter.ReadFailureStillRelays` | pkg/branchfilter/http.go:82-86 | as written: after a failed read, an allowed pull request is still relayed under the 500 |
| `BranchFilter.PostResponseIntended` | pkg/branchfilter/http.go:83-85 | with a return after the 500, a failed read adds no header and no body and leaves a 500 on a fresh response; every other request is answered as written |
| `BranchFilter.BranchFilterServeMux.constructor` | pkg/branchfilter/http.go:52-59 | the server keeps the client and the allow-list, and sets the `BindAddress` field to `localhost`, `Path` to `/` and `Port` to `8080` |
| `BranchFilter.BranchFilterServeMux.HandleWebHookRequests` | pkg/branchfilter/http.go:67-75 | POST is handled as by `HandlePost`; any other method changes neither the response nor the request body |
| `BranchFilter.BranchFilterServeMux.HandlePost` | pkg/branchfilter/http.go:81-122 | the response is the one `PostResponse` specifies; the parser and the relay see the same captured bytes; the request body is replaced by a clean stream of those bytes |
| `BranchFilter.AddEachValue` | pkg/branchfilter/http.go:115-117 | the inner loop appends every value of one name, in order, and touches nothing else |
| `BranchFilter.CopyHeaders` | pkg/branchfilter/http.go:114-119 | the outer loop, in any visiting order, adds every request header value to the response |
| `BranchFilter.NewBranchFilterServeMux` | pkg/branchfilter/http.go:34-64 | the client's error comes first, then the empty allow-list error. A server is returned exactly when neither occurs, and it is new, with that client and the split allow-list |

`ResponseShowsVerdict` states the verdict row by row:

- ignored or filtered out: the response is untouched;
- failed to parse: a bare 500;
- relayed: status 200, every request header value in order (names without
  values dropped), and the body byte for byte.

## Left out

- Reading the environment (`os.Getenv`): the three settings are parameters.
- The go-scm webhook parser: it is a function parameter. It is foreign code,
  and the webhook signature check it would run with `secretFunc` (a constant
  that always answers the empty secret) is not part of this model.
- The go-scm driver constructors: `New(url)` is a function parameter that may
  fail, and `NewDefault()` always succeeds.
- The `ServeMux` registration, `ListenAndServe` and all of `main.go`: this is
  process and transport plumbing with no decision in it.
- The never-assigned `URL` field of the server.
- What the `BindAddress` field is for: it is set to `localhost`, but nothing
  reads it, and the listener in `main.go` binds every interface on `Port`.
- Logging and the `reflect.TypeOf` diagnostics: they have no effect on the
  response.
- Concurrency between requests: the allow-list is read-only after
  construction.
- `GoStrings.LowerChar`, `GoStrings.ToLower`: only ASCII letters are mapped. Go's Unicode case
  mapping (for example the Kelvin sign lower-casing to `k`) is not modelled.
- `NetHttp.Add`: header names are taken as already canonical. The MIME
  canonicalisation inside `Header.Add` is not modelled.
- `NetHttp.ResponseWriter.AddHeader`: the model records the header map. It
  does not capture that Go sends only the headers present when the status is
  committed, nor the headers the server adds on its own.
- `NetHttp.ResponseWriter.WriteHeader`: Go's check that a status code lies in
  100-999 is not modelled; the handler only writes 500.
- `BranchFilter.BranchFilterServeMux.HandlePost`: the parser is a pure
  function of the request. The model does not capture that parsing consumes
  the replacement body stream.
- `BranchFilter.BranchFilterServeMux.HandlePost`: the model does not capture
  that the Go byte slice is shared between the replacement body and the
  relayed bytes. The model copies the sequence, which is observably the same
  here because nothing writes to it.
- A read error is a flag on the body stream: `Body.data` holds the bytes read
  before it.

## Findings

| source | as written | input that shows it | evidently intended | confidence | as-written member | corrected member |
|---|---|---|---|---|---|---|
| pkg/branchfilter/http.go:83-85 | a failed body read writes 500 but does not return, so the handler parses the bytes read so far and may relay them | a POST whose body stream fails after yielding bytes that parse as a pull request into an allowed branch: the response is a 500 carrying the partial body (the request header values enter the header map but are not sent, because the status was committed first) | return right after writing 500, so a failed read relays nothing | not executed | `BranchFilter.ReadFailureStillRelays` | `BranchFilter.PostResponseIntended` |
