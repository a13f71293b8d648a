# gozzmock expectation engine in Dafny

gozzmock is an HTTP mock server. Clients register *expectations*: a request
filter (method, path pattern, body pattern, header patterns), an action (a
canned response, possibly rendered by a JavaScript template, or a forward to
another host), a delay and a priority. Every other incoming request is answered
by the highest-priority expectation whose filter it passes, or with 501.

The repository holds three generations of this engine, and each one is modelled
here in the form its source takes:

- **Newest** (package `expectations`).
  - `Expectations` (expectations/expectations.go) holds the data model and the `gzStorage` rule table. The table is a class over a `map`, with upsert, remove, a priority-ordered snapshot and batch load.
  - `Filter` (expectations/filter.go) holds the matcher (`stringsMatch`, `headersMatch`, `expectationsMatch`) and the `GzFilter` dispatcher.
- **Older** (package `main`).
  - `Model` (model.go) holds the data model, in which headers sit behind pointers, so nil and empty differ. It also holds the post-decode loops of `ExpectationsFromString` and `ExpectationsFromJSONFile`.
  - `GzStore` (gzstorage.go) is the store keyed by a caller-given key.
  - `Controller` (controller.go) holds the `Storage` table, the filter with case-sensitive header names, the forward-request builder and the request translation. gzserver.go repeats the last three word for word, and its handlers use the definitions here.
  - `GzServer` (gzserver.go) holds the `add`, `remove` and `root` handlers. Each is modelled by the reply the client receives.
- **Shared.**
  - `PriorityOrder` covers `Less`/`Swap`, `sort.Sort` as an in-place selection sort, and the map-to-snapshot loop.
  - `Http` covers the request and response shapes, the header loops and `http.NewRequest`.
  - `Text` covers `strings.Contains`, `Join` and `EqualFold`.
  - `Generations` compares the newest matcher with the oldest one.

Modelling choices:

- **Forward actions.** `ExpectationForward` is a class in both data models. The Go code normalises `Forward.Scheme` through a pointer shared by value copies of an expectation, and a class reproduces that sharing.
- **Map iteration.** Loops over Go maps pick their next key with `:|`, since iteration order is unspecified. Where the order can change the answer, the contract brackets every possible outcome:
  - `findInMapCaseInsensitive`, when two request header names fold to the same name;
  - `Header.Set`, when two names canonicalise alike;
  - `GetExpectationsStructure`, when two rules share a `Key`.
- **Library routines** are function-valued parameters or fields, and nothing about them is assumed beyond their signatures. These are:
  - `regexp.Compile`/`MatchString`;
  - `url.Parse` acceptance;
  - `http.CanonicalHeaderKey`;
  - `http.NewRequest`'s method check;
  - base64 decoding;
  - the script engine;
  - the transport.
- **Panics.** An operation that can panic returns a value with a panic alternative: `Filter.Outcome.Panic`, `Model.Returned.Panicked` or `GzServer.Reply.Panic`. A zerolog `Panic()` event panics only when it is sent, which happens at `.Msg`. The model follows each call site accordingly: `.Err(err)` alone only logs.
- **Defects reproduced.**
  - `responseFromExpectation` assigns into a nil header map, so it panics whenever the response action has headers (expectations/filter.go:125-129).
  - `gzStorage.init` has no effect (gzstorage.go:21-23).
  - The script decoder's error message shows the empty decoded text instead of the template (jstemplate.go:14).

## Model

| member | source | states |
|---|---|---|
| PriorityOrder.LessIsStrictWeakOrder | expectations/expectations.go:144 | "higher priority first" is irreflexive and transitive, and so is incomparability, as `sort.Sort` requires (the same code recurs at model.go:70 and gzstorage.go:57) |
| PriorityOrder.Swap | expectations/expectations.go:143 | entries i and j are exchanged, every other entry is unchanged, and the multiset of entries is preserved (the same code recurs at model.go:69 and gzstorage.go:56) |
| PriorityOrder.Sort | expectations/expectations.go:157 | after sorting, no later entry has a higher priority than an earlier one, and the entries are a permutation of the input |
| PriorityOrder.Collect | expectations/expectations.go:149-156 | the counter loop copies every stored value once per key into indices 0..n-1 |
| PriorityOrder.Snapshot | expectations/expectations.go:148-159 | the snapshot has exactly one entry per stored key (dense indices 0..n-1), its multiset is the stored values, and priorities do not increase |
| PriorityOrder.ValuesMembers | expectations/expectations.go:152-155 | a value is in the snapshot's multiset iff it is stored under some key, and the multiset has one element per key |
| PriorityOrder.FirstHasHighestPriority | expectations/filter.go:71-79 | in a sorted snapshot, nothing at or after position i outranks the entry at i |
| PriorityOrder.FirstMatchIsHighest | expectations/filter.go:71-79 | a scan that stops at the first matching entry stops at a stored rule, and no stored matching rule has higher priority |
| PriorityOrder.NoMatchInSnapshot | expectations/filter.go:82-87 | a scan that finds no match means no stored rule matches |
| Text.ContainsInfix | expectations/filter.go:219 | a string contains every infix of it (the literal fallback of the pattern test) |
| Text.SplitJoin | expectations/expectations.go:182 | joining separator-free parts with a separator and splitting again gives the parts back |
| Text.EqualFoldIsEquivalence | expectations/filter.go:227 | case-insensitive name equality is reflexive, symmetric and transitive |
| Http.PathWithFragmentRoundTrip | expectations/expectations.go:165-169 | the translated path splits back into the request URI and the fragment: `"#" + fragment` is appended only when the fragment is non-empty |
| Http.Joined | expectations/expectations.go:179-184 | the flattened header has exactly the names of the request header |
| Http.FlattenHeader | expectations/expectations.go:179-184 | the header loop yields every name with its values joined by `","` (the same code recurs at controller.go:77-83 and gzserver.go:199-205) |
| Http.JoinedRoundTrip | expectations/expectations.go:182 | when no header value contains a comma, the joined value splits back into the original value list |
| Http.SetHeaders | expectations/filter.go:299-303 | after the `Header.Set` loop, a canonical name is present iff some source name canonicalises to it, and its value is that name's value; other names keep their old values |
| Http.SetForwardHeaders | expectations/filter.go:305-314 | forward headers other than the exact name `Host` are `Set`; a `Host` entry sets only the target host, and the URL's host stays otherwise |
| Http.ForwardHeadersWin | expectations/filter.go:299-314 | after both loops, a canonical name named by a forward header carries the forward value, and otherwise the request's value |
| Http.SetHeadersDeterministic | expectations/filter.go:299-303 | when no two source names canonicalise alike, each name's value lands under its canonical name whatever the map order |
| Http.NewRequest | expectations/filter.go:293-297 | `http.NewRequest` succeeds iff the method (an empty one meaning GET) is valid, and then has the URL, the body, an empty header and the URL's host |
| Http.BuildForwardRequest | expectations/filter.go:287-314 | nil exactly when `http.NewRequest` fails; otherwise the URL is `scheme://host` + path, and the method, body, headers and host are as `IsForwardRequest` states |
| Http.DefaultScheme | expectations/expectations.go:59-63 | the scheme after normalisation is never empty and a non-empty scheme is kept (the same code recurs at model.go:114-118) |
| Http.DefaultSchemeIdempotent | expectations/expectations.go:59-63 | normalising twice equals normalising once |
| Expectations.SetDefaultValues | expectations/expectations.go:59-63 | through the pointer, an empty forward scheme becomes `"http"`; host and headers are unchanged; nothing happens without a forward action |
| Expectations.AddAllKeys | expectations/expectations.go:119-122 | a batch load adds exactly the keys of its elements |
| Expectations.AddAllLastWins | expectations/expectations.go:119-122 | within a batch, the last element with a given key is what the store holds |
| Expectations.AddAllKeepsOthers | expectations/expectations.go:119-122 | keys the batch does not mention keep their old rule |
| Expectations.GzStorage.constructor | expectations/expectations.go:81-83 | a new store is empty |
| Expectations.GzStorage.Add | expectations/expectations.go:86-90 | the store maps `exp.Key` to `exp`, every other key is unchanged, and the size grows by at most one |
| Expectations.GzStorage.Remove | expectations/expectations.go:127-137 | exactly `key` is deleted when present; otherwise the store is unchanged |
| Expectations.GzStorage.GetOrdered | expectations/expectations.go:148-159 | a dense, priority-descending permutation of the stored rules, one per key, with the store left as it was |
| Expectations.GzStorage.AddFromString | expectations/expectations.go:112-124 | a decoding error is returned and the store is unchanged; otherwise each element is normalised and added in array order (the store becomes `AddAll`) |
| Expectations.GzStorage.AddFromJSON | expectations/expectations.go:93-109 | a read or decoding error is returned and the store is unchanged; otherwise it behaves as `AddFromString` |
| Expectations.HttpRequestToExpectationRequest | expectations/expectations.go:162-187 | a body read error is returned; otherwise the result has the method, the URI with its fragment, the body, and the comma-joined headers |
| Expectations.HttpRequestToExpectation | expectations/expectations.go:202-211 | a decoding error is returned. Otherwise the decoded rule is returned with its forward scheme normalised and the forward's host and headers unchanged |
| Filter.ReportError | expectations/filter.go:111-116 | status 500 with body `Gozzmock. Something went wrong` |
| Filter.NoMatch | expectations/filter.go:83-87 | status 501 with body `No expectations in gozzmock for request!` |
| Filter.StringsMatch | expectations/filter.go:212-222 | an empty pattern matches every string. A pattern that does not compile matches exactly the strings that contain it |
| Filter.StringsMatchLiteralFallback | expectations/filter.go:212-222 | a pattern that does not compile matches any string it occurs in |
| Filter.FindInMapCaseInsensitive | expectations/filter.go:225-233 | found iff some name equals the key under case folding, and the value belongs to such a name; not found gives `""` |
| Filter.HeadersMatch | expectations/filter.go:236-249 | empty expected headers match; every expected name surely found (case-insensitively) with a matching value implies a match; a match implies each expected name has some fold-equal request header with a matching value |
| Filter.HeaderMatchDeterministic | expectations/filter.go:225-249 | when request header names are distinct under case folding, the possible and the sure header verdicts coincide |
| Filter.HeaderNameCaseIgnored | expectations/filter.go:241-245 | a filter on `h1` is met by a request header `H1` whose value matches |
| Filter.ExpectationsMatch | expectations/filter.go:252-281 | a nil filter matches; otherwise the verdict is bounded by method equality (when given), the path and body pattern tests, and the header test |
| Filter.RunJsTemplate | expectations/filter.go:149-168 | an empty script gives `""`; a decoding failure is an error starting with `Error decoding from base64 template `; a run failure is an error starting with `Error running template `; otherwise the script's output |
| Filter.ResponseFromExpectation | expectations/filter.go:118-146 | it panics iff the action has headers; otherwise the status and literal body, or with a script its output, or 500 with the error text when the script fails |
| Filter.TemplateOverridesBody | expectations/filter.go:132-143 | with a script present the literal body has no influence on the response |
| Filter.ToCustomHttpResponse | expectations/filter.go:319-336 | a body read error is returned; otherwise the status and body pass through and each header name maps to its values joined by `","` |
| Filter.ForwardedResponsePassesThrough | expectations/filter.go:319-336 | a delivered answer with a readable body reaches the caller with its status, body, and each header's value list recoverable |
| Filter.GzFilter.constructor | expectations/filter.go:37-42 | the filter holds the given store and transport |
| Filter.GzFilter.DoHTTPRequest | expectations/filter.go:170-209 | a transport error gives `reportError`; a nil response or an unreadable body panics; otherwise the flattened response |
| Filter.GzFilter.ResponseFromHTTPForward | expectations/filter.go:284-317 | an unparsable URL panics; a failing `http.NewRequest` gives nil; otherwise the answer to the outbound request that `IsForwardRequest` describes |
| Filter.GzFilter.ApplyExpectation | expectations/filter.go:90-109 | the response action if present, else the forward action, else nil |
| Filter.FirstMatching | expectations/filter.go:71-79 | the scan returns the first index whose rule `expectationsMatch` accepts (it possibly matches), every rule before it surely fails, and `n` when none is accepted |
| Filter.GzFilter.Apply | expectations/filter.go:64-88 | an unreadable body gives `reportError`. The chosen rule is stored, its filter may match, it is dispatched, and no surely matching stored rule outranks it. With no rule chosen the answer is 501 and no stored rule surely matches. When no stored rule can match, the answer is 501. Otherwise the answer is 501 or is dispatched from some stored rule that may match |
| Model.ExpectationSetDefaultValues | model.go:114-118 | through the pointer, an empty forward scheme becomes `"http"`; host and headers are unchanged |
| Model.ExpectationsFromString | model.go:79-91 | a decoding error panics; otherwise the decoded array comes back with the same length and order. Every forward object is normalised, so every returned element with a forward action has a non-empty scheme |
| Model.ExpectationsFromJSONFile | model.go:94-111 | a read or decoding error panics; otherwise it behaves as `ExpectationsFromString` |
| GzStore.GzStorage.constructor | gzstorage.go:16-19 | a new store is empty |
| GzStore.GzStorage.Init | gzstorage.go:21-23 | the store is left exactly as it was |
| GzStore.GzStorage.Add | gzstorage.go:26-33 | the store maps the argument key (not `exp.Key`) to `exp`, other keys are unchanged, and the size grows by at most one |
| GzStore.GzStorage.Remove | gzstorage.go:36-50 | exactly `key` is deleted when present; otherwise the store is unchanged |
| GzStore.GzStorage.GetOrdered | gzstorage.go:61-76 | a dense, priority-descending permutation of the stored rules (empty for an empty store), with the store left as it was |
| Controller.Storage.constructor | controller.go:18-20 | a new store is empty |
| Controller.Storage.GetExpectationsStructure | controller.go:31-39 | the result's keys are exactly the stored rules' own keys, each mapping to a stored rule with that key; when every rule is stored under its own key, the result equals the store |
| Controller.Storage.AddExpectation | controller.go:42-46 | the store maps `key` to `exp`, and every other key is unchanged |
| Controller.Storage.RemoveExpectation | controller.go:49-59 | exactly `key` is deleted when present; otherwise the store is unchanged |
| Controller.Storage.GetExpectationsOrderedByPriority | controller.go:63-74 | a dense, priority-descending permutation of the stored rules |
| Controller.ControllerStringPassesFilter | controller.go:111-117 | a filter that does not compile passes exactly the strings that contain it. An empty filter has no special case: it passes what the engine's `(?s)` matches, or everything when `(?s)` does not compile (the same code recurs at gzserver.go:109-115) |
| Controller.HeadersPass | controller.go:143-158 | an empty filter map still demands request headers. A passing request sends every filter name under that exact name |
| Controller.ControllerRequestPassesFilter | controller.go:120-162 | a nil filter passes everything. A passing request has the filter's method when one is given, and sends headers under every filter header name |
| Controller.LiteralFallback | controller.go:111-117 | a filter that does not compile passes any string it occurs in (the same code recurs at gzserver.go:109-115) |
| Controller.EmptyFilterPassesAll | controller.go:128-141 | empty method, path and body filters and nil headers constrain nothing (the same code recurs at gzserver.go:126-139) |
| Controller.HeadersFilterNeedsRequestHeaders | controller.go:143-147 | a filter with a header map, even an empty one, rejects a request without headers (the same code recurs at gzserver.go:141-145) |
| Controller.HeaderNamesCaseSensitive | controller.go:148-153 | a filter naming a header that the request does not send under that exact name rejects the request, whatever other spellings the request sends (the same code recurs at gzserver.go:146-151) |
| Controller.ExtraHeadersIgnored | controller.go:148-157 | request headers the filter does not name do not change the verdict |
| Controller.ControllerCreateHTTPRequest | controller.go:165-198 | nil iff the URL does not parse or `http.NewRequest` fails; otherwise the URL is `scheme://host` + path, the method is copied, forward headers overwrite request headers, and a forward `Host` sets only the target host (the same code recurs at gzserver.go:163-196) |
| Controller.ControllerTranslateRequestToExpectation | controller.go:86-108 | the method; the URI plus `"#" + fragment` only when the fragment is non-empty; the body, or `""` when it cannot be read; nil headers when there are none, else comma-joined values (the same code recurs at gzserver.go:208-230) |
| GzServer.HttpError | gzserver.go:323 | `http.Error` writes the given status (panicking on an invalid one) and the text followed by a newline |
| GzServer.ReportError | gzserver.go:322-324 | status 500 with `Gozzmock. Something went wrong` and a newline |
| GzServer.JsTemplateCreateResponseBody | jstemplate.go:11-25 | when decoding and running succeed, the body is the script's output |
| GzServer.DecodeErrorOmitsTemplate | jstemplate.go:12-15 | on a decoding failure the error text shows an empty string where the template belongs |
| GzServer.TemplateOverridesBody | gzserver.go:339-348 | with a script present the literal body is never written |
| GzServer.TemplateErrorAnswers500 | gzserver.go:340-347 | a script failure answers 500 with the error text, whatever the rule's status and body |
| GzServer.CreateResponseFromExpectation | gzserver.go:326-351 | the rule's headers are `Set`, then the reply follows `ResponseReply` |
| GzServer.GzServer.constructor | gzserver.go:28-31 | the server holds the given store and transport |
| GzServer.GzServer.Add | gzserver.go:33-54 | a non-POST method panics; a decoding error gives `reportError` with the store unchanged; otherwise the rule is normalised, stored under its own key, and acknowledged. Normalising changes only the forward scheme. A non-POST call leaves the forward untouched |
| GzServer.GzServer.Remove | gzserver.go:57-77 | a non-POST method panics; a decoding error gives `reportError`; otherwise the decoded key is removed and the removal acknowledged |
| GzServer.GzServer.DoHTTPRequest | gzserver.go:276-320 | a nil request panics; a transport error gives `reportError`; otherwise the answer's headers, status and body are written |
| GzServer.GzServer.ApplyExpectation | gzserver.go:254-274 | the response action if present, else the forward action (a request that cannot be built panics downstream), else an empty 200 |
| GzServer.FirstPassing | gzserver.go:238-247 | the scan returns the first index whose rule the request passes, every rule before it fails, and `n` when none passes |
| GzServer.GzServer.Root | gzserver.go:233-252 | the chosen rule is stored, passes the filter, is dispatched, and no passing stored rule outranks it; with none chosen the reply is 501 with `No expectations in gozzmock for request!` and no stored rule passes. When no stored rule passes, the reply is that 501. Every reply is that 501 or is dispatched from some stored rule that passes |
| Generations.StringTestsAgree | expectations/filter.go:212-222 | the newest pattern test equals `ControllerStringPassesFilter` whenever the engine's empty expression matches everything |
| Generations.HeaderCaseDiffers | expectations/filter.go:242 | take two different spellings of one header name under case folding, and a filter on one spelling whose pattern accepts the value of a request sending only the other. The newest matcher accepts it and the oldest rejects it |

## Left out

- Locking. The `sync.RWMutex` locking is left out: every operation runs alone.
- Delay. The `time.Sleep` delay in both `applyExpectation`s is left out, and `delay` is carried but not acted on.
- Library internals. JSON decoding, `regexp`, `url.Parse`, `http.CanonicalHeaderKey`, base64 and the script engine are opaque parameters. Decoding is represented by its outcome (a value or an error message).
- Byte strings. Byte-slice bodies are modelled as `string`.
- `EqualFold`. `strings.EqualFold` is modelled with ASCII case folding only.
- Logging. Logging, request and response dumps, and the log level that enables them are left out.
- HTTP plumbing in the newest generation. The handlers in main.go and the listener are not part of this model.
- HTTP plumbing in gzserver.go. `status`, `get` and `writeExpectationsToResponse` (JSON encoding of the snapshot) are not modelled.
- Content-Type sniffing. The `Content-Type` that `net/http` adds by sniffing an unlabelled body is not modelled.
- handler.go, template.go, dump.go, gzHttpClient.go and httpclient/roundtripper.go are not part of this model.
- `HttpRequestToExpectationRemove` (expectations/expectations.go:190-199) is left out: it only decodes JSON.
- `GetExpectationsJSON` (controller.go:23-27) is left out: it only encodes JSON.
- `ObjectFromJSON` (model.go:73-76) is left out: it only decodes JSON.
- Forwarding methods. `GzFilter.Add`, `AddFromJSON`, `AddFromString`, `Remove` and `GetOrdered` (expectations/filter.go:44-62) forward unchanged to the store, whose operations are modelled.
- Forward URL. The forward URL is taken to be the formatted `scheme://host` + path itself; `url.Parse` followed by `String()` is assumed not to rewrite it.
- Target host. The outbound request's target host, when no forward `Host` header is given, is taken to be the forward host.
- GzServer.GzServer.DoHTTPRequest: when copying the answer's body fails, the part already copied is not modelled. The reply body is only the appended error text.
- Transport field. gzserver_test.go:183 sets an `httpClient` field that the `gzServer` struct (gzserver.go:28-31) does not have. The transport is a field of the model's `GzServer` and stands for the `http.Client{}` that `doHTTPRequest` creates.
- Nil receivers. The nil-receiver panics of `gzStorage` (gzstorage.go:27-29, 37-39, 62-64) are excluded by Dafny's non-null references.
- Http.PathWithFragmentRoundTrip: the round trip is stated only for a request URI without `#`. A server request such as `GET /p?q#x` keeps the `#` in its raw query and so in `RequestURI()`, and reading that path back then splits at the wrong `#`.
