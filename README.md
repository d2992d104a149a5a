# REST resource client, modelled in Dafny

A model of the client side of go-zoox/rest-api. A `Client` holds an endpoint
URL and a `Config` of default headers and default query parameters. A
`Resource` binds a client to a namespace such as `"users"`. It offers the five
CRUD operations: List, Create, Retrieve, Update and Delete. Each operation
does two deterministic things, and both are modelled:

1. It builds a request: the verb, the URL template (`<endpoint>/<namespace>`,
   with a literal `/:id` for the three operations on one item), the query, the
   path parameters and the headers.
2. It interprets what the HTTP library returned. A transport error is passed
   through unchanged. Any status other than the expected one (List 200,
   Create 201, Retrieve 200, Update 200, Delete 204) becomes an error built by
   `buildError` and formatted as `[code] message`.

Files:

- `wrappers.dfy`: `Option` and `Result`. `None` stands for Go's `nil`.
- `decimal.dfy`: `strconv.Itoa` / `%d` as `DecimalString`, and a parser that
  reads the text back, with the round-trip lemma.
- `client.dfy`: `Config`, `Client` and `New` from `client/client.go`.
- `fetch.dfy`: the HTTP library's interface as values. A request is a
  `Request`. An outcome is `Failed(cause)` or `Received(response)`. A response
  carries its status, the body's `code` field (0 when absent), its `message`
  field ("" when absent) and the raw body text.
- `resource.dfy`: `client/resource.go` and `CreateResource`. The map-filling
  loops of `buildQuery`, `buildHeaders` and the start of `List` are methods.
  Each is proved equal to a specification function: `EffectiveQuery`,
  `EffectiveHeaders` or `ListParams`. The request and result functions of
  the five operations use those specification functions.
- `scenarios.dfy`: concrete calls: the usage in `client/client_test.go`, a
  merge example, a List query conflict, two error texts and a header-name
  case.

The overlay loop `for k, v := range src { dst[k] = v }` is `CopyEntries`. It
takes the keys in an unspecified order, as Go does. It is proved to produce
`dst + src`, Dafny's right-biased map union, so the result does not depend on
iteration order. Maps are values in the model, so building a merged query or
merged headers cannot change the client's defaults.

List sets `page` and `pageSize` after copying the caller's extra query
(`client/resource.go:18-25`), so they override a caller-supplied `page` or
`pageSize` (`ListParams`, `ListQuerySent`, `ListPageArgumentWins`).
It also keeps an endpoint's trailing slash, so `New("http://localhost:8080/")`
with namespace `"users"` lists at `http://localhost:8080//users`
(`ListUsers`).

## Model

| member | source | states |
|---|---|---|
| `Clients.New` | client/client.go:17-29 | the endpoint is the uri; the config is never nil; a non-nil first config is used as given; with no config or a nil one, both default maps are nil |
| `Clients.NewNilIsNewWithout` | client/client.go:19-23 | `New(uri, nil)` is the same client as `New(uri)` |
| `Clients.NewIgnoresFurtherConfigs` | client/client.go:19-20 | config arguments after the first are ignored |
| `Resources.CreateResource` | client/client.go:41-46 | the resource holds exactly the given client and namespace, with no validation and no precondition |
| `Resources.NewResourceIsReady` | client/client.go:18-27 | a resource on a client from `New` meets the non-nil-config precondition of every operation |
| `Resources.BuildPath` | client/resource.go:126-141 | List and Create map to `<endpoint>/<namespace>`; Retrieve, Update and Delete map to that plus `/:id`; the path is empty exactly for every other name |
| `Resources.EffectiveQuery` | client/resource.go:143-159 | with nil defaults the call's map is returned unchanged; otherwise every key of either map is present, call keys carry the call's value and the other keys the default's |
| `Resources.CopyEntries` | client/resource.go:150-156 | copying every entry of `src` into `dst`, in any key order, yields the right-biased union `dst + src` |
| `Resources.BuildQuery` | client/resource.go:143-159 | the loop-based merge equals `EffectiveQuery` of the client's config and the call's query |
| `Resources.EffectiveHeaders` | client/resource.go:161-176 | `content-type` is always present; it is `application/json` unless the client headers have exactly that lower-case key, whose value then wins; every client header is sent unchanged and nothing else is sent |
| `Resources.BuildHeaders` | client/resource.go:161-176 | the loop-based merge equals `EffectiveHeaders` of the client's config |
| `Resources.ListParams` | client/resource.go:18-25 | the keys are the caller's extra keys plus `page` and `pageSize`; those two are the decimal strings of the arguments; every other caller key keeps its value; an absent or nil extra map adds nothing |
| `Resources.BuildListQuery` | client/resource.go:18-25 | the loop that copies the extras and then sets `page` and `pageSize` equals `ListParams` |
| `Resources.ListRequest` | client/resource.go:27-31 | List is a GET to `<endpoint>/<namespace>` with no path params or body, the effective headers, and the client defaults merged under the List query |
| `Resources.ListQuerySent` | client/resource.go:18-31 | in the query List sends, `page` and `pageSize` are the arguments' decimal strings; the caller's other extras come next; client defaults fill every remaining key |
| `Resources.ListResult` | client/resource.go:32-45 | success iff the response's status is 200 and the body decodes, giving the decoded items; a transport error passes through; another status gives `BuildError`; a decode error passes through |
| `Resources.CreateRequest` | client/resource.go:50-54 | Create is a POST to `<endpoint>/<namespace>` whose body is the item, with the effective headers and no query or params |
| `Resources.CreateResult` | client/resource.go:55-63 | no error iff the response's status is 201; a transport error passes through; another status gives `BuildError` |
| `Resources.RetrieveRequest` | client/resource.go:68-72 | Retrieve is a GET to `<endpoint>/<namespace>/:id` whose id appears only as the path parameter `{"id": id}` |
| `Resources.RetrieveResult` | client/resource.go:73-86 | an item is always returned; no error iff the status is 200 and the body decodes, and the item is then the decoded one; on any error the item is the zero value; transport and decode errors pass through, and another status gives `BuildError` |
| `Resources.UpdateRequest` | client/resource.go:91-96 | Update is a PUT to `<endpoint>/<namespace>/:id` with the item as body and the id only as the path parameter `{"id": id}` |
| `Resources.UpdateResult` | client/resource.go:97-105 | no error iff the response's status is 200; a transport error passes through; another status gives `BuildError` |
| `Resources.DeleteRequest` | client/resource.go:110-114 | Delete is a DELETE to `<endpoint>/<namespace>/:id` with no path params; the id is the query key `id`, overriding any default, and the other client defaults are kept |
| `Resources.DeleteResult` | client/resource.go:115-123 | no error iff the response's status is 204; a transport error passes through; another status gives `BuildError` |
| `Resources.BuildError` | client/resource.go:178-189 | the error text reads back as the body's code if nonzero, else the HTTP status, and the body's message if non-empty, else the raw body |
| `Resources.ErrorTextRoundTrip` | client/resource.go:188 | `[<code>] <message>` determines both the code and the message it was formatted from |
| `Resources.ErrorTextIsFormatted` | client/resource.go:188 | a text that reads back as a code and a message is exactly `[<code>] <message>` with the code in `%d` form, so `BuildError`'s contract fixes its text |
| `Decimal.DecimalString` | client/resource.go:24-25 | `strconv.Itoa` is non-empty, all digits except a leading `-`, and the `-` is there exactly for negative numbers |
| `Decimal.DecimalRoundTrip` | client/resource.go:24-25 | parsing what `DecimalString` writes gives the number back |
| `Decimal.ParsedIsCanonical` | client/resource.go:188 | the parser accepts only what `%d` writes (no leading zeros, no `-0`): a parsed text is the decimal string of its value |
| `Decimal.DecimalInjective` | client/resource.go:24-25 | distinct page numbers are sent as distinct strings |
| `Decimal.Digits` | client/resource.go:24-25 | the digits of a natural number: non-empty, all digits, and a leading `0` only for zero |
| `Decimal.DigitsRoundTrip` | client/resource.go:24-25 | the value of the digits written for `n` is `n` |
| `Scenarios.MergeIsRightBiased` | client/resource.go:148-158 | defaults `{a:1,b:2}` overlaid by `{b:3,c:4}` give `{a:1,b:3,c:4}` |
| `Scenarios.ListUsers` | client/client_test.go:8-15 | `List(0, 10)` on `users` with endpoint `http://localhost:8080/` is a GET to `http://localhost:8080//users` with query `{page: "0", pageSize: "10"}` and the JSON content type |
| `Scenarios.ListPageArgumentWins` | client/resource.go:18-25 | a caller-supplied `page` is replaced by the page argument and other extras are kept |
| `Scenarios.DeleteAnsweredOk` | client/resource.go:110-121 | `Delete("666")` sends query `{id: "666"}` with no path params; answered 200 with message "not allowed" it fails with `[200] not allowed` |
| `Scenarios.CreateRejected` | client/resource.go:55-61 | Create answered 400 with neither code nor message fails with `[400] <raw body>` |
| `Scenarios.RetrieveDecodes` | client/resource.go:68-86 | `Retrieve("666")` sends path params `{id: "666"}` with no query; answered 200 with a decodable body it yields the decoded item and no error |
| `Scenarios.LeadingZeroCodeIsNotRead` | client/resource.go:188 | `[01] x`, which `%d` never writes, does not read back as an error text, while `[1] x` reads back as code 1 and message `x` |
| `Scenarios.HeaderKeysAreCaseSensitive` | client/resource.go:161-176 | a client header `Content-Type` does not replace `content-type`: both are sent |

## Left out

- The network calls `fetch.Get`, `fetch.Post`, `fetch.Put` and `fetch.Delete` are I/O in an external library. The model hands the library a `Request` value. It takes the library's answer as an `Outcome` parameter.
- Replacing `:id` with the path parameters happens inside the HTTP library. The model keeps the literal `/:id` template and a separate params map.
- JSON encoding of request bodies is done by the HTTP library. The body is carried as an `Option<T>` value.
- `response.UnmarshalJSON` is a parameter `decode` from the body text to a value or an error. The zero value of `T` is a parameter too, because Dafny has no generic zero.
- RetrieveResult: when decoding fails, Go's JSON decoder may already have filled part of `result`. The model returns the zero value.
- The JSON field lookups of `code` and `message` happen in the library. They are fields of `Response`, with 0 and "" meaning absent. The 64-bit width of `code` is not modelled, because the code is only formatted.
- Aliasing is not modelled, because maps and configs are values here. Two cases follow. When the client's default query is nil, Go's `buildQuery` returns the caller's own map, and the model returns an equal map. `New(uri, cfg)` stores the caller's `*Config` pointer, so changing that config later changes the client; the model holds a copy.
- A nil `*Client` inside a `Resource`, and a client whose `Config` is nil, make Go panic on first use. The operations require `Ready(r.client)`, the non-nil config. A nil client pointer is not representable.
- Go's `Resource[T]` carries the item type. Here `Resource` is not generic, and each operation takes `T` as its own type parameter.
- Header names are compared exactly, as the code does. Any name canonicalisation the HTTP library performs afterwards is not modelled.
- `rest.go` is not modelled. `NewClient` just passes its arguments on to `New`. `NewServer` belongs to a server package that is not part of this model.
