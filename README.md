# junggo backend MCP server — tool table, request URLs, result envelope, prompts

The MCP server `junggo backend mcp server` publishes seventeen read-only tools. Each tool
forwards a call to the backend at `http://backend:3000` and hands the backend's JSON answer to
the client. The server also publishes three prompt templates and a `greeting://{name}`
resource. This project models that server on values.

- `Registry` holds the table of registered tools. Each row gives a tool's name, its title,
  its input schema (field, type, required or optional), its path template (fixed text and
  argument slots) and the optional arguments it sends as query parameters, in the order sent.
- `RequestBuilder` builds the outbound URL the way every handler does:
  - It starts from the base and splices path arguments in as template-literal text.
  - It appends an optional argument to a `URLSearchParams` object only when the argument is
    JavaScript-truthy, in declaration order.
  - It adds `?` and the serialized parameters only when that serialization is non-empty.
  
  `BuildUrl` is the imperative builder, a loop over a `SearchParams` object. It is proved equal
  to the specification function `RequestUrl`.
- `FormUrlEncoded` is the `application/x-www-form-urlencoded` serializer that
  `URLSearchParams.toString()` uses (section 5.2 of the WHATWG URL Standard). It percent-encodes
  the UTF-8 bytes (RFC 3629) of names and values in upper-case hex, and a space becomes `+`.
  The parser of section 5.1 is given beside it, and reading back what was serialized is proved
  to give the same pairs.
- `Decimal` writes an integer in decimal, as `limit.toString()` and `offset.toString()` do for
  the integers a JavaScript number holds exactly (magnitude at most 2^53).
- `Dispatch` holds the result envelope: one text item with the serialized payload, plus the
  payload as `structuredContent`. It also holds the tool call, which looks up the name, checks
  the schema and runs the handler.
- `Prompts` holds the three prompt renderers, with their template text verbatim, and the
  greeting resource.
- `ToolUrls` states the URL of every tool for concrete arguments. It also checks the
  `limit: 10, offset: 0` scenario.

`fetch` with `response.json()` and `JSON.stringify` are foreign. They are parameters of the
dispatch functions: `backend: string -> J` and `stringify: J -> string`. The payload is the
type parameter `J`.

Two behaviours of the handlers are kept exactly as the code has them:

- A missing path argument is not an error. The template literal splices `undefined`, and so
  does `RequestBuilder.Interpolate`.
- Path arguments are not percent-encoded. `ToolUrls.PathArgumentNotEncoded` shows that a `?`
  inside a complaint id moves the rest of the id into the query the backend reads.
  `ToolUrls.HashInPathDropsQuery` shows that a `#` inside a user id starts a fragment, so the
  backend sees the id cut short and no query, although `limit` was sent.

## Model

| member | source | states |
|---|---|---|
| Registry.RegisteredTools | mcp_server_practice/src/index.ts:18-425 | `Tools` holds the seventeen registrations, by name in registration order; each `ToolDef` constant is one `server.registerTool` call |
| Registry.ToolNames | mcp_server_practice/src/index.ts:18-425 | one name per registered tool, in registration order |
| Registry.ToolNamesDistinct | mcp_server_practice/src/index.ts:18-425 | the seventeen tool names are pairwise distinct |
| Registry.FieldNames | mcp_server_practice/src/index.ts:109-113 | the schema's field names, one per field, in declaration order |
| Registry.Conforms | mcp_server_practice/src/index.ts:154-158 | no contract of its own: stands for the Zod schema accepting the arguments (required fields present, given fields of their declared type); characterized by `Dispatch.CallRegistered` and `Dispatch.CallRejectsInvalid` |
| Registry.WellFormed | mcp_server_practice/src/index.ts:154-165 | no contract of its own: the schema, the path template and the append chain of one handler agree; established by `Registry.ToolsWellFormed` |
| Registry.ToolsWellFormed | mcp_server_practice/src/index.ts:18-425 | for every tool, field names are distinct; each path slot is a required string field; the query keys are exactly the tool's optional fields, in its schema's order |
| Registry.OptionalNamesDeclared | mcp_server_practice/src/index.ts:154-158 | every optional field is a declared field |
| Registry.OptionalNamesDistinct | mcp_server_practice/src/index.ts:154-164 | distinct field names make the optional names distinct |
| Registry.RegisteredKeysDistinct | mcp_server_practice/src/index.ts:18-425 | no registered tool appends the same query key twice |
| Registry.AllComplaintsKeysDistinct | mcp_server_practice/src/index.ts:262-271 | the six query keys of fetch-all-complaints are pairwise distinct |
| Registry.AllComplaintsFieldNames | mcp_server_practice/src/index.ts:253-271 | the schema of fetch-all-complaints declares exactly its query keys, in the order sent |
| Registry.AllComplaintsWellFormed | mcp_server_practice/src/index.ts:248-271 | the same for fetch-all-complaints: its six optional fields are its six query keys |
| Registry.Lookup | mcp_server_practice/src/index.ts:18-425 | a found tool is registered under the name asked for; `None` only when no tool has that name |
| Registry.Find | mcp_server_practice/src/index.ts:18-425 | the same search over any list of tools |
| Registry.FindDistinct | mcp_server_practice/src/index.ts:18-425 | with distinct names, searching for the i-th tool's name finds that tool |
| Registry.LookupRegistered | mcp_server_practice/src/index.ts:18-425 | every registered tool is found by its own name |
| Registry.LookupFindsRegistered | mcp_server_practice/src/index.ts:18-425 | a tool is found exactly when the name is one of the registered names |
| Registry.LookupUnknown | mcp_server_practice/src/index.ts:18-425 | every name that is not registered resolves to nothing |
| Registry.LookupDoesNotExist | mcp_server_practice/src/index.ts:18-425 | `does-not-exist` is not registered and resolves to nothing |
| RequestBuilder.Truthy | mcp_server_practice/src/index.ts:117 | no contract of its own: JavaScript truthiness of a string or number argument; characterized by `RequestBuilder.FalsyArgumentDropped` and `RequestBuilder.QueryPairsMember` |
| RequestBuilder.Sends | mcp_server_practice/src/index.ts:117 | no contract of its own: the guard `if (key)`, false for an absent argument; characterized by `RequestBuilder.QueryPairsMember` |
| RequestBuilder.ArgText | mcp_server_practice/src/index.ts:163 | no contract of its own: a string as it is, a number by `toString()`; characterized by `RequestBuilder.NumericArgumentRoundTrip` and `Decimal.IntToStringRoundTrip` |
| RequestBuilder.Interpolate | mcp_server_practice/src/index.ts:161 | no contract of its own: `${name}` in a template literal, `undefined` for a missing argument; characterized by `RequestBuilder.PathArgumentVerbatim` |
| RequestBuilder.SegmentText | mcp_server_practice/src/index.ts:185 | no contract of its own: one piece of a path template, literal or spliced; characterized by `RequestBuilder.SpliceAppend` |
| RequestBuilder.SplicePath | mcp_server_practice/src/index.ts:161 | no contract of its own: the path template literal with its arguments spliced in, unencoded; characterized by `RequestBuilder.SpliceAppend`, `RequestBuilder.PathArgumentVerbatim` and `RequestBuilder.SpliceLocal` |
| RequestBuilder.QueryPairs | mcp_server_practice/src/index.ts:263-270 | no contract of its own: the pairs the guarded `params.append` chain leaves; characterized by `RequestBuilder.QueryPairsMember`, `RequestBuilder.QueryPairsOrdered` and `RequestBuilder.QueryPairsCount` |
| RequestBuilder.QuerySuffix | mcp_server_practice/src/index.ts:119 | no contract of its own: `?` and the serialization, only when it is non-empty; characterized by `RequestBuilder.QuestionMarkRule` |
| RequestBuilder.RequestUrl | mcp_server_practice/src/index.ts:161-165 | no contract of its own: the URL passed to `fetch`; characterized by `RequestBuilder.BuildUrl`, `RequestBuilder.QuestionMarkRule` and the `ToolUrls` lemmas |
| RequestBuilder.SearchParams.constructor | mcp_server_practice/src/index.ts:116 | a new parameter list is empty |
| RequestBuilder.SearchParams.Append | mcp_server_practice/src/index.ts:117-118 | appending adds exactly one pair at the end, and nothing else changes |
| RequestBuilder.SearchParams.ToString | mcp_server_practice/src/index.ts:119 | the serialization parses back to the list, and it is empty exactly when the list is |
| RequestBuilder.BuildUrl | mcp_server_practice/src/index.ts:115-119 | the loop over the optional keys builds exactly `RequestUrl(tool, args)` |
| RequestBuilder.IndexOf | mcp_server_practice/src/index.ts:262-271 | the position of the first occurrence of a key among the declared keys |
| RequestBuilder.QueryPairsMember | mcp_server_practice/src/index.ts:263-270 | a pair is sent iff its key is declared, the argument is truthy, and the value is the argument's text |
| RequestBuilder.FalsyArgumentDropped | mcp_server_practice/src/index.ts:117-118 | a missing, empty-string or zero argument yields no pair with its key |
| RequestBuilder.QueryEmptyWhenNoneSent | mcp_server_practice/src/index.ts:117-119 | when no declared argument is truthy, no pair is sent |
| RequestBuilder.QuerySingleSent | mcp_server_practice/src/index.ts:263-270 | when exactly one declared argument is truthy, the query is that one pair |
| RequestBuilder.QueryPairsOrdered | mcp_server_practice/src/index.ts:262-271 | every sent key is declared, and sent keys follow declaration order strictly |
| RequestBuilder.QueryKeysUnique | mcp_server_practice/src/index.ts:262-271 | with distinct declared keys, no key is sent twice |
| RequestBuilder.QueryPairsCount | mcp_server_practice/src/index.ts:263-270 | at most one pair per declared key; all of them exactly when every argument is truthy |
| RequestBuilder.QueryPairsLocal | mcp_server_practice/src/index.ts:263-270 | the query depends only on the declared keys' arguments, so extra arguments change nothing |
| RequestBuilder.QuestionMarkRule | mcp_server_practice/src/index.ts:119 | no `?` exactly when no pair survives; otherwise `?` followed by the serialized pairs |
| RequestBuilder.RequiredOnlyNoQuery | mcp_server_practice/src/index.ts:135-139 | a tool with no optional query keys never sends a query |
| RequestBuilder.QueryBoundedBySchema | mcp_server_practice/src/index.ts:378-381 | the number of pairs never exceeds the number of optional schema fields |
| RequestBuilder.SpliceAppend | mcp_server_practice/src/index.ts:161 | splicing a path of two parts is splicing each part in turn |
| RequestBuilder.PathArgumentVerbatim | mcp_server_practice/src/index.ts:185 | a path argument occurs verbatim in the URL, right after the text before its slot |
| RequestBuilder.Strip | mcp_server_practice/src/index.ts:154-158 | the arguments kept are exactly the given ones among the declared names, with their values |
| RequestBuilder.SpliceLocal | mcp_server_practice/src/index.ts:161 | the spliced path depends only on the arguments of its slots |
| RequestBuilder.StripKeepsUrl | mcp_server_practice/src/index.ts:154-167 | for a well-formed tool, dropping undeclared arguments changes neither path nor query |
| RequestBuilder.SerializedHasNoHash | mcp_server_practice/src/index.ts:165 | a serialized query never contains `#` |
| RequestBuilder.SplitTarget | mcp_server_practice/src/index.ts:167 | no contract of its own: the fragment from the first `#` is dropped and the query starts at the first `?` before it; characterized by `RequestBuilder.BackendReadsQuery` and `ToolUrls.FragmentCut` |
| RequestBuilder.NoFragment | mcp_server_practice/src/index.ts:161-167 | when the spliced path has no `#`, the URL has none |
| RequestBuilder.BackendReadsQuery | mcp_server_practice/src/index.ts:161-167 | when the spliced path has neither `?` nor `#`, the target the backend receives is the templated path, and its query parses back to exactly the sent pairs |
| RequestBuilder.NumericArgumentRoundTrip | mcp_server_practice/src/index.ts:269-270 | when the spliced path has neither `?` nor `#`, a truthy numeric argument reaches the backend as its decimal text, which reads back as the same number |
| FormUrlEncoded.EncodeChar | mcp_server_practice/src/index.ts:119 | one to four UTF-8 bytes per code point; ASCII is one byte, its own code |
| FormUrlEncoded.DecodeFirst | mcp_server_practice/src/index.ts:119 | a strict UTF-8 decoder for one code point, consuming one to four bytes |
| FormUrlEncoded.DecodeEncodeChar | mcp_server_practice/src/index.ts:119 | decoding an encoded code point gives it back, consuming all its bytes |
| FormUrlEncoded.Utf8RoundTrip | mcp_server_practice/src/index.ts:119 | UTF-8 decoding inverts UTF-8 encoding |
| FormUrlEncoded.HexDigit | mcp_server_practice/src/index.ts:119 | an upper-case hexadecimal digit, which is itself unreserved |
| FormUrlEncoded.HexValue | mcp_server_practice/src/index.ts:119 | a hexadecimal digit's value, below 16, or `None` for other characters |
| FormUrlEncoded.HexValueOfDigit | mcp_server_practice/src/index.ts:119 | reading an emitted digit gives its value back |
| FormUrlEncoded.EncodeByte | mcp_server_practice/src/index.ts:119 | one encoded byte uses only unreserved characters, `+` and `%` |
| FormUrlEncoded.PercentEncode | mcp_server_practice/src/index.ts:119 | the same for a byte string |
| FormUrlEncoded.EncodeComponent | mcp_server_practice/src/index.ts:119 | an encoded name or value uses only unreserved characters, `+` and `%` |
| FormUrlEncoded.PercentDecodeEncodeByte | mcp_server_practice/src/index.ts:119 | percent-decoding one encoded byte gives the byte back |
| FormUrlEncoded.PercentRoundTrip | mcp_server_practice/src/index.ts:119 | percent-decoding inverts percent-encoding |
| FormUrlEncoded.ComponentRoundTrip | mcp_server_practice/src/index.ts:119 | decoding an encoded component gives the original string |
| FormUrlEncoded.EncodeUnreservedIdentity | mcp_server_practice/src/index.ts:269 | a string of unreserved characters, such as `limit` or `10`, is encoded as itself |
| FormUrlEncoded.PairText | mcp_server_practice/src/index.ts:119 | `name=value` contains `=` and no `&`, and only query characters |
| FormUrlEncoded.Serialize | mcp_server_practice/src/index.ts:119 | empty exactly for no pairs; only query characters |
| FormUrlEncoded.SplitOn | mcp_server_practice/src/index.ts:119 | splitting gives at least one piece |
| FormUrlEncoded.SplitOnWithout | mcp_server_practice/src/index.ts:119 | a string without the separator is one piece |
| FormUrlEncoded.SplitOnFirst | mcp_server_practice/src/index.ts:119 | splitting `x + sep + y`, with no separator in x, gives x then the pieces of y |
| FormUrlEncoded.SplitFirstAt | mcp_server_practice/src/index.ts:119 | splitting at the first separator gives the text before it and the text after it |
| FormUrlEncoded.ParsePieceText | mcp_server_practice/src/index.ts:119 | parsing one `name=value` piece gives the pair back |
| FormUrlEncoded.PairTexts | mcp_server_practice/src/index.ts:119 | one piece per pair |
| FormUrlEncoded.SplitSerialize | mcp_server_practice/src/index.ts:119 | splitting a serialization at `&` gives one piece per pair |
| FormUrlEncoded.ParsePairTexts | mcp_server_practice/src/index.ts:119 | parsing those pieces gives the pairs back |
| FormUrlEncoded.ParseSerialize | mcp_server_practice/src/index.ts:119 | parsing a serialized list gives exactly that list, in order |
| Decimal.DigitChar | mcp_server_practice/src/index.ts:163 | the character of one decimal digit |
| Decimal.NatToString | mcp_server_practice/src/index.ts:163 | non-empty, digits only, and a leading `0` only for zero |
| Decimal.IntToString | mcp_server_practice/src/index.ts:163 | a leading `-` exactly for negative numbers |
| Decimal.NatToStringValue | mcp_server_practice/src/index.ts:163 | the digits' value is the number |
| Decimal.IntToStringRoundTrip | mcp_server_practice/src/index.ts:163 | reading the numeral back gives the number |
| Decimal.IntToStringInjective | mcp_server_practice/src/index.ts:163-164 | distinct numbers give distinct numerals |
| ToolUrls.UserToolUrls | mcp_server_practice/src/index.ts:57-139 | the exact URLs of the user and internal-user tools, without optional arguments |
| ToolUrls.LogToolUrls | mcp_server_practice/src/index.ts:161-233 | the exact URLs of the user-log tools, without optional arguments |
| ToolUrls.ComplaintToolUrls | mcp_server_practice/src/index.ts:263-417 | the exact URLs of fetch-all-complaints without filters, fetch-complaint, fetch-complaint-by-ticket-number and fetch-complaint-responses |
| ToolUrls.ComplaintListUrls | mcp_server_practice/src/index.ts:330-399 | the exact URLs of fetch-complaints-by-user, fetch-complaints-by-category, fetch-pending-complaints and fetch-complaint-stats, without optional arguments |
| ToolUrls.ZeroOffsetPairs | mcp_server_practice/src/index.ts:269-270 | `limit: 10, offset: 0` sends the single pair `limit`, `10` |
| ToolUrls.LimitTenText | mcp_server_practice/src/index.ts:271 | that pair is serialized as `limit=10` |
| ToolUrls.AllComplaintsZeroOffset | mcp_server_practice/src/index.ts:262-271 | fetch-all-complaints with `limit: 10, offset: 0` fetches `http://backend:3000/complaints?limit=10` |
| ToolUrls.PathArgumentNotEncoded | mcp_server_practice/src/index.ts:290 | a complaint id `a?b` is spliced raw, and the backend reads path `/complaints/a` with query `b` |
| ToolUrls.ComplaintQuestionSplit | mcp_server_practice/src/index.ts:290 | the URL `…/complaints/a?b` splits into path `/complaints/a` and query `b` |
| ToolUrls.LogsLimitFivePairs | mcp_server_practice/src/index.ts:162-164 | `userId: "u#1", limit: 5` sends the single pair `limit`, `5` |
| ToolUrls.LimitFiveText | mcp_server_practice/src/index.ts:165 | that pair is serialized as `limit=5` |
| ToolUrls.UserLogsPath | mcp_server_practice/src/index.ts:161 | fetch-user-logs splices its user id after `/user-logs/user/` |
| ToolUrls.LogsHashUrl | mcp_server_practice/src/index.ts:161-167 | with `userId: "u#1", limit: 5` fetch-user-logs fetches `http://backend:3000/user-logs/user/u#1?limit=5` |
| ToolUrls.FragmentCut | mcp_server_practice/src/index.ts:167 | from a `#` on, nothing reaches the backend, so a query after it is lost |
| ToolUrls.UserLogsHashSplit | mcp_server_practice/src/index.ts:167 | that URL reaches the backend as path `/user-logs/user/u` with no query |
| ToolUrls.HashInPathDropsQuery | mcp_server_practice/src/index.ts:150-167 | a `#` in the user id drops the rest of the id and the sent `limit` |
| Dispatch.Envelope | mcp_server_practice/src/index.ts:60-63 | the result is consistent (one text item, the serialized structured content) and carries the payload |
| Dispatch.ConsistentIsEnvelope | mcp_server_practice/src/index.ts:123-126 | any consistent result is the envelope of its own structured content |
| Dispatch.TextCarriesPayload | mcp_server_practice/src/index.ts:274-277 | a client that parses the text item gets the structured content back |
| Dispatch.EnvelopeInjective | mcp_server_practice/src/index.ts:60-63 | distinct payloads give distinct results |
| Dispatch.Handle | mcp_server_practice/src/index.ts:114-127 | a handler answers with the envelope of the backend's payload for the tool's URL |
| Dispatch.Call | mcp_server_practice/src/index.ts:18-425 | an unknown-tool error exactly for unregistered names; every success is consistent |
| Dispatch.CallTool | mcp_server_practice/src/index.ts:18-425 | the imperative call computes exactly `Call` |
| Dispatch.CallRegistered | mcp_server_practice/src/index.ts:18-425 | a registered tool with admissible arguments runs its handler on its own URL |
| Dispatch.CallRejectsInvalid | mcp_server_practice/src/index.ts:18-425 | arguments the input schema rejects never reach the backend |
| Dispatch.CallUnknown | mcp_server_practice/src/index.ts:18-425 | every name that is not registered is an unknown-tool error |
| Dispatch.CallPayload | mcp_server_practice/src/index.ts:57-63 | the structured content of a success is the backend's payload for the URL of the tool named |
| Prompts.ProcessComplaintText | mcp_server_practice/src/index.ts:444-489 | no contract of its own: the template literal, verbatim; characterized by `Prompts.ProcessComplaint` and `Prompts.ProcessComplaintInjective` |
| Prompts.ProcessComplaint | mcp_server_practice/src/index.ts:437-494 | one user message whose text quotes the complaint id |
| Prompts.ProcessComplaintInjective | mcp_server_practice/src/index.ts:444 | distinct complaint ids give distinct guides |
| Prompts.TrendDays | mcp_server_practice/src/index.ts:507 | `"7"` only when `days` is absent; a given value is kept, even the empty one |
| Prompts.CategoryFilter | mcp_server_practice/src/index.ts:508 | the filter is empty exactly when the category is falsy |
| Prompts.CategoryStep | mcp_server_practice/src/index.ts:529-533 | a truthy category gets a line that names the fetch-complaints-by-category tool and the category; a falsy one gets the generic line, which names no tool |
| Prompts.GenericStepNamesNoTool | mcp_server_practice/src/index.ts:532 | the generic per-category line does not mention fetch-complaints-by-category |
| Prompts.CategoryStepMentions | mcp_server_practice/src/index.ts:531 | the category line mentions both the tool and the category |
| Prompts.TrendText | mcp_server_practice/src/index.ts:515-549 | no contract of its own: the template literal, verbatim; characterized by `Prompts.AnalyzeComplaintTrend` and the `Trend` lemmas |
| Prompts.AnalyzeComplaintTrend | mcp_server_practice/src/index.ts:507-553 | one user message whose text quotes the days |
| Prompts.TrendDefaultDays | mcp_server_practice/src/index.ts:507 | a missing `days` renders as `"7"` |
| Prompts.TrendEmptyDaysKept | mcp_server_practice/src/index.ts:507 | an empty `days` does not render as the default |
| Prompts.TrendFalsyCategory | mcp_server_practice/src/index.ts:508-533 | every falsy category renders as no category, with the generic step-3 line |
| Prompts.TrendGivenCategory | mcp_server_practice/src/index.ts:508-533 | a truthy category appears in the filter suffix and in the step-3 line naming fetch-complaints-by-category |
| Prompts.TrendGivenDiffersFromAbsent | mcp_server_practice/src/index.ts:508-515 | a truthy category never renders like an absent one |
| Prompts.TrendCategoryInjective | mcp_server_practice/src/index.ts:508-533 | distinct truthy categories give distinct guides |
| Prompts.TrendDaysInjective | mcp_server_practice/src/index.ts:507-515 | distinct days give distinct guides |
| Prompts.AssignComplaintText | mcp_server_practice/src/index.ts:573-605 | no contract of its own: the template literal, verbatim; characterized by `Prompts.AssignComplaintToAgent` and `Prompts.AssignComplaintInjective` |
| Prompts.AssignComplaintToAgent | mcp_server_practice/src/index.ts:566-610 | one user message whose text quotes the complaint id |
| Prompts.AssignComplaintInjective | mcp_server_practice/src/index.ts:573 | distinct complaint ids give distinct assignment guides |
| Prompts.Greeting | mcp_server_practice/src/index.ts:621-628 | one item with the requested URI and the text `Hello, ` + name + `!` |
| Prompts.GreetingInjective | mcp_server_practice/src/index.ts:625 | distinct names give distinct greetings |
| Prompts.GetPrompt | mcp_server_practice/src/index.ts:428-611 | an unknown-prompt error exactly for unregistered names; a missing-argument error exactly when a `complaintId` prompt lacks it; otherwise the named prompt's own template rendered with the given arguments, as one user message; an error names the unknown prompt or the missing `complaintId` |

## Left out

- `backend_junggo/src/users/users.service.ts` is not part of this model. It only delegates to
  the ORM and the database.
- `fetch` and `response.json()` are network I/O and JSON parsing. They become the `backend`
  parameter, a total function from URL to payload, so network failures and malformed JSON
  are not modelled. The handlers never check `response.ok`: an error status's JSON body is
  returned as a successful result. The total `backend` models exactly that.
- `JSON.stringify` becomes the `stringify` parameter; its output format is not modelled.
- Zod validation is reduced to `Registry.Conforms`: required fields are present and given
  fields have their declared types. Argument values are strings and integers only, so Zod's
  rejection of booleans, `null`, objects and fractional numbers is not modelled. Zod strips
  unknown keys before the handler sees the arguments. `RequestBuilder.StripKeepsUrl` shows
  this changes neither the path nor the query.
- The output schemas, and the SDK's check of `structuredContent` against them, are not modelled.
- McpServer's registration and dispatch internals are not modelled beyond `Dispatch.Call` and
  `Prompts.GetPrompt`. Those are a lookup by name, a schema check and the handler; the SDK's
  error messages and codes are not modelled.
- Template matching of `greeting://{name}` is SDK behaviour. `Prompts.Greeting` takes the
  matched name as a string, so the list-valued name an RFC 6570 template can produce is not
  modelled.
- The Express app, the Streamable HTTP transport, closing on disconnect, and port parsing and
  listening are transport and process plumbing.
- `console.log` and `console.error` are output only.
- Tool and prompt descriptions and titles are not modelled; titles are kept as data in the table.
- Decimal.IntToString: numeric arguments are integers. Fractional values, `NaN`, infinities and
  the exponent form JavaScript uses from 1e21 up are not modelled. JavaScript numbers are
  doubles, so above 2^53 they hold only some integers, and `toString` prints the shortest
  digits that read back to the double (`2**60` prints `1152921504606847000`). The model takes
  any integer and prints its exact digits. Both agree up to 2^53 in magnitude.
- `fetch`'s own URL parsing is modelled only as far as `RequestBuilder.SplitTarget` goes: the
  fragment from the first `#` is dropped, and the query starts at the first `?` before it. Dot
  segments and the percent-encoding of characters in the path are not modelled.
- FormUrlEncoded.DecodeFirst: the parser rejects ill-formed UTF-8 instead of substituting
  U+FFFD. It is only ever applied to the serializer's own output, which is well formed.
- Lone surrogate code points in strings are not modelled: Dafny's `char` is a Unicode scalar
  value, so `URLSearchParams`' replacement of lone surrogates by U+FFFD does not arise.
