# Dobby code converter server, modelled in Dafny

The server accepts a batch of uploaded source files together with a target
language and version. For each file it builds a fixed prompt, asks a
structured-generation provider for a `{path, content}` object, and checks
that object against a two-field string schema. It accepts the object only
when both fields are non-empty. Otherwise it falls back to the original
content, prefixed by a diagnostic comment that carries the error message.

The converter returns a record for every file and every provider behaviour.
Files are processed strictly in order, with a 200 ms pause after each one.
A request with no files is answered `400 {"error": "No files provided"}`
before any provider call is made.

Modules, one file each:

- `Wrappers` (`wrappers.dfy`): `Option`.
- `Types` (`types.dfy`): `UploadedFile` and `ConvertedFile`.
- `Schema` (`schema.dfy`): JSON candidate objects and the two-field schema check.
- `Generation` (`generation.dfy`): the structured-generation call. It turns the provider's final reply into a resolved object or a rejection.
- `PromptBuilder` (`prompt.dfy`): the prompt template literal.
  - Its fixed stretches are the `Quasi` values, with one literal per template line.
  - `Interpolate` is the renderer.
  - The layout lemmas say where each spliced value lands.
- `Converter` (`converter.dfy`): the single-file converter.
  - `Settle` decides between success and fallback.
  - `ConvertFile` chains prompt, provider, schema and `Settle`.
- `ConvertEndpoint` (`endpoint.dfy`): the `POST /api/convert` handler and its batch loop.
  - The loop is an imperative `for` method that also records an event trace: `Call(prompt)` for each provider call and `Pause(200)` for each pause.
  - `RunBatch` is the handler's loop, written for any per-file conversion and prompt rendering.
  - `HandleConvert` instantiates it with `ConvertFile` and `Prompt`, exactly as the handler calls `convertFileWithDobby`.

The provider is a parameter, so the model has no network and no model
identifier. For one file it is `provider: string -> ProviderReply`: the
final reply (a JSON object, or a fault with its message) to a given prompt.
For a batch it is `oracle: (nat, string) -> ProviderReply`, where
`oracle(k, p)` is the reply to the k-th call when that call's prompt is `p`.

## Model

| member | source | states |
|---|---|---|
| Schema.ValidateSchema | server/src/server.ts:13-16 | a candidate passes exactly when both `path` and `content` are present and are strings; the parsed file carries exactly those two strings |
| Schema.ValidateAsJson | server/src/server.ts:13-16 | every `{path, content}` pair, empty strings included, passes the schema unchanged |
| Schema.ValidateIgnoresExtraMembers | server/src/server.ts:13-16 | members other than `path` and `content` never change the schema's verdict or result |
| Generation.GenerateObject | server/src/server.ts:56-65 | the call resolves exactly when the reply is an object that passes the schema, and it resolves with the parsed object; a provider fault rejects with the fault's message |
| PromptBuilder.VersionClause | server/src/server.ts:34-36 | the clause is empty exactly when the version is `"latest"`; otherwise it is `(`, the version, `)` |
| PromptBuilder.InstructionsOpenSentence | server/src/server.ts:36-37 | the text after the version clause opens with the `.` that ends the conversion sentence, then a newline |
| PromptBuilder.DisplayName | server/src/server.ts:48 | an absent name renders as `""` and a present one renders as itself |
| PromptBuilder.PromptNamesTarget | server/src/server.ts:31-36 | the prompt opens with the intro; right after it come the language, a space and the version clause, followed immediately by the instructions |
| PromptBuilder.PromptClosesTargetSentence | server/src/server.ts:34-37 | the version clause (or nothing, for `"latest"`) is directly followed by the `.` and line break that end the conversion sentence |
| PromptBuilder.PromptEmbedsPathAndName | server/src/server.ts:47-48 | the file path appears verbatim right after the instructions, followed by the `Filename:` label and the name (or `""` when it is absent), all at stated offsets |
| PromptBuilder.PromptEmbedsContent | server/src/server.ts:49-53 | the code fence opens right after the name, the content appears verbatim inside it, the fence closes right after the content, and the prompt ends there (total length stated) |
| PromptBuilder.Layout | server/src/server.ts:31-53 | in any rendered six-stretch template, each of the six stretches and each of the five values occurs on its own at the sum of the lengths before it, and the total length is the sum of all parts |
| PromptBuilder.PromptSpelledOut | server/src/server.ts:31-53 | the prompt `Prompt` builds is the template's fixed stretches interleaved with the language, version clause, path, display name and content, in that order |
| PromptBuilder.InterpolateSix | server/src/server.ts:31-53 | a six-stretch template literal renders as its stretches and its five values, alternating |
| Converter.Accepted | server/src/server.ts:68 | an outcome is accepted exactly when the call resolved with an object whose `content` and `path` are both non-empty |
| Converter.FailureMessage | server/src/server.ts:69-78 | for a rejected call the caught message is the rejection's own message; for a resolved but refused object it is `"Invalid or empty conversion result."` |
| Converter.FailureMarker | server/src/server.ts:78 | the diagnostic marker is the opening text, the message and the closing text, each at its own position |
| Converter.FallbackPath | server/src/server.ts:77 | the fallback path is never empty; it is the input path when that is non-empty and `"unknown"` otherwise |
| Converter.Fallback | server/src/server.ts:76-79 | the fallback has a non-empty path, equal to the input path whenever that is non-empty; its content is the marker for the message followed by the original content, exactly |
| Converter.Settle | server/src/server.ts:67-79 | an object with both fields non-empty is returned unchanged; anything else becomes the fallback for the caught message; the result never has an empty path or empty content |
| Converter.ConvertFile | server/src/server.ts:26-81 | the converter is total and always returns a file with a non-empty path and non-empty content |
| Converter.ConvertAccepts | server/src/server.ts:68-72 | any reply the schema parses into a file with non-empty path and content (extra members dropped) yields exactly that parsed file, whatever path it names |
| Converter.ConvertFaultFallsBack | server/src/server.ts:73-79 | a provider fault yields the fallback carrying the fault's message |
| Converter.ConvertRejectsEmptyFields | server/src/server.ts:68-70 | any reply the schema parses into a file whose path or content is the empty string still falls back, with `"Invalid or empty conversion result."` |
| Converter.ConvertRejectsNonConforming | server/src/server.ts:13-16 | a reply lacking a string `path` or `content` falls back with the schema's message |
| Converter.ConvertOutcomes | server/src/server.ts:55-80 | every result is either the object parsed from the reply or the fallback for one of the three failure messages (schema, empty field, provider fault) |
| ConvertEndpoint.PacedCallsAt | server/src/server.ts:97-105 | a paced trace has exactly two events per file: the call with that file's prompt at 2i, the 200 ms pause at 2i+1 |
| ConvertEndpoint.PacedCallsCount | server/src/server.ts:97-105 | a paced trace's calls are exactly the prompts, in order, and it holds exactly one pause per prompt |
| ConvertEndpoint.RunBatch | server/src/server.ts:95-105 | the loop returns one result per file, the i-th being the conversion of the i-th file as the i-th call; its trace is each file's call followed by one pause, in input order |
| ConvertEndpoint.HandleConvert | server/src/server.ts:84-112 | missing or empty `files` gives `400 No files provided` and no provider call. Otherwise the response is a success with one result per file, each the converted file, in order; the i-th result is the success-or-fallback decision on the provider's reply to the prompt of the i-th recorded call. There are N calls with the files' prompts in input order, a 200 ms pause after each file (the last included), and never a 500 |

## Left out

- Express wiring, CORS, the 8 MB body limit, `/api/health` and the listening port: these are HTTP plumbing outside the conversion logic.
- The Fireworks client and the model identifier are not modelled. Neither are the provider's network round trip or the library's internal `maxRetries: 2` retry. The provider is a parameter that hands back its final reply or fault.
- Generation.GenerateObject: the rejection text for a reply that fails the schema is whatever the generation library produces. It is not in the server's source, so the model uses one fixed stand-in string, `SchemaMismatch`.
- The 200 ms pause is recorded as a `Pause(200)` event; no time passes in the model.
- The `console.error` logging in both catch blocks is not modelled; it has no effect on results.
- Thrown values without a `message` (which would print `undefined` in the marker) are not modelled: every error in the model carries a string message.
- A thrown `null` or `undefined` is not modelled. Reading its `message` on line 74 would itself throw inside the catch block, and the handler's catch would then answer 500.
- Strings are sequences of Unicode scalar values, so text holding lone UTF-16 surrogates (such as `"\uD800"`), which JavaScript strings allow, cannot be represented.
- ConvertEndpoint.HandleConvert: bodies the typed `Request` cannot represent are outside the model. These include a non-array `files`, or a missing `targetLanguage` that would be spliced in as `undefined`. In JavaScript such bodies can reach the 500 branch; in the model that branch is unreachable, which the contract proves.
- ConvertEndpoint.RunBatch: the loop is written over any per-file conversion, and the connection to the handler's concrete converter is stated by `HandleConvert`.
- The frontend (`frontend/`) is not part of this model.
