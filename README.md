# aigentic-openai adapter core, modelled in Dafny

This project models the core of the OpenAI adapter of the aigentic agent
framework, in `openai.go`. The adapter turns vendor-neutral chat messages and
tool declarations into the vendor's chat-completion request. It retries
transient failures with capped exponential backoff and jitter. It also
rebuilds one assistant message from a streamed (server-sent events) response,
calling the caller's progress callback after every chunk that carries a choice.

The modules follow the program's structure:

- `GoText`: the parts of Go's `strings` package the adapter uses (`TrimSpace`, `HasPrefix`, `TrimPrefix`, `Contains`) and byte/string conversion.
- `Base64`: `base64.StdEncoding.EncodeToString` (alphabet and padding of section 4 of RFC 4648), with a strict decoder as its partner.
- `Ai`: the vendor-neutral message, tool-call, tool and response types.
- `Translator`: `openAIConvertMessages` and `openAIConvertTools` as pure functions.
- `RequestOptions`: the request body, how explicitly set generation parameters are copied into it, the streaming flag, and which keys `json.Marshal` writes.
- `Retry`: `isRetryableError`, `calculateBackoffDelay`, and the `openaiGenerateWithRetry` loop as a method.
- `StreamDecoder`: `parseSSEResponse` as a method with a loop over the scanned lines, proved equal to a fold (`Drive`) over the same lines.
- `StreamSpec`: a declarative account of the decoder, proved equal to the fold. The account covers the chunks the lines carry, the prefix of them taken in before the loop halts, the partial messages due, and why the loop ends.
- `StreamFacts`: what the final and partial messages hold.

Inputs that the code gets from outside become parameters:
- the JSON decoder of a chunk (`parse`);
- the chunk callback, told how many partials it has already received;
- the scanner's final error;
- the outcome of each API call;
- the random factor of each backoff;
- whether the context is cancelled during each wait.

Durations are integers of nanoseconds. Go strings are sequences of characters. A Go `string(body)` of raw bytes is read one byte per character: each byte becomes the character with the same code.

Some behaviour of the code is easy to miss. Note that the code:
- passes the progress callback the whole content so far and the tool calls at indices 0 to len-1 so far, not only the new fragment;
- calls the callback for every chunk that has a choice, whether or not the chunk added text;
- keeps the first non-empty role and ignores later roles;
- copies the response metadata from every chunk for as long as the captured id is empty, so chunks with an empty id keep overwriting it;
- splits off no think tags on the streaming path;
- builds the tool-call list by walking the indices 0 to `len(map) - 1`, so a slot outside that range is dropped (`StreamFacts.SlotListShape`).

## Model

| member | source | states |
|---|---|---|
| StreamDecoder.Drive | openai.go:539-634 | No contract of its own; its properties are StreamDecoder.ParseSSEResponse, StreamSpec.DriveSteps and StreamSpec.DriveMatchesSpec |
| StreamDecoder.Decode | openai.go:530-659 | No contract of its own; its properties are StreamDecoder.ParseSSEResponse, StreamFacts.DecodeResult, StreamFacts.FinalMessage and StreamFacts.OkStopsAtFinish |
| StreamDecoder.Capture | openai.go:569-573 | No contract of its own; its properties are StreamFacts.MetadataFrozen, StreamFacts.MetadataOverwritten and StreamFacts.MetadataCaptured |
| StreamDecoder.MergeAll | openai.go:586-601 | No contract of its own; its properties are StreamDecoder.AccumulateToolCalls, StreamFacts.MergeAllAppend, StreamFacts.SlotPresent, StreamFacts.SlotExtended and StreamFacts.SlotCreated |
| StreamDecoder.Partial | openai.go:618-622 | No contract of its own; its properties are StreamFacts.DecodeResult, StreamFacts.EmittedPrefixes and StreamFacts.Callbacks |
| StreamDecoder.Final | openai.go:640-656 | No contract of its own; its properties are StreamFacts.FinalMessage and StreamFacts.DecodeResult |
| StreamDecoder.Outcome | openai.go:625-638 | No contract of its own; its properties are StreamFacts.DecodeResult and StreamFacts.Rejection |
| StreamDecoder.Absorb | openai.go:568-607 | No contract of its own; its properties are StreamDecoder.TakeChunk, StreamFacts.AbsorbAllContent, StreamFacts.AbsorbAllSlots and the Metadata and Role lemmas |
| StreamDecoder.SlotList | openai.go:609-615 | No contract of its own; its properties are StreamDecoder.CollectToolCalls, StreamFacts.WalkKept and StreamFacts.SlotListShape |
| StreamDecoder.ParseSSEResponse | openai.go:530-659 | The scanner loop returns exactly the result and the list of partials that the fold `Decode` gives for the same lines, decoder, callback and scanner error |
| StreamDecoder.ReadLine | openai.go:540-566 | The tests applied to one line (trim, blank, sentinel, data prefix, JSON parse) give the step `Classify` gives |
| StreamDecoder.Classify | openai.go:540-566 | A blank line is skipped; the step is Stop exactly when the trimmed line is `data: [DONE]`; a line without the `data: ` prefix is skipped; the step is Feed exactly when the line is a data line other than the sentinel and its payload parses, and then it carries the parsed chunk |
| StreamDecoder.TakeChunk | openai.go:568-607 | The in-place updates for one chunk give the state `Absorb` describes |
| StreamDecoder.MergeDelta | openai.go:586-601 | The slot keys gain the fragment's index; other slots are unchanged; an existing slot gets the fragment's arguments appended; a new slot takes the fragment's id, type, name and arguments |
| StreamDecoder.AccumulateToolCalls | openai.go:585-602 | The loop over a delta's fragments gives the in-order fold of `MergeDelta` |
| StreamDecoder.CollectToolCalls | openai.go:609-615 | The list built is the slots at indices 0 to len-1, in order; it has at most as many entries as the map, and each is a slot whose index lies in that range |
| StreamSpec.DriveSteps | openai.go:539-634 | The loop over lines is the loop over the chunks they carry before the sentinel; when it runs out of chunks it ends at the sentinel if there was one |
| StreamSpec.DriveFeed | openai.go:561-633 | One line that carries a chunk advances the fold over lines by one step of the fold over chunks |
| StreamSpec.StepsCons | openai.go:576-633 | One step of the loop on chunks: absorb, then for a chunk with a choice call the callback and stop on rejection or on a finish reason |
| StreamSpec.ScanStops | openai.go:625-632 | No flag before the end of the search for a halting chunk is raised, and a search that stops short of the end stops just after a raised flag |
| StreamSpec.ScanSkips | openai.go:625-632 | With no flag raised between two start points, the search gives the same result from either |
| StreamSpec.FlagAt | openai.go:625-632 | Flag j of the flag list is raised exactly when chunk j halts the loop |
| StreamSpec.CutPasses | openai.go:625-632 | No chunk before the cut halts the loop |
| StreamSpec.CutHalts | openai.go:625-632 | No chunk before the cut halts the loop, and a cut short of the end comes right after the chunk that halts it (rejected by the callback, or with a finish reason) |
| StreamSpec.StepOnce | openai.go:568-633 | From the state due for the first k chunks, chunk k either halts the loop with its reason or leads to the state due for the first k+1 chunks |
| StreamSpec.StepsFrom | openai.go:539-634 | From any chunk before which none halts, the loop on chunks ends with the state and partials due for the cut and the ending the account gives |
| StreamSpec.StepsHere | openai.go:625-632 | When chunk k is the first that halts, the loop from chunk k ends with the state, partials and ending of the account |
| StreamSpec.StepsPast | openai.go:617-633 | A chunk that does not halt passes the loop on: what holds from the next chunk holds from this one |
| StreamSpec.StepsAtEnd | openai.go:539-634 | When no chunk halts, the loop takes in all chunks and ends for want of them |
| StreamSpec.EmittedCount | openai.go:617-627 | There is one partial per chunk that has a choice |
| StreamSpec.DriveMatchesSpec | openai.go:539-634 | The loop is the declarative account: state of the chunks taken in, their partials, and why it ended |
| StreamFacts.DecodeResult | openai.go:625-658 | The partials are those due for the chunks taken in; a callback error is returned unchanged, else a scanner error prefixed with `error reading SSE stream: `, else the final message built from those chunks |
| StreamFacts.FinalMessage | openai.go:640-658 | The final content is the in-order concatenation of the content fragments; the tool calls are the fragments merged into an empty map and listed; there is no think part; the object is `chat.completion` |
| StreamFacts.OkStopsAtFinish | openai.go:625-632 | When the decoder succeeds, the chunks taken in are exactly the fed chunks up to and including the first whose choice has a finish reason, all of them if none has |
| StreamFacts.CutIsFirstFinish | openai.go:625-632 | Without a callback rejection, the cut lies right after the first chunk that finishes, or at the end |
| StreamFacts.CutFinishes | openai.go:625-632 | Without a callback rejection, a cut short of the end follows a chunk whose choice has a finish reason |
| StreamFacts.ScanEndsAt | openai.go:625-632 | The search for a raised flag ends at n when no flag before n - 1 is raised and either flag n - 1 is or n is the end |
| StreamFacts.AbsorbAllContent | openai.go:579-582 | Content fragments are appended in arrival order |
| StreamFacts.MergeAllAppend | openai.go:586-601 | Merging two runs of fragments is merging the first, then the second |
| StreamFacts.AbsorbAllSlots | openai.go:584-602 | The slot map is all the tool-call fragments taken in, merged in order; metadata and content play no part |
| StreamFacts.SlotPresent | openai.go:589-595 | A slot is present after merging iff it was before or some fragment addresses it |
| StreamFacts.SlotExtended | openai.go:597-600 | An existing slot keeps id, type and name and gains the arguments of its fragments, in order |
| StreamFacts.SlotCreated | openai.go:589-600 | A new slot takes id, type and name from its first fragment and the arguments of all its fragments, in order |
| StreamFacts.FinalSlot | openai.go:584-602 | For a whole stream, slot j exists iff some fragment addresses it, and holds the first fragment's identity with all of its arguments |
| StreamFacts.WalkKept | openai.go:609-615 | The list walk yields exactly the slots at the kept indices, in order |
| StreamFacts.KeptOrder | openai.go:611-614 | The kept indices lie below the bound, strictly ascend, and include every present slot below it |
| StreamFacts.KeptSize | openai.go:611-614 | As many indices are kept as there are slots below the bound |
| StreamFacts.SlotListShape | openai.go:642-647 | The final list holds the slots 0 to len-1 in ascending order; it has all of them iff every index lies in that range, and fewer otherwise |
| StreamFacts.MetadataFrozen | openai.go:568-573 | Once the captured id is non-empty, id, created and model never change |
| StreamFacts.MetadataOverwritten | openai.go:568-573 | While every chunk has an empty id, each one overwrites created and model, so the last chunk's remain |
| StreamFacts.MetadataCaptured | openai.go:568-573 | The metadata is that of the first chunk with a non-empty id |
| StreamFacts.RoleFrozen | openai.go:604-607 | Once set, the role never changes |
| StreamFacts.RoleUnset | openai.go:604-607 | Chunks that name no role leave the role as it was |
| StreamFacts.RoleFirst | openai.go:604-607 | The role is the first non-empty role of the stream |
| StreamFacts.EmittedPrefixes | openai.go:617-622 | Every partial's content is a prefix of the final content and of every later partial's content |
| StreamFacts.EmittedExtends | openai.go:617-627 | The partials of a longer run of chunks extend those of a shorter one |
| StreamFacts.Callbacks | openai.go:617-627 | The callback receives one assistant message per chunk taken in that has a choice, and their contents grow towards the final content |
| StreamFacts.SkippedLine | openai.go:542-566 | A blank, non-data or unparsable line contributes no chunk wherever it stands |
| StreamFacts.AfterSentinel | openai.go:547-550 | Nothing after the `data: [DONE]` line is read |
| StreamFacts.HaltedIgnoresRest | openai.go:625-632 | Once the loop has ended, further lines change nothing |
| StreamFacts.Rejection | openai.go:625-627 | A callback rejection ends the decoder with that error, whatever follows and whatever the scanner reports |
| Retry.IsRetryable | openai.go:153-177 | No contract of its own; its properties are Retry.RetryableMeans and the vector lemmas |
| Retry.RetryableMeans | openai.go:153-177 | An error is retryable exactly when it is not nil and its message contains one of the eight markers |
| Retry.RetryableVectors | sanity_test.go:18-27 | The 502 and 503 messages are retryable |
| Retry.TimeoutAndRateVectors | sanity_test.go:28-37 | The 504 and 429 messages are retryable |
| Retry.NetworkVectors | sanity_test.go:38-52 | The connection-refused, timeout and network messages are retryable |
| Retry.NonRetryableVectors | sanity_test.go:53-67 | The 400 and 401 messages and the nil error are not retryable |
| Retry.CappedDelay | openai.go:181-187 | The delay before jitter is base times 2 to the attempt, or the cap when that is larger; it lies between 1 and 30 seconds |
| Retry.BackoffDelay | openai.go:180-194 | No contract of its own; its properties are Retry.BackoffBounds and Retry.BackoffVectors |
| Retry.Jittered | openai.go:189-193 | No contract of its own; its properties are Retry.JitteredBounds |
| Retry.BackoffBounds | openai.go:180-194 | The delay is at least the capped delay and below a tenth more |
| Retry.CappedMonotone | openai.go:181-187 | The capped delay never shrinks from one attempt to a later one |
| Retry.CappedFrom | openai.go:181-187 | The delay reaches the cap exactly from attempt 5 on |
| Retry.BackoffVectors | sanity_test.go:80-122 | Attempts 0, 1, 2 and 10 wait within a tenth of 1, 2, 4 and 30 seconds, whatever the random factor |
| Retry.Attempts | openai.go:197-245 | No contract of its own; its properties are Retry.GenerateWithRetry, Retry.AttemptStep, Retry.AttemptsBound, Retry.AttemptsLedOn, Retry.FirstSuccess, Retry.NonRetryableStops, Retry.CancelledStops and Retry.Exhausted |
| Retry.Outcomes | openai.go:202-206 | No contract of its own: every attempt calls the API with the same converted messages and tools; its properties are Retry.GenerateWithRetry |
| Retry.GenerateWithRetry | openai.go:197-245 | The loop returns the result, the number of calls and the waits begun that `Attempts` and `Delays` give for the same outcomes, random factors and cancellations |
| Retry.AttemptStep | openai.go:206-240 | An attempt either leads on to the next or ends the loop with calls = attempt + 1, having waited after it only if that wait was cancelled |
| Retry.AttemptsBound | openai.go:200-241 | Between one and six calls are made, and every call but the last is followed by a wait, unless a wait was cancelled |
| Retry.AttemptsLedOn | openai.go:200-241 | Every call but the last failed with a retryable error, was not the sixth, and its wait was not cancelled |
| Retry.SkipTo | openai.go:200-241 | Attempts that all lead on can be skipped: the loop from the first is the loop from the last |
| Retry.FirstSuccess | openai.go:206-210 | The first success is returned unchanged and no further call is made |
| Retry.NonRetryableStops | openai.go:214-218 | A non-retryable error is returned at once, prefixed with `failed to generate (non-retryable): `, with no wait after it |
| Retry.CancelledStops | openai.go:234-237 | A cancellation during a wait returns the context's error, prefixed, and no further call is made |
| Retry.Exhausted | openai.go:220-244 | After six retryable failures the last error is returned with the attempt count, after five waits |
| Retry.WaitBounds | openai.go:225-240 | Every wait the loop begins lasts at least the capped delay of its attempt and less than a tenth more |
| GoText.Contains | openai.go:161-172 | No contract of its own; its properties are GoText.ContainsMeans |
| GoText.TrimSpace | openai.go:540 | No contract of its own; its properties are GoText.TrimSpaceShape |
| GoText.BytesToString | openai.go:328 | The string has one character per byte, each with that byte's code; see also GoText.BytesToStringRoundTrip |
| GoText.ContainsMeans | openai.go:161-172 | `Contains` holds exactly when the substring occurs at some position |
| GoText.TrimSpaceShape | openai.go:540 | The trimmed line is a slice that neither starts nor ends with a space, and everything outside it is space |
| GoText.TrimPrefix | openai.go:558 | With the prefix present, the prefix followed by the result is the line; otherwise the line is returned unchanged |
| GoText.BytesToStringRoundTrip | openai.go:327-328 | Bytes turned into a string come back unchanged |
| Base64.Encode | openai.go:318 | No contract of its own; its properties are Base64.EncodeLength, Base64.DecodeEncode, Base64.EncodeDecode and Base64.FakeImageDataVector |
| Base64.Decode | openai.go:318 | The strict decoder, the partner of Encode; no contract of its own; its properties are Base64.DecodeEncode and Base64.EncodeDecode |
| Base64.EncodeLength | openai.go:318 | The encoding has 4 characters per started group of 3 bytes |
| Base64.DecodeEncode | openai.go:318 | Decoding an encoding gives the bytes back |
| Base64.EncodeDecode | openai.go:318 | A string that decodes is the encoding of what it decodes to |
| Base64.FakeImageDataVector | sanity_test.go:186-195 | "fake-image-data" encodes to "ZmFrZS1pbWFnZS1kYXRh" |
| Translator.ConvertMessages | openai.go:263-340 | One wire message per message, in order, each the conversion of its message and keeping its role |
| Translator.ConvertMessage | openai.go:265-337 | The role is kept; only assistant messages carry tool calls; only tool results carry a call id |
| Translator.WireCall | openai.go:277-287 | No contract of its own; its properties are Translator.WireCalls |
| Translator.WireCalls | openai.go:276-288 | An assistant's tool calls are carried over one by one, in order, with id, type, name and arguments |
| Translator.ConvertTools | openai.go:343-356 | One function declaration per tool, in order, with name, description and schema unchanged |
| Translator.PlainMessages | openai.go:271-293 | User, assistant, tool-result and system messages carry their content as a string |
| Translator.ResourceContent | openai.go:294-334 | No contract of its own; its properties are Translator.FileResource, Translator.ImageResource, Translator.ImageResourceWithoutBytes and Translator.TextResource |
| Translator.FileCaption | openai.go:308-313 | No contract of its own; its properties are Translator.FileResource |
| Translator.DataUrl | openai.go:317-319 | No contract of its own; its properties are Translator.ImageResource and Translator.FakeImageDataUrl |
| Translator.FileResource | openai.go:296-314 | A `file://` resource becomes a file part (no text) whose id is the URI without the scheme, followed by a caption part (the description, else `File: ` and the name) exactly when one of the two is set |
| Translator.ImageResource | openai.go:315-320 | Image bytes become a `data:<mime>;base64,` URL whose payload decodes back to exactly those bytes |
| Translator.ImageResourceWithoutBytes | openai.go:321-324 | An image resource whose body is not bytes passes the body through |
| Translator.TextResource | openai.go:325-334 | Other byte bodies pass through as text, byte for byte; string bodies as they are; other bodies untouched |
| Translator.SanityFileWithName | sanity_test.go:145-164 | The file reference captioned by its name converts as the test expects |
| Translator.SanityFileWithDescription | sanity_test.go:165-185 | The file reference captioned by its description converts as the test expects |
| Translator.SanityImage | sanity_test.go:186-195 | The PNG resource converts to the expected data URL |
| Translator.FakeImageDataUrl | sanity_test.go:194 | The data URL of the PNG bytes is `data:image/png;base64,ZmFrZS1pbWFnZS1kYXRh` |
| RequestOptions.Bare | openai.go:360-364 | No contract of its own (the streaming path, openai.go:469-474, also sets `stream`); its properties are RequestOptions.StreamOnlyWhenStreaming and RequestOptions.SentKeysAsWritten |
| RequestOptions.Configure | openai.go:366-385 | No contract of its own; its properties are RequestOptions.ApplySettings, RequestOptions.ConfigureCopiesSetOnly and RequestOptions.ConfigureIdempotent |
| RequestOptions.BuildRequest | openai.go:360-385 | No contract of its own (the streaming path, openai.go:469-494, is the same with `stream` set); its properties are RequestOptions.StreamOnlyWhenStreaming and RequestOptions.SentKeysAsWritten |
| RequestOptions.Sent | openai.go:23-34 | No contract of its own: `omitempty` (RequestOptions.Written, RequestOptions.IsEmptyValue) applied to each field; its properties are RequestOptions.SentKeysAsWritten |
| RequestOptions.OptionalSent | openai.go:23-34 | No contract of its own: the same `omitempty` rule applied to the fields kept as pointers; its properties are RequestOptions.SentKeysOptional |
| RequestOptions.ApplySettings | openai.go:366-385 | The parameter block, one test per parameter, gives the request `Configure` describes |
| RequestOptions.ConfigureCopiesSetOnly | openai.go:476-494 | A set parameter reaches the request with its value, an unset one leaves the field as it was, and model, messages, tools and streaming flag are untouched |
| RequestOptions.ConfigureIdempotent | openai.go:366-385 | With nothing set the request is unchanged, and applying the parameters twice is applying them once |
| RequestOptions.StreamOnlyWhenStreaming | openai.go:469-474 | Only the streaming path sets `stream`, and the two paths otherwise build the same request |
| RequestOptions.SentKeysAsWritten | openai.go:23-34 | By the `omitempty` rule (an empty value of a tagged field is left out), as written, `model` and `messages` are always sent; `tools` and `stop` when non-empty; `stream` when streaming; a numeric parameter exactly when it was set to a non-zero value |
| RequestOptions.ZeroTemperatureDropped | openai.go:27 | A temperature explicitly set to 0 is not sent as written, and is sent when parameters are kept optional |
| RequestOptions.SentKeysOptional | openai.go:23-34 | With the parameters kept as pointers, the same `omitempty` rule sends a parameter exactly when it was set, zero or not |
| RequestOptions.OptionalSendsMore | openai.go:366-385 | Every key sent as written is sent with optional parameters, and a sent temperature is the one that was set |

## Left out

- HTTP: building the request, headers, the client timeout, status handling and reading bodies are I/O. Only the shape of the request body is modelled.
- JSON: `json.Marshal` and `json.Unmarshal` are not modelled. The chunk decoder is a parameter. Marshalling is modelled only as which top-level keys are written.
- The non-streaming response path (`openaiREST` after the call, including `ai.ExtractThinkTags`) is I/O plus a foreign call. In the retry loop its result is the input `call`.
- `NewModel`, `openaiGenerate` and `openaiStream` only wire functions together, and are not modelled.
- Logging (`slog.Warn`) is left out; it has no effect on results.
- `time.After` and `ctx.Done()` become the input `cancelled`, and `ctx.Err()` becomes the input `reason`. `rand.Float64()` becomes the input `jitter`. Concurrency is not modelled.
- Retry.BackoffDelay: float64 rounding is not modelled. The delay is computed in exact reals and truncated once, and `math.Pow` overflow cannot happen with unbounded integers. The bounds proved hold up to that rounding.
- RequestOptions.Sent: float parameters are reals, so Go's negative zero (also left out by `omitempty`) does not exist in the model.
- The `panic` for an unknown message kind cannot happen, because the message kinds form a closed datatype.
- `bufio.Scanner` line splitting and its 64 KiB token limit are left out. The body arrives already split into lines, and a scanner failure is the input `scanErr`.
- UTF-8: the model's text of a byte body is Go's `string(body)` read one byte per character. `json.Marshal` then writes each byte sequence that is not valid UTF-8 as U+FFFD; that replacement, and the UTF-8 encoding of the text on the wire, are not modelled.
- `Usage` and `ServiceTier` on responses, and the `Result` field of tool calls, are never set on the streaming path and are not modelled.
- Tool-call `index` on the request side is always 0, and `omitempty` drops it. Only its value is modelled.
- store.go (the Files API client) and embedder.go (an embedding call) are not part of this model.

## Findings

| source | as written | input that shows it | evidently intended | confidence | as-written member | corrected member |
|---|---|---|---|---|---|---|
| openai.go:27-31, 366-385 | The parameters are copied only when set (nil-pointer checks), but the request fields are plain numbers tagged `omitempty`, so a parameter explicitly set to 0 is dropped from the body | `Temperature` set to 0.0: the body has no `temperature` key, and the server uses its default | An explicitly set parameter is sent whatever its value, as the nil checks and their comment intend (pointer fields with `omitempty`) | medium, not executed | RequestOptions.ZeroTemperatureDropped | RequestOptions.SentKeysOptional |
