# Question-answering relay: a verified model of its own logic

The relay forwards a user's question to a hosted assistant and streams the
run's progress back to a browser. The server (`server.js`) has one endpoint,
`POST /api/query/stream`. It does four things:

- picks or creates a conversation thread in a process-wide registry;
- starts a run and polls it;
- writes at most one `text/event-stream` frame (`data: <json>` and a blank
  line) per observed status;
- when the run completes, rewrites citation markers in the newest answer as
  `[0]`, `[1]`, … and resolves each cited file to its name.

The React client (`client/src/App.js`) submits the question. It reads the
response chunk by chunk and splits each chunk on newlines. It folds each
`data:` payload in order into its state (status text, messages, error,
thread id and loading flag) until an `error` payload or a parse failure.
It can also cancel the request through an `AbortController`.

The remote engine is replaced by what it answers:

- the id a thread creation yields, or a failure;
- whether posting the message and starting the run succeed;
- a finite sequence of polled statuses, where a poll may also throw;
- the message listing, or a failure;
- a file lookup that may fail.

Modules, one per component:

- `Text`: the JavaScript string operations the code relies on.
- `Sessions`: the thread registry and get-or-create.
- `Citations`: history building and the citation loop.
- `Relay`: the polling loop and the whole handler.
- `EventStream`: frame text and the client's per-chunk line decoder.
- `Client`: the React state as a class, with its handlers.
- `Protocol`: what a whole response does to the client's state.

Four behaviours of the code that the model keeps as written:

- The client decoder does no buffering across chunks. A chunk boundary inside
  a frame hands a truncated payload to `JSON.parse`
  (`EventStream.CutFrameDecodesPartially`).
- A submit does not wait for an in-flight request; it aborts it.
- Every `textCreated` frame carries the thread id, not only those of new
  threads.
- A citation is `{text, filename}`.

## Model

| member | source | states |
|---|---|---|
| `Text.IndexOf` | server.js:104 | the position found is the leftmost occurrence of the pattern; no position means the pattern occurs nowhere |
| `Text.ReplaceFirst` | server.js:104 | `replace` with a string pattern: only the leftmost occurrence is replaced, and the text is unchanged when the pattern is absent |
| `Text.Split` | client/src/App.js:69 | `split("\n")` yields at least one piece, no piece contains the separator, and joining the pieces gives the chunk back |
| `Text.SplitJoin` | client/src/App.js:69 | splitting the join of separator-free pieces gives the pieces back |
| `Text.DecimalRoundTrip` | server.js:104 | the decimal text of `${index}` reads back as the index |
| `Citations.OrdinalInjective` | server.js:104 | distinct annotation indices get distinct ordinals `[index]` |
| `Text.TrimEmptyIffBlank` | client/src/App.js:35 | `!query.trim()` holds exactly when every character of the query is ECMAScript white space or a line terminator |
| `Sessions.Resolve` | server.js:31-40 | a truthy, registered incoming id is reused and the registry is unchanged; otherwise the created id is returned and added; a failed creation adds nothing; no entry is ever removed |
| `Sessions.ReplayGrows` | server.js:38 | across any sequence of requests the registry only grows |
| `Sessions.DeliveredIdReused` | server.js:32-33 | once a thread id has been handed out, any later request carrying it reuses it without creating a thread |
| `Sessions.ThreadRegistry.constructor` | server.js:17 | the registry starts empty |
| `Sessions.ThreadRegistry.GetOrCreate` | server.js:31-40 | the returned id and the new registry are those of `Resolve` on the old registry |
| `Citations.Reverse` | server.js:88 | the reversed list has the same length, and entry i is the original's entry n-1-i |
| `Citations.History` | server.js:84-88 | one entry per listed message, oldest first, with empty citations and the first text part as content or '' when the first part is not text |
| `Citations.ResolveCitations` | server.js:94-118 | the loop yields the processed text and the citations of all annotations; with no annotations the text is unchanged and there are no citations |
| `Citations.CitedIsSubsequence` | server.js:106-116 | the citations are the annotations that cite a file whose lookup succeeds, in annotation order, each with its marker and filename; a failed lookup drops only its own citation; there are never more citations than annotations |
| `Citations.ProcessedIgnoresFiles` | server.js:100-117 | the ordinal of the k-th annotation is k whether or not it cites a file: the processed text depends only on the markers |
| `Citations.FinalHistory` | server.js:91-123 | only the newest entry, which is last, gets the processed text and the citations, and only when the newest message starts with a text part; every other entry is the plain mapping of its message |
| `Citations.CompleteHistory` | server.js:84-123 | builds exactly `FinalHistory` of the listing |
| `Citations.RefundWindowExample` | server.js:97-118 | an answer ending "30 days【abc123】." with one file-citation annotation becomes "30 days[0]." and carries that file's name |
| `Relay.TerminalFrame` | server.js:81-139 | a terminal poll writes a frame with `done: true`: the generic error for a thrown poll, "Assistant run failed" for `failed`, `messageDone` with the final history for `completed`, and the generic error if the listing throws |
| `Relay.ProgressFrames` | server.js:72-145 | a non-terminal poll writes at most one frame and never a terminal one |
| `Relay.PollStreamLength` | server.js:68-149 | the loop writes at most one frame per observed poll |
| `Relay.PollStreamEndsIff` | server.js:68-149 | the stream ends exactly when some observed poll is `completed`, `failed` or throws |
| `Relay.PollStreamOneTerminal` | server.js:125-139 | a frame is terminal exactly when the stream has ended and it is the last frame, so no frame follows a terminal one |
| `Relay.PollStreamLastFrame` | server.js:81-139 | the last frame is the one of the first terminal poll |
| `Relay.PollStreamExtends` | server.js:132-139 | observing more polls only appends frames, and appends nothing once the stream has ended |
| `Relay.SilentFinalNeverEnds` | server.js:68-149 | polls that observe only `cancelled`, `expired` or `incomplete` write no frame and leave the response open: the loop does not stop on these final statuses |
| `Relay.InProgressRepeats` | server.js:72-79 | n `in_progress` polls write n `inProgress` frames, with no de-duplication |
| `Relay.PollOnce` | server.js:69-145 | one pass of the loop writes the terminal frame and stops on a terminal poll, and writes the progress frames otherwise |
| `Relay.PollRun` | server.js:67-149 | the loop writes exactly the stream `PollStream` describes |
| `Relay.Handled` | server.js:19-160 | if the setup succeeds, the first frame is `textCreated` with the resolved thread id; otherwise the response is the lone generic error; one terminal frame, the last, exactly when the response ended |
| `Relay.FailedRunEndsWithError` | server.js:133-139 | a run whose first terminal status is `failed` ends with "Assistant run failed" and writes no `messageDone` |
| `Relay.HandleQuery` | server.js:19-160 | the frames, end of stream and registry are those of `Handled` |
| `EventStream.FrameDecodes` | client/src/App.js:69-73 | a frame whose payload has no newline splits into its `data:` line and two empty lines, and decodes to that payload behind a space |
| `EventStream.FrameThenDecodes` | client/src/App.js:68-73 | a whole frame at the head of a chunk contributes exactly its payload |
| `EventStream.BodyDecodes` | client/src/App.js:68-73 | a chunk of whole frames decodes to their payloads in order |
| `EventStream.CutFrameDecodesPartially` | client/src/App.js:68-69 | a chunk cut inside a frame hands the truncated payload to `JSON.parse` |
| `Client.ApplyData` | client/src/App.js:75-98 | an `error` payload sets the error to its message, clears loading and returns; a thread id is adopted only if the request started without one; `started` and `in_progress` set their status texts; `completed` replaces the messages, clears status and query and ends loading; other payloads change nothing else |
| `Client.ApplyPayloadsStops` | client/src/App.js:75-79 | once an `error` payload has returned or a payload failed to parse, no further payload of the chunk is applied |
| `Client.ThreadIdKept` | client/src/App.js:81-83 | a thread id the request started with is never overwritten |
| `Client.DataLinesStep` | client/src/App.js:71-100 | the lines of a chunk are applied one at a time, skipping lines without the `data: ` prefix |
| `Client.ErrorText` | client/src/App.js:103-107 | an `AbortError` shows "Request cancelled" and any other exception "Failed to send message" |
| `Client.App.constructor` | client/src/App.js:7-14 | the initial state: empty query, an empty message list, not loading, no status, error or thread, no controller |
| `Client.App.Cancel` | client/src/App.js:24-31 | without a controller nothing changes; otherwise it is aborted, the slot is cleared, loading ends and the status is "Request cancelled" |
| `Client.App.Submit` | client/src/App.js:33-46 | a blank query changes nothing and aborts nothing; otherwise the old controller is aborted, a fresh one installed, loading set and the error cleared |
| `Client.App.ApplyLine` | client/src/App.js:72-98 | one line has the effect `ApplyData` gives its parsed payload, if it is a `data:` line |
| `Client.App.Settle` | client/src/App.js:109-111 | the `finally` block clears the controller slot |
| `Client.App.Fail` | client/src/App.js:102-111 | the error text for the exception, loading false, and an empty controller slot |
| `Client.App.ReceiveChunk` | client/src/App.js:68-100 | the chunk's payloads are applied in order; an `error` return or a parse failure ends the request with an empty controller slot; the start-time thread id is kept |
| `Client.App.Read` | client/src/App.js:64-101 | after a cancel, a read applies nothing and ends in "Request cancelled"; otherwise end of stream, a rejected read and a chunk each have their effect; the slot is empty on every exit; the start-time thread id is kept, so successive reads compose |
| `Protocol.Decoded` | server.js:60-158 | the client sees `event: "error"` exactly on error frames and `status: "completed"` exactly on `messageDone` frames, with their message and history |
| `Protocol.PollStreamCarries` | server.js:73-78 | every polling frame that carries a thread id carries the thread being polled |
| `Protocol.ClientAppliesFrames` | client/src/App.js:71-98 | reading frames where only the last may be terminal: a final `messageDone` installs its history, a final `error` shows its message and returns, and a started-without-thread request adopts the server's thread id |
| `Protocol.RequestRoundTrip` | client/src/App.js:33-111 | after a whole response read as one chunk, the client holds the delivered history or the server's error message; a client without a thread adopts the resolved one |

## Left out

- The remote calls (thread creation, message post, run start, run retrieval, message listing, file retrieval) are inputs. The assistant, the vector store and the query text are passed through to the engine only and are not modelled.
- The file lookup is a function of the file id, so two lookups of the same id give the same answer.
- Express, CORS, dotenv, response headers, `console.log` and `app.listen` are I/O plumbing.
- The 500 ms wait between polls is timing. Polling runs over a finite prefix of observed statuses; a prefix with no terminal status leaves the response open. A run that ends as `cancelled`, `expired` or `incomplete` is such a case: the loop stops only on `completed`, `failed` or an exception, so it polls that run forever (`Relay.SilentFinalNeverEnds`).
- `JSON.stringify`, `JSON.parse` and `TextDecoder` are abstract. The server writes `Payload` values. The client parses through a `Parser` function, and `Protocol.JsonAgrees` states what the two must agree on. Payload fields of an unexpected JSON type are not modelled.
- `Text.ReplaceFirst` does not model the `$` patterns of a replacement string. The replacement `[k]` never contains `$`.
- Markers are always strings. A missing marker, which JavaScript would coerce to "undefined", is not modelled.
- The registry is a set of ids, because the source's `Map` only ever stores `true`.
- React rendering, markdown, scrolling and the `fetch` request itself are not modelled. `AbortController` is reduced to its aborted flag; a read after an abort rejects with `AbortError`.
- The client's `while (true)` read loop is a sequence of `Client.App.Read` calls, one per `reader.read()`. This lets `Client.App.Cancel` run between two reads, as it can at the `await`.
- Concurrency is not modelled: two overlapping `handleSubmit` calls, and races on the registry between concurrent requests. A submit that preempts a request in flight replaces that request's bookkeeping. The older call's own `catch`/`finally`, which would clear the newer controller, is not modelled.
