# afa conversation core, in Dafny

This project models the conversation core of `afa`, a command-line chat client for large language models. The core has four parts.

- **History** (`history.dfy`, module `History`) is the conversation log. It holds an append-only sequence of messages for one model. A session is "new" when that sequence is empty.
- **Session** (`session.dfy`, module `Session`) is the turn engine.
  - `Start` logs a system prompt when the history is new.
  - It then runs an optional seed turn, built from the message and the standard input.
  - In interactive mode it then loops over input lines. Blank lines only re-prompt, and `exit` stops the loop.
  - Each turn (`chatCompletionAndPrint`) logs the user message and calls the completion client, either atomically or as a stream. When the call succeeds, it logs exactly one reply.
  - The reader is the sequence of lines the scanner yields.
  - The writer is the sequence of writes made to it, one per `Fprint`/`Fprintln` call.
  - The completion client (`llm.dfy`, module `Llm`) is given as data: its atomic answer, and the events and final error of its stream.
  - Prompt rendering is given as a function.
- **Socket** (`socket.dfy`, module `Socket`) is the record transport to an external viewer.
  - The reader (`buffer` and `offset`) hands out one decoded record across caller buffers of any size.
  - The writer sends one record per write, plus the two sentinel records `__AFA_PROMPT__` and `__AFA_ERROR__`.
  - The gob encoding is a first-in first-out queue of byte records on a `Connection` object.
  - The module also builds the viewer's command line.
- **OpenAI** (`openai.dfy`, module `OpenAI`) is the chat-completions client.
  - It maps between the internal payload types (`payload.dfy`) and the wire types.
  - It checks the status code and refusals.
  - It runs the line loop of a streamed response. The loop reads a subset of the text/event-stream format of section 9.2 of the WHATWG HTML Living Standard ("Server-sent events"). It splits the body at LF bytes and trims each line. It keeps only lines starting with `data: `, takes each such line as one JSON payload, stops at `[DONE]` and raises one callback per payload. Where this differs from the standard is listed under "## Left out".
  - The HTTP round trip and JSON decoding are given as functions (`Backend`).

Each imperative part of the source is a method proved equal to a specification function, and the properties are proved about those functions:

- `Session.Session.Start` equals `Started`.
- `Session.Session.Loop` equals `Converse`.
- `OpenAI.ReadEvents` equals `LineLoop`.
- `OpenAI.RepackRequest` equals `Repacked`.

For example:

- `StartAppendsTurns` proves that `Start` runs exactly one turn per prompt, in order. Each reply is the client's answer to the history so far.
- `LineLoopIsFramingThenDelivery` proves that the stream loop is line framing followed by event delivery, up to the first `[DONE]`.
- `RoundTrip` proves that the socket reader gives back the bytes the writer sent, in order.

Four behaviours of the source are easy to misread:

- **Stream role.** The stream callback overwrites `role` with every non-empty role it receives (session.go:99-101). So the role logged is the *last* non-empty one, not the first (`Session.LastRole`, proved by `LastRoleIsLastNonEmpty`).
- **Disconnect.** `Disconnect` returns what `Conn.Close` returns (socket.go:129-131). Closing an already closed connection reports an error, so a second `Disconnect` is not a no-op (`Socket.SocketMessageWriter.Disconnect`).
- **A failed call leaves half a pair.** The user message is logged before the call (session.go:93), and the reply only after a successful one (session.go:120). A failed call therefore leaves the user message in the history with no reply (`Session.Turn`, `Session.TurnsFailedLast`).
- **io.EOF in `Read`.** The `io.EOF` test after the copy in `SocketMessageReader.Read` can never pass: the only assignment to `err` returns early when it is not nil. The model leaves the branch out, and `Read` is proved never to return an error.

## Model

| member | source | states |
|---|---|---|
| History.History.constructor | history.go:13-20 | A new history has the given model, no messages and no schema. |
| History.History.IsNewSession | history.go:22-24 | The history is new exactly when no message has been logged. |
| History.History.AddMessage | history.go:26-28 | The log grows by exactly one message, `(role, content)`, at the end. Every earlier message, the model and the schema are unchanged. |
| History.NewSessionScenario | history_test.go:5-15 | A fresh history is new, and after one `AddMessage` it is no longer new. |
| Socket.Copy | socket.go:100 | Go's `copy`: copies `min(len(dst), len(src))` leading bytes and leaves the rest of `dst` untouched. |
| Socket.Connection.constructor | socket.go:82-87 | A fresh connection, as the reader and writer constructors wrap it, holds no record and is open. |
| Socket.Connection.Encode | socket.go:123 | Queues exactly one record equal to `p`. On a closed connection it fails and queues nothing. |
| Socket.Connection.Decode | socket.go:93 | Takes the oldest record. With no record left it fails with EOF and changes nothing. |
| Socket.Connection.Close | socket.go:130 | The connection is closed and no queued record is lost. Closing twice reports an error. |
| Socket.SocketMessageReader.constructor | socket.go:82-87 | A new reader has an empty buffer at offset 0. |
| Socket.SocketMessageReader.Read | socket.go:89-107 | Decodes a new record only when `offset >= len(buffer)`, then sets the buffer to it and the offset to 0. A failed decode reads 0 bytes and changes nothing. It returns `n = min(len(p), len(buffer) - offset)`, copies `buffer[offset..offset+n]` into `p[..n]` and advances the offset by `n`. `0 <= offset <= len(buffer)` is kept, and the error is always nil. The bytes read are the front of what was pending, and every non-empty read of a non-empty backlog shrinks it. |
| Socket.SocketMessageWriter.constructor | socket.go:114-119 | The writer sends on the given connection. |
| Socket.SocketMessageWriter.Write | socket.go:121-127 | Sends exactly one record equal to `p` and returns `len(p)`. On an encoder error it returns 0 and that error, and sends nothing. |
| Socket.SocketMessageWriter.Disconnect | socket.go:129-131 | Closes the connection and keeps the records already sent. It reports an error when the connection was already closed. |
| Socket.SocketMessageWriter.Prompt | socket.go:133-138 | Sends exactly the record `__AFA_PROMPT__`, or propagates the write error and sends nothing. |
| Socket.SocketMessageWriter.Error | socket.go:140-145 | Sends exactly the record `__AFA_ERROR__`, or propagates the write error and sends nothing. |
| Socket.WriteAll | socket.go:121-127 | Successive writes on an open connection queue the chunks in order. |
| Socket.ReadAll | socket.go:89-107 | Successive reads return a prefix of the pending bytes, in order. Each non-empty buffer lowers the backlog until it is gone. |
| Socket.RoundTrip | socket.go:89-127 | For any buffer sizes, the bytes read back are a prefix of the concatenated records written. With enough non-empty buffers (one per byte and one per record), they are all of them. |
| Socket.NewClient | socket.go:47-59 | Fails exactly when the socket path does not exist or cannot be made absolute. On success the command line is `commands` followed by the absolute path, and nothing is started. |
| Socket.Wait | socket.go:68-73 | A client that was never started is not waited for and reports nil. Otherwise it reports the process's exit error. |
| OpenAI.Repacked | internal/llm/openai/client.go:154-177 | The wire request keeps the model and every message's role and content, in order, with an empty refusal. It asks for no stream. It has a response format exactly when a schema is given, a strict `json_schema` one carrying the schema's name and content. Unpacking gives the payload request back. |
| OpenAI.RepackRequest | internal/llm/openai/client.go:154-178 | The index loop that fills the wire messages builds exactly `Repacked(request)`. |
| OpenAI.StreamRequest | internal/llm/openai/client.go:67-69 | The streamed request is the atomic one with `stream` set to true, and it unpacks to the same payload request. |
| OpenAI.RepackResponse | internal/llm/openai/client.go:180-189 | The role and content of the first choice's message, or empty ones when there is no choice. |
| OpenAI.RepackResponseStream | internal/llm/openai/client.go:191-200 | The role and content of the first choice's delta, or empty ones when there is no choice. |
| OpenAI.RepackAgree | internal/llm/openai/client.go:180-200 | A whole response and a stream event with the same choices repack to the same payload response. |
| OpenAI.ChatCompletion | internal/llm/openai/client.go:36-65 | A failed post, or a status other than 200, is an error. It succeeds exactly when the status is 200, the body decodes and the first choice has no refusal, and then it returns the repacked response. |
| OpenAI.StatusBeforeDecoding | internal/llm/openai/client.go:81-87 | Under a status other than 200, neither the decoders nor the callback make any difference, and a stream delivers no event and ends in an error. |
| OpenAI.LineEnd | internal/llm/openai/client.go:91 | There is no line exactly when no newline is left. Otherwise the line ends in the first newline. |
| OpenAI.LineEndAt | internal/llm/openai/client.go:91 | The first newline determines where the first line ends. |
| OpenAI.SpaceEnd | internal/llm/openai/client.go:96 | The index where the white space starting at `i` stops: everything before it from `i` on is white space, and the byte at it is not. |
| OpenAI.SpaceStart | internal/llm/openai/client.go:96 | The index where the white space ending at `j` starts, not below `lo`: everything from it up to `j` is white space, and the byte before it is not. |
| OpenAI.TrimSpace | internal/llm/openai/client.go:96 | `bytes.TrimSpace`: the result is the slice of the input that starts where the leading white space stops. Only white space lies outside it, and it neither starts nor ends with white space. |
| OpenAI.ReadBytes | internal/llm/openai/client.go:91-94 | Returns the bytes up to and including the next newline, and what follows them. With no newline left it returns the body's end error. |
| OpenAI.DataWithoutSpaceSkipped | internal/llm/openai/client.go:96-99 | A line `data:x` (no space after the colon) is not a `data: ` line: the loop skips it and ends with the body's end error, having delivered nothing. |
| OpenAI.Streamed | internal/llm/openai/client.go:67-123 | Specification function with no contract of its own; it is `ChatCompletionStream` as a value, which that method is proved equal to: a failed post is its error, a status other than 200 gives the status error (with the body when it reads whole), and otherwise the line loop runs. |
| OpenAI.LineLoop | internal/llm/openai/client.go:89-122 | Specification function with no contract of its own; it is the line loop as a value, which `ReadEvents` is proved equal to. A line that is not a `data: ` line is skipped, a payload ending in `[DONE]` ends with no error, any other payload is handled, and running out of lines ends with the body's read error. |
| OpenAI.ChatCompletionStream | internal/llm/openai/client.go:67-123 | Its callback calls and final error are `Streamed`: a failed post or a status other than 200 is an error before any callback, and otherwise the line loop runs. |
| OpenAI.ReadEvents | internal/llm/openai/client.go:89-122 | The `for` loop, with its `continue` and `break`, delivers exactly the events and error of the line loop `LineLoop`. |
| OpenAI.HandleEvent | internal/llm/openai/client.go:106-119 | One payload: a decode error or a refusal stops the loop without calling `onData`. An `onData` error stops it after the call. Otherwise the loop goes on with the event. |
| OpenAI.HandlePayload | internal/llm/openai/client.go:106-119 | The loop goes on exactly when the payload decodes, carries no refusal and `onData` accepts its event. When it stops, the error is the decode error, the refusal or the `onData` error. The event is delivered only when `onData` was called. |
| OpenAI.LinesPrefix | internal/llm/openai/client.go:91 | The lines the reads return are, concatenated, a prefix of the body. |
| OpenAI.LinesSplit | internal/llm/openai/client.go:91 | What the lines leave of the body has no newline. |
| OpenAI.LinesEndInNewline | internal/llm/openai/client.go:91 | Each line is non-empty and ends in its first and only newline. |
| OpenAI.BeforeDone | internal/llm/openai/client.go:102-104 | The loop stops at the first payload ending in `[DONE]`: the payloads handled are the prefix before it. |
| OpenAI.LineLoopIsFramingThenDelivery | internal/llm/openai/client.go:89-122 | The loop handles the `data: ` payloads of the complete trimmed lines, in order, up to the first `[DONE]`. Other lines are skipped. It ends with no error when a `[DONE]` was seen, and with the body's read error otherwise. |
| OpenAI.DeliverAll | internal/llm/openai/client.go:106-119 | When every payload decodes, carries no refusal and is accepted by `onData`, each payload's event is delivered exactly once, in order. |
| OpenAI.DeliverStops | internal/llm/openai/client.go:106-119 | At the first payload not accepted, the loop stops with its error (the decode error, the refusal or the `onData` error). The events before it were delivered. Its own event was delivered only when `onData` was the one that failed. |
| OpenAI.NewClient | internal/llm/client.go:15-18 | The client `GetLLMClient` returns: its atomic answer is `ChatCompletion` over the backend, and its stream is `Streamed` with a callback that never fails, as the session's callback never does. |
| Session.Exchange | session.go:95-119 | One completion call. It fails exactly when the client's call fails, and then with the client's own error. An atomic reply is the response's message verbatim. A streamed reply has the last non-empty role and the concatenated content. |
| Session.Chunks | session.go:102-104 | One write per streamed event, each equal to that event's content. |
| Session.LastRoleIsLastNonEmpty | session.go:95-101 | The stream role is the role of the last event that has a non-empty one. It is `""` exactly when no event has a role. |
| Session.ChunksSpellContent | session.go:102-104 | The chunks written spell out the content that is logged. |
| Session.Accumulate | session.go:95-106 | The callback, applied to each event in turn, leaves the last non-empty role and the concatenated content, and writes the chunks in arrival order. |
| Session.OutputMatchesReply | session.go:97-119 | On success, in both modes, exactly the reply's content and a newline are written. A stream writes its chunks first, in arrival order. |
| Session.StreamedLikeAtomic | session.go:97-120 | A stream of `"Hel"` (role `assistant`) and `"lo"` logs the same reply as an atomic `("assistant", "Hello")`. |
| Session.Turn | session.go:90-123 | The old messages stay. The next one is `("user", prompt)`. When the call succeeds it is followed by exactly the client's reply. When the call fails nothing follows, and the error returned is the client's. |
| Session.SplitLines | session.go:52 | `strings.Split` on newline: at least one piece, and no piece has a newline. |
| Session.SplitJoin | session.go:52 | Joining the pieces with newlines gives the prompt back. |
| Session.Echo | session.go:52-55 | The seed turn first writes each line of the prompt after `"> "`, with a newline. |
| Session.UntilExit | session.go:76-78 | The lines read are those before the first `exit`. |
| Session.NonBlank | session.go:72-75 | Blank lines call nothing: a line is among the prompts exactly when it is an input line that is not blank. |
| Session.NonBlankAppend | session.go:70-75 | The filter works line by line. A single line is kept unless it is blank, and the filter of a concatenation is the concatenation of the filters. So the prompts keep the order of the input. |
| Session.Converse | session.go:68-85 | Specification function with no contract of its own; it is the scanner loop as a value, which `Loop` is proved equal to and `ConverseRunsPrompts` describes. A blank line writes `"> "` and calls nothing. `exit` or the end of input stops with no error. Any other line is one turn, and a failed turn ends the loop with its error. |
| Session.TurnsLength | session.go:80-83 | Turns add two messages per prompt. A failed call ends the run with an odd count. |
| Session.TurnsUserAt | session.go:93 | In a run of turns, the k-th user message is the k-th prompt. |
| Session.TurnsReplyAt | session.go:120 | In a run of turns, the message after the k-th user message is the client's reply to everything logged up to and including it. |
| Session.TurnsFailedLast | session.go:80-83 | A failed run ends with a user message the client failed to answer. |
| Session.ConverseRunsPrompts | session.go:68-85 | The loop keeps the old history and runs exactly one turn per non-blank line before the first `exit` or the end of input, in order. It stops at the first call that fails. |
| Session.ConverseTurnFails | session.go:80-83 | When the first prompt's call fails, the loop ends with an error and only that user message is logged. |
| Session.ConverseErrorIsCallError | session.go:80-83 | The error the loop returns is the client's: it is the failure the client gives for the history the loop leaves, whose last message is the unanswered prompt. |
| Session.ConverseTurnSucceeds | session.go:80-84 | When the first prompt's call succeeds, its two messages are followed by the turns of the rest of the input. |
| Session.ExitEndsLoop | session.go:76-78 | Nothing after the first `exit` is ever read. |
| Session.HiThenExit | session.go:70-85 | The input `hi` then `exit` runs one turn, for `hi`, and nothing more. |
| Session.Session.constructor | session.go:24-35 | The session holds the given history, template paths, flags and client. |
| Session.Session.Started | session.go:37-88 | Specification function with no contract of its own; it is `Start` as a value, which that method is proved equal to and `StartAppendsTurns` describes. When the history is new, a system-prompt render failure returns that error, and otherwise the system message is logged. Then the seed step runs. |
| Session.Session.Seeded | session.go:46-88 | Specification function with no contract of its own; it is the seed step followed by the loop step, as `SeedThenLoop` runs them. With a message or piped input, the user prompt is rendered (a failure returns its error), echoed and sent as one turn. A failed turn ends the run. Anything else goes on to the loop after a newline. |
| Session.Session.Interact | session.go:64-85 | Specification function with no contract of its own; it is the loop step as a value, as `AfterSeed` runs it: nothing unless interactive, and otherwise `"> "` and the scanner loop. |
| Session.Session.ChatCompletionAndPrint | session.go:90-123 | The history, writes and error are those of `Turn` on the old history. The model and schema are unchanged. |
| Session.Session.Loop | session.go:68-85 | The scanner loop leaves the history, writes and error of `Converse` on the old history. |
| Session.Session.Seed | session.go:46-62 | The seed turn writes the echo of the prompt, then does exactly what `Turn` does. |
| Session.Session.Start | session.go:37-88 | The history, writes and error are those of `Started` on the old history. |
| Session.Session.SeedThenLoop | session.go:46-88 | After the system prompt, Start does exactly what `Seeded` does. |
| Session.Session.AfterSeed | session.go:64-88 | After the seed step, Start returns unless interactive and otherwise writes `"> "` and runs the loop. |
| Session.SeededRunsTurns | session.go:46-88 | After the system prompt, a user prompt that fails to render logs nothing. Otherwise the seed turn, if any, and then the loop's turns run one per sent prompt. |
| Session.SeedTurnRuns | session.go:46-62 | The seed turn runs when the message or standard input is non-empty and the prompt renders. It is followed by the loop's turns unless it fails. |
| Session.StartAppendsTurns | session.go:37-88 | A system message is added, right after the old messages, exactly when the history was new. A failed system render returns at once and logs nothing. A failed user render logs nothing more. Otherwise exactly one turn runs per sent prompt (the seed, then the loop's prompts when interactive), in order, up to the first failed call. |
| Session.SeededErrorIsCallError | session.go:46-85 | After the system prompt, an error other than the user prompt's render error is the error the client gave for the history Start leaves. |
| Session.StartErrorIsCallError | session.go:37-88 | Start returns the system prompt's render error, or else the user prompt's render error, or else the error the client gave to the last call. That call's request is the history Start leaves. |
| Session.InteractRunsPrompts | session.go:64-85 | In interactive mode the first write is `"> "` and the loop runs the input's prompts. Otherwise nothing is called, nothing is written and no error is returned. |
| Session.NonInteractiveIgnoresInput | session.go:64-66 | Without the interactive flag, Start never reads its input. |

## Left out

- `NewServer`, `Server.Listen`, `Server.Accept` and `Client.Start` (socket.go:18-40, socket.go:61-66) are OS sockets and subprocess launching. `Wait` takes the exit error of the process as given.
- The gob encoding is a first-in first-out queue of records. A decode with nothing queued fails with EOF, as when the peer has closed. Blocking until a record arrives is not modelled.
- `newJsonRequest` and `postJson` (the HTTP request, its endpoint constants and the `Authorization` header), and JSON encoding and decoding, are foreign library calls. They become the `Backend` functions `post`, `decodeResponse` and `decodeEvent`. The API key placed in the context (session.go:91) is not part of this model.
- Error values are constructors of `Base.Error`, not the formatted Go message strings.
- `NewPrompt` (template rendering) is given as a `Renderer` function.
- The completion client that `NewSession` picks through `GetLLMClient` is passed to the session's constructor. The session has no `Config` field: the source uses its `Config` only for the API key, which is left out above.
- The completion client is data: its stream is the list of events handed to the callback, and then its error. In the source the callbacks interleave with network reads. `chatCompletionAndPrint`'s callback never fails, so the writes and the logged reply are the same.
- Scanner errors and the scanner's line-length limit are not modelled: the input is the sequence of lines the scanner yields, and its end is the end of input. `Start` does not look at `scanner.Err()` either.
- OpenAI.ChatCompletion: a 200 body whose first choice is `null` or has no `message` (`{"choices":[{}]}`) makes the source read through a nil reference and panic (internal/llm/openai/client.go:59 and :183). The wire types here hold values that cannot be nil, so such a body cannot be expressed and the panic is not modelled. The same holds for a `null` streamed choice (internal/llm/openai/client.go:112 and :194).
- OpenAI.LineLoop reads only part of the text/event-stream format:
  - a `data:` line with no space after the colon is skipped (`OpenAI.DataWithoutSpaceSkipped`), where the standard accepts it;
  - every `data: ` line is its own payload, where the standard joins the `data` lines of one event with newlines and dispatches the event at a blank line;
  - lines end only at LF, where the standard also ends them at CR and CRLF;
  - `event:`, `id:` and `retry:` fields, and comment lines, are skipped as non-`data: ` lines rather than interpreted.

  The model follows the source in all of these.
- OpenAI.TrimSpace: only ASCII white space is trimmed. The Unicode spaces that `bytes.TrimSpace` also removes are not modelled.
- Session strings are sequences of characters. The byte encoding of Go strings is not modelled there. The OpenAI line loop works on bytes.
- Socket.RoundTrip: proves full reproduction only once enough of the read buffers are non-empty, not "for any buffer sizes". A zero-length buffer reads nothing, and a few reads cannot hold all the bytes.
- Not part of this model: `workspace.go`, `main.go`, `prompt_template.go`, `option.go`, `secret.go`, the stubs `command.go` and `aiforall.go`, and `llm_client.go`.
- Dry run and mock run are not modelled: `option.go` declares the `DryRun` and `MockRun` flags (option.go:18-19), but `session.go` never reads them. Quoting the prompt and deciding whether to save or remove a session happen outside `session.go`, and are not part of this model.
- `history_test.go` calls `NewHistory` with three arguments. The one-argument definition in `history.go` is the one modelled.
