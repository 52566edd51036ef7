/** The OpenAI chat-completions client (internal/llm/openai/client.go): the
    mapping between the payload types and the wire types, the status and
    refusal checks, and the line loop that reads a streamed response (the
    part of the text/event-stream format that the client reads). The
    HTTP exchange and JSON decoding are collaborators given as functions. */
module OpenAI {
  import opened Base
  import Payload
  import Llm

  const StatusOK := 200

  /** The bytes of "data: ", the prefix of an event line. */
  const DataPrefix: seq<byte> := [100, 97, 116, 97, 58, 32]

  /** The bytes of "[DONE]", which ends a stream. */
  const DataSuffix: seq<byte> := [91, 68, 79, 78, 69, 93]

  const Newline: byte := 10

  // The wire types.

  datatype Message = Message(role: string, content: string, refusal: string)
  datatype JsonSchema = JsonSchema(name: string, strict: bool, schema: Option<string>)
  datatype ResponseFormat = ResponseFormat(formatType: string, jsonSchema: JsonSchema)
  datatype Request = Request(model: string, messages: seq<Message>, stream: bool,
                             responseFormat: Option<ResponseFormat>)
  datatype Choice = Choice(message: Message)
  datatype Response = Response(choices: seq<Choice>)
  datatype ChoiceStream = ChoiceStream(delta: Message)
  datatype ResponseStream = ResponseStream(choices: seq<ChoiceStream>)

  /** A response body: its bytes, and the error a read past them reports
      (io.EOF for a body that arrived whole, anything else for a broken one). */
  datatype Body = Body(data: seq<byte>, end: Error)

  /** The outcome of building and posting the JSON request. */
  datatype HttpResult = PostFailed(error: Error) | Posted(statusCode: int, body: Body)

  /** The collaborators of the client: the HTTP round trip for a request, and
      the JSON decoding of a whole body and of one event payload. */
  datatype Backend = Backend(
    post: Request -> HttpResult,
    decodeResponse: Body -> Result<Response>,
    decodeEvent: seq<byte> -> Result<ResponseStream>)

  /** The `onData` callback of a streamed completion. */
  type Callback = Payload.Response -> Option<Error>

  // Repacking the request.

  /** The payload request a wire request carries (the inverse of repacking). */
  function Unpacked(r: Request): Payload.Request
  {
    Payload.Request(
      r.model,
      seq(|r.messages|, i requires 0 <= i < |r.messages| => Payload.Message(r.messages[i].role, r.messages[i].content)),
      match r.responseFormat
      case None => None
      case Some(format) => Some(Payload.JsonSchema(format.jsonSchema.name, format.jsonSchema.schema)))
  }

  /** The wire request for a payload request: nothing of it is lost, it asks
      for no stream, there is no refusal in it, and it has a response format
      exactly when a schema is given, a strict "json_schema" one. */
  function Repacked(request: Payload.Request): (r: Request)
    ensures Unpacked(r) == request
    ensures !r.stream
    ensures forall i :: 0 <= i < |r.messages| ==> r.messages[i].refusal == ""
    ensures r.responseFormat.Some? <==> request.jsonSchema.Some?
    ensures r.responseFormat.Some? ==>
              r.responseFormat.value.formatType == "json_schema" && r.responseFormat.value.jsonSchema.strict
  {
    var messages := seq(|request.messages|, i requires 0 <= i < |request.messages| =>
                          Message(request.messages[i].role, request.messages[i].content, ""));
    var format := match request.jsonSchema
                  case None => None
                  case Some(s) => Some(ResponseFormat("json_schema", JsonSchema(s.name, true, s.schema)));
    var r := Request(request.model, messages, false, format);
    assert Unpacked(r).messages == request.messages;
    r
  }

  /** repackRequest: fills the wire messages one index at a time. */
  method RepackRequest(request: Payload.Request) returns (repacked: Request)
    ensures repacked == Repacked(request)
  {
    var messages := new Message[|request.messages|];
    for i := 0 to |request.messages|
      invariant forall k :: 0 <= k < i ==>
                  messages[k] == Message(request.messages[k].role, request.messages[k].content, "")
    {
      messages[i] := Message(request.messages[i].role, request.messages[i].content, "");
    }
    repacked := Request(request.model, messages[..], false, None);
    if request.jsonSchema.Some? {
      var s := request.jsonSchema.value;
      repacked := repacked.(responseFormat := Some(ResponseFormat("json_schema", JsonSchema(s.name, true, s.schema))));
    }
  }

  /** The request a streamed completion posts: the atomic one asking for a stream. */
  function StreamRequest(request: Payload.Request): (r: Request)
    ensures r.stream && r.(stream := false) == Repacked(request)
    ensures Unpacked(r) == request
  {
    Repacked(request).(stream := true)
  }

  // Repacking a response.

  /** repackResponse: the role and content of the first choice, none of its
      refusal; empty ones when there is no choice. */
  function RepackResponse(response: Response): (r: Payload.Response)
    ensures |response.choices| > 0 ==>
              r.message == Payload.Message(response.choices[0].message.role, response.choices[0].message.content)
    ensures |response.choices| == 0 ==> r.message == Payload.Message("", "")
  {
    if |response.choices| > 0 then
      Payload.Response(Payload.Message(response.choices[0].message.role, response.choices[0].message.content))
    else
      Payload.Response(Payload.Message("", ""))
  }

  /** repackResponseStream: the same, for the delta of the first streamed choice. */
  function RepackResponseStream(response: ResponseStream): (r: Payload.Response)
    ensures |response.choices| > 0 ==>
              r.message == Payload.Message(response.choices[0].delta.role, response.choices[0].delta.content)
    ensures |response.choices| == 0 ==> r.message == Payload.Message("", "")
  {
    if |response.choices| > 0 then
      Payload.Response(Payload.Message(response.choices[0].delta.role, response.choices[0].delta.content))
    else
      Payload.Response(Payload.Message("", ""))
  }

  /** A whole response and a stream event with the same choices repack alike. */
  lemma RepackAgree(choices: seq<Message>)
    ensures RepackResponse(Response(seq(|choices|, i requires 0 <= i < |choices| => Choice(choices[i])))) ==
            RepackResponseStream(ResponseStream(seq(|choices|, i requires 0 <= i < |choices| => ChoiceStream(choices[i]))))
  {
  }

  // The atomic completion.

  /** The refusal of the first choice, or "" when there is none. */
  function Refusal(response: Response): string
  {
    if |response.choices| > 0 then response.choices[0].message.refusal else ""
  }

  function StreamRefusal(response: ResponseStream): string
  {
    if |response.choices| > 0 then response.choices[0].delta.refusal else ""
  }

  /** ChatCompletion: posts the repacked request; a failed post, a status other
      than 200, a body that does not decode and a refused answer are errors;
      otherwise the repacked response. */
  function ChatCompletion(request: Payload.Request, backend: Backend): (r: Result<Payload.Response>)
    ensures backend.post(Repacked(request)).PostFailed? ==> r == Failure(backend.post(Repacked(request)).error)
    ensures var h := backend.post(Repacked(request));
            h.Posted? && h.statusCode != StatusOK ==> r == Failure(StatusCode(h.statusCode))
    ensures r.Success? <==>
              var h := backend.post(Repacked(request));
              h.Posted? && h.statusCode == StatusOK && backend.decodeResponse(h.body).Success? &&
              Refusal(backend.decodeResponse(h.body).value) == ""
    ensures r.Success? ==>
              r.value == RepackResponse(backend.decodeResponse(backend.post(Repacked(request)).body).value)
  {
    match backend.post(Repacked(request))
    case PostFailed(e) => Failure(e)
    case Posted(status, body) =>
      if status != StatusOK then Failure(StatusCode(status))
      else
        match backend.decodeResponse(body)
        case Failure(e) => Failure(e)
        case Success(output) =>
          if Refusal(output) != "" then Failure(Refused(Refusal(output)))
          else Success(RepackResponse(output))
  }

  /** A line "data:" with no space after the colon is not a "data: " line:
      the loop skips it, and a body of such lines ends with the body's end
      error, no event delivered. */
  lemma DataWithoutSpaceSkipped(end: Error, decodeEvent: seq<byte> -> Result<ResponseStream>, onData: Callback)
    ensures LineLoop([100, 97, 116, 97, 58, 120, Newline], end, decodeEvent, onData) == Llm.StreamReply([], Some(end))
  {
    var data: seq<byte> := [100, 97, 116, 97, 58, 120, Newline];
    LineEndAt(data, 6);
    assert data[7..] == [];
    var line := TrimSpace(data[..7]);
    assert SpaceEnd(data[..7], 0) == 0;
    assert !HasPrefix(line, DataPrefix) by {
      if |line| >= |DataPrefix| {
        assert line[5] == data[5] != DataPrefix[5];
      }
    }
  }

  /** The status is checked before anything is decoded: with a status other
      than 200 the decoders make no difference. */
  lemma StatusBeforeDecoding(request: Payload.Request, b1: Backend, b2: Backend, onData1: Callback, onData2: Callback)
    requires b1.post == b2.post
    requires b1.post(Repacked(request)).Posted? && b1.post(Repacked(request)).statusCode != StatusOK
    requires b1.post(StreamRequest(request)).Posted? && b1.post(StreamRequest(request)).statusCode != StatusOK
    ensures ChatCompletion(request, b1) == ChatCompletion(request, b2)
    ensures Streamed(request, b1, onData1) == Streamed(request, b2, onData2)
    ensures Streamed(request, b1, onData1).events == [] && Streamed(request, b1, onData1).err.Some?
  {
  }

  // Reading the stream line by line.

  /** Whether `s` has no newline among its first `n` bytes. */
  predicate NoNewline(s: seq<byte>, n: int)
    requires 0 <= n <= |s|
  {
    forall m :: 0 <= m < n ==> s[m] != Newline
  }

  /** The length of the first line of `s`, its newline included, if `s` has one. */
  function LineEnd(s: seq<byte>): (k: Option<nat>)
    ensures k.None? <==> NoNewline(s, |s|)
    ensures k.Some? ==> 0 < k.value <= |s| && s[k.value - 1] == Newline && NoNewline(s, k.value - 1)
  {
    if s == [] then None
    else if s[0] == Newline then Some(1)
    else
      match LineEnd(s[1..])
      case None => None
      case Some(k) => Some(k + 1)
  }

  /** The first newline of `s` determines its first line. */
  lemma {:induction false} LineEndAt(s: seq<byte>, j: nat)
    requires j < |s| && s[j] == Newline && NoNewline(s, j)
    ensures LineEnd(s) == Some(j + 1)
  {
    if j > 0 {
      assert s[0] != Newline;
      assert s[1..][j - 1] == s[j];
      assert forall m :: 0 <= m < j - 1 ==> s[1..][m] == s[m + 1];
      LineEndAt(s[1..], j - 1);
    }
  }

  /** The white space that bytes.TrimSpace removes, among ASCII bytes. */
  predicate IsSpace(b: byte)
  {
    b == 9 || b == 10 || b == 11 || b == 12 || b == 13 || b == 32
  }

  /** Where the white space that starts at index `i` of `s` stops. */
  function SpaceEnd(s: seq<byte>, i: nat): (j: nat)
    requires i <= |s|
    ensures i <= j <= |s|
    ensures forall k :: i <= k < j ==> IsSpace(s[k])
    ensures j == |s| || !IsSpace(s[j])
    decreases |s| - i
  {
    if i < |s| && IsSpace(s[i]) then SpaceEnd(s, i + 1) else i
  }

  /** Where the white space that ends at index `j` of `s` starts, not going
      below `lo`. */
  function SpaceStart(s: seq<byte>, lo: nat, j: nat): (i: nat)
    requires lo <= j <= |s|
    ensures lo <= i <= j
    ensures forall k :: i <= k < j ==> IsSpace(s[k])
    ensures i == lo || !IsSpace(s[i - 1])
    decreases j
  {
    if j > lo && IsSpace(s[j - 1]) then SpaceStart(s, lo, j - 1) else j
  }

  /** bytes.TrimSpace: the slice of `s` between the end of its leading white
      space and the start of its trailing white space. Only white space lies
      outside the slice, and the slice neither starts nor ends with any. */
  function TrimSpace(s: seq<byte>): (r: seq<byte>)
    ensures var lo := SpaceEnd(s, 0);
            && lo + |r| <= |s| && r == s[lo..lo + |r|]
            && (forall k :: 0 <= k < lo ==> IsSpace(s[k]))
            && (forall k :: lo + |r| <= k < |s| ==> IsSpace(s[k]))
    ensures r == [] || (!IsSpace(r[0]) && !IsSpace(r[|r| - 1]))
  {
    var lo := SpaceEnd(s, 0);
    s[lo..SpaceStart(s, lo, |s|)]
  }

  predicate HasPrefix(s: seq<byte>, prefix: seq<byte>)
  {
    prefix <= s
  }

  predicate HasSuffix(s: seq<byte>, suffix: seq<byte>)
  {
    |suffix| <= |s| && s[|s| - |suffix|..] == suffix
  }

  /** What handling one "data: " payload comes to: an event handed to
      `onData` after which the loop goes on, or the reply the stream ends
      with (its events being those handed to `onData`). */
  datatype Handled = Continue(event: Payload.Response) | Halt(reply: Llm.StreamReply)

  /** One payload: decode it, refuse it when its first choice carries a
      refusal, otherwise hand its event to `onData`, which may stop the loop. */
  function HandlePayload(payload: seq<byte>, decodeEvent: seq<byte> -> Result<ResponseStream>,
                         onData: Callback): (h: Handled)
    ensures h.Continue? <==> Accepted(payload, decodeEvent, onData)
    ensures h.Continue? ==> h.event == RepackResponseStream(decodeEvent(payload).value)
    ensures h.Halt? ==> h.reply.err == Some(Stop(payload, decodeEvent, onData))
    ensures h.Halt? ==>
              h.reply.events == if decodeEvent(payload).Success? && StreamRefusal(decodeEvent(payload).value) == ""
                                then [RepackResponseStream(decodeEvent(payload).value)] else []
  {
    match decodeEvent(payload)
    case Failure(e) => Halt(Llm.StreamReply([], Some(e)))
    case Success(output) =>
      if StreamRefusal(output) != "" then Halt(Llm.StreamReply([], Some(Refused(StreamRefusal(output)))))
      else
        var event := RepackResponseStream(output);
        match onData(event)
        case Some(e) => Halt(Llm.StreamReply([event], Some(e)))
        case None => Continue(event)
  }

  /** The line loop of ChatCompletionStream over the body bytes `data`: lines
      that are not "data: " lines are skipped; a payload ending in "[DONE]"
      ends the stream without error; any other payload is handled; running
      out of lines ends with the body's `end` error. */
  function LineLoop(data: seq<byte>, end: Error, decodeEvent: seq<byte> -> Result<ResponseStream>,
                    onData: Callback): Llm.StreamReply
    decreases |data|
  {
    match LineEnd(data)
    case None => Llm.StreamReply([], Some(end))
    case Some(k) =>
      var line := TrimSpace(data[..k]);
      if !HasPrefix(line, DataPrefix) then LineLoop(data[k..], end, decodeEvent, onData)
      else
        var payload := line[|DataPrefix|..];
        if HasSuffix(payload, DataSuffix) then Llm.StreamReply([], None)
        else
          match HandlePayload(payload, decodeEvent, onData)
          case Halt(reply) => reply
          case Continue(event) =>
            var rest := LineLoop(data[k..], end, decodeEvent, onData);
            Llm.StreamReply([event] + rest.events, rest.err)
  }

  /** One step of the line loop, for a body that still has a line. */
  lemma LineLoopUnfold(data: seq<byte>, end: Error, decodeEvent: seq<byte> -> Result<ResponseStream>,
                       onData: Callback)
    requires LineEnd(data).Some?
    ensures var k := LineEnd(data).value;
            var line := TrimSpace(data[..k]);
            var r := LineLoop(data, end, decodeEvent, onData);
            var next := LineLoop(data[k..], end, decodeEvent, onData);
            && (!HasPrefix(line, DataPrefix) ==> r == next)
            && (HasPrefix(line, DataPrefix) ==>
                  var payload := line[|DataPrefix|..];
                  var handled := HandlePayload(payload, decodeEvent, onData);
                  && (HasSuffix(payload, DataSuffix) ==> r == Llm.StreamReply([], None))
                  && (!HasSuffix(payload, DataSuffix) && handled.Halt? ==> r == handled.reply)
                  && (!HasSuffix(payload, DataSuffix) && handled.Continue? ==>
                        r == Llm.StreamReply([handled.event] + next.events, next.err)))
  {
  }

  /** The error io.ReadAll leaves when the body of a failed request is read. */
  function StatusError(status: int, body: Body): Error
  {
    if body.end == EndOfFile then StatusCodeWithBody(status, body.data) else StatusCode(status)
  }

  /** ChatCompletionStream: the `onData` calls it makes and the error it returns. */
  function Streamed(request: Payload.Request, backend: Backend, onData: Callback): Llm.StreamReply
  {
    match backend.post(StreamRequest(request))
    case PostFailed(e) => Llm.StreamReply([], Some(e))
    case Posted(status, body) =>
      if status != StatusOK then Llm.StreamReply([], Some(StatusError(status, body)))
      else LineLoop(body.data, body.end, backend.decodeEvent, onData)
  }

  /** bufio.Reader.ReadBytes('\n') on the unread part of a body: the bytes
      up to and including the next newline and what follows them, or the
      body's end error when no newline is left. */
  method ReadBytes(unread: seq<byte>, end: Error) returns (line: Result<seq<byte>>, rest: seq<byte>)
    ensures LineEnd(unread).None? ==> line == Failure(end)
    ensures LineEnd(unread).Some? ==>
              line == Success(unread[..LineEnd(unread).value]) && rest == unread[LineEnd(unread).value..]
  {
    var i := 0;
    while i < |unread| && unread[i] != Newline
      invariant i <= |unread| && NoNewline(unread, i)
    {
      i := i + 1;
    }
    if i == |unread| {
      return Failure(end), [];
    }
    LineEndAt(unread, i);
    return Success(unread[..i + 1]), unread[i + 1..];
  }

  /** ChatCompletionStream, step by step as the source runs it. */
  method ChatCompletionStream(request: Payload.Request, backend: Backend, onData: Callback)
    returns (delivered: seq<Payload.Response>, err: Option<Error>)
    ensures Llm.StreamReply(delivered, err) == Streamed(request, backend, onData)
  {
    var repacked := RepackRequest(request);
    repacked := repacked.(stream := true);
    var response := backend.post(repacked);
    if response.PostFailed? {
      return [], Some(response.error);
    }
    var body := response.body;
    if response.statusCode != StatusOK {
      if body.end == EndOfFile {
        return [], Some(StatusCodeWithBody(response.statusCode, body.data));
      }
      return [], Some(StatusCode(response.statusCode));
    }
    delivered, err := ReadEvents(body, backend.decodeEvent, onData);
  }

  /** The `for` loop of ChatCompletionStream over a body whose status was 200. */
  method ReadEvents(body: Body, decodeEvent: seq<byte> -> Result<ResponseStream>, onData: Callback)
    returns (delivered: seq<Payload.Response>, err: Option<Error>)
    ensures Llm.StreamReply(delivered, err) == LineLoop(body.data, body.end, decodeEvent, onData)
  {
    ghost var whole := LineLoop(body.data, body.end, decodeEvent, onData);
    delivered := [];
    var unread := body.data;
    while true
      invariant var rest := LineLoop(unread, body.end, decodeEvent, onData);
                Llm.StreamReply(delivered + rest.events, rest.err) == whole
      decreases |unread|
    {
      var line, rest := ReadBytes(unread, body.end);
      if line.Failure? {
        return delivered, Some(line.error);
      }
      ghost var here := LineLoop(unread, body.end, decodeEvent, onData);
      ghost var next := LineLoop(rest, body.end, decodeEvent, onData);
      LineLoopUnfold(unread, body.end, decodeEvent, onData);
      unread := rest;
      var trimmed := TrimSpace(line.value);
      if !HasPrefix(trimmed, DataPrefix) {
        assert here == next;
        continue;
      }
      var payload := trimmed[|DataPrefix|..];
      if HasSuffix(payload, DataSuffix) {
        assert here == Llm.StreamReply([], None);
        assert delivered + [] == delivered;
        break;
      }
      var handled := HandleEvent(payload, decodeEvent, onData);
      if handled.Halt? {
        assert here == handled.reply;
        return delivered + handled.reply.events, handled.reply.err;
      }
      assert here == Llm.StreamReply([handled.event] + next.events, next.err);
      AppendAssoc(delivered, [handled.event], next.events);
      delivered := delivered + [handled.event];
    }
    return delivered, None;
  }

  /** The body of that loop for one "data: " payload that is not "[DONE]". */
  method HandleEvent(payload: seq<byte>, decodeEvent: seq<byte> -> Result<ResponseStream>, onData: Callback)
    returns (handled: Handled)
    ensures handled == HandlePayload(payload, decodeEvent, onData)
  {
    var output := decodeEvent(payload);
    if output.Failure? {
      return Halt(Llm.StreamReply([], Some(output.error)));
    }
    if |output.value.choices| > 0 {
      var refusal := output.value.choices[0].delta.refusal;
      if refusal != "" {
        return Halt(Llm.StreamReply([], Some(Refused(refusal))));
      }
    }
    var event := RepackResponseStream(output.value);
    var callbackErr := onData(event);
    if callbackErr.Some? {
      return Halt(Llm.StreamReply([event], callbackErr));
    }
    return Continue(event);
  }

  // What the line loop means: line framing, then event handling.

  /** The newline-terminated lines of `data`, newline included, in order; an
      unterminated tail is not a line. */
  function Lines(data: seq<byte>): seq<seq<byte>>
    decreases |data|
  {
    match LineEnd(data)
    case None => []
    case Some(k) => [data[..k]] + Lines(data[k..])
  }

  /** The lines are a prefix of `data`. */
  lemma {:induction false} LinesPrefix(data: seq<byte>)
    ensures Flatten(Lines(data)) <= data
    decreases |data|
  {
    match LineEnd(data)
    case None =>
    case Some(k) =>
      var rest := data[k..];
      LinesPrefix(rest);
      var ls := Lines(data);
      assert ls[0] == data[..k] && ls[1..] == Lines(rest);
      assert Flatten(ls) == data[..k] + Flatten(Lines(rest));
      assert data == data[..k] + rest;
  }

  /** What the lines leave of `data` has no newline. */
  lemma {:induction false} LinesSplit(data: seq<byte>)
    ensures |Flatten(Lines(data))| <= |data|
    ensures NoNewline(data[|Flatten(Lines(data))|..], |data| - |Flatten(Lines(data))|)
    decreases |data|
  {
    LinesPrefix(data);
    match LineEnd(data)
    case None =>
    case Some(k) =>
      var rest := data[k..];
      LinesSplit(rest);
      var ls := Lines(data);
      assert ls[0] == data[..k] && ls[1..] == Lines(rest);
      assert |Flatten(ls)| == k + |Flatten(Lines(rest))|;
      assert data[|Flatten(ls)|..] == rest[|Flatten(Lines(rest))|..];
  }

  /** Each line ends in its first and only newline. */
  lemma {:induction false} LinesEndInNewline(data: seq<byte>)
    ensures forall i :: 0 <= i < |Lines(data)| ==>
              |Lines(data)[i]| > 0 && Lines(data)[i][|Lines(data)[i]| - 1] == Newline &&
              NoNewline(Lines(data)[i], |Lines(data)[i]| - 1)
    decreases |data|
  {
    match LineEnd(data)
    case None =>
    case Some(k) =>
      var rest := data[k..];
      LinesEndInNewline(rest);
      var ls := Lines(data);
      assert ls[0] == data[..k] && ls[1..] == Lines(rest);
      forall i | 0 < i < |ls|
        ensures ls[i] == Lines(rest)[i - 1]
      {
      }
  }

  /** The payload of every "data: " line, in order: the trimmed line without
      its prefix. Other lines contribute nothing. */
  function Payloads(lines: seq<seq<byte>>): seq<seq<byte>>
  {
    if lines == [] then []
    else
      var line := TrimSpace(lines[0]);
      (if HasPrefix(line, DataPrefix) then [line[|DataPrefix|..]] else []) + Payloads(lines[1..])
  }

  /** The payloads before the first one that ends in "[DONE]". */
  function BeforeDone(payloads: seq<seq<byte>>): (r: seq<seq<byte>>)
    ensures r <= payloads
    ensures forall i :: 0 <= i < |r| ==> !HasSuffix(payloads[i], DataSuffix)
    ensures |r| < |payloads| ==> HasSuffix(payloads[|r|], DataSuffix)
  {
    if payloads == [] then []
    else if HasSuffix(payloads[0], DataSuffix) then []
    else [payloads[0]] + BeforeDone(payloads[1..])
  }

  /** Whether some payload ends in "[DONE]". */
  predicate DoneSeen(payloads: seq<seq<byte>>)
  {
    |BeforeDone(payloads)| < |payloads|
  }

  /** Whether the callback gets this payload's event and lets the loop go on. */
  predicate Accepted(payload: seq<byte>, decodeEvent: seq<byte> -> Result<ResponseStream>, onData: Callback)
  {
    && decodeEvent(payload).Success?
    && StreamRefusal(decodeEvent(payload).value) == ""
    && onData(RepackResponseStream(decodeEvent(payload).value)).None?
  }

  /** The error that stops the loop at a payload that is not accepted. */
  function Stop(payload: seq<byte>, decodeEvent: seq<byte> -> Result<ResponseStream>, onData: Callback): Error
    requires !Accepted(payload, decodeEvent, onData)
  {
    match decodeEvent(payload)
    case Failure(e) => e
    case Success(output) =>
      if StreamRefusal(output) != "" then Refused(StreamRefusal(output))
      else onData(RepackResponseStream(output)).value
  }

  /** Event handling alone: each payload is decoded, checked for a refusal and
      handed to the callback, until one of them fails; when none does, the
      result is `last`. */
  function Deliver(payloads: seq<seq<byte>>, decodeEvent: seq<byte> -> Result<ResponseStream>,
                   onData: Callback, last: Option<Error>): Llm.StreamReply
  {
    if payloads == [] then Llm.StreamReply([], last)
    else
      match HandlePayload(payloads[0], decodeEvent, onData)
      case Halt(reply) => reply
      case Continue(event) =>
        var rest := Deliver(payloads[1..], decodeEvent, onData, last);
        Llm.StreamReply([event] + rest.events, rest.err)
  }

  /** The line loop is line framing followed by event handling:
      it handles the "data: " payloads of the complete lines, in order, up to
      the first "[DONE]"; it ends without error when there is a "[DONE]" and
      with the body's end error when the lines run out first. */
  lemma {:induction false} LineLoopIsFramingThenDelivery(data: seq<byte>, end: Error,
      decodeEvent: seq<byte> -> Result<ResponseStream>, onData: Callback)
    ensures var payloads := Payloads(Lines(data));
            LineLoop(data, end, decodeEvent, onData) ==
            Deliver(BeforeDone(payloads), decodeEvent, onData, if DoneSeen(payloads) then None else Some(end))
    decreases |data|
  {
    match LineEnd(data)
    case None =>
    case Some(k) =>
      var rest := data[k..];
      LineLoopIsFramingThenDelivery(rest, end, decodeEvent, onData);
      LineLoopUnfold(data, end, decodeEvent, onData);
      var ls := Lines(data);
      assert ls[0] == data[..k] && ls[1..] == Lines(rest);
      var line := TrimSpace(data[..k]);
      var ps := Payloads(ls);
      var restPs := Payloads(Lines(rest));
      var last := if DoneSeen(restPs) then None else Some(end);
      if HasPrefix(line, DataPrefix) {
        var payload := line[|DataPrefix|..];
        assert ps == [payload] + restPs;
        assert ps[0] == payload && ps[1..] == restPs;
        if !HasSuffix(payload, DataSuffix) {
          assert BeforeDone(ps) == [payload] + BeforeDone(restPs);
          assert DoneSeen(ps) == DoneSeen(restPs);
          DeliverUnfold(BeforeDone(ps), decodeEvent, onData, last);
        } else {
          assert BeforeDone(ps) == [];
        }
      } else {
        assert ps == restPs;
      }
  }

  /** One step of event handling. */
  lemma DeliverUnfold(payloads: seq<seq<byte>>, decodeEvent: seq<byte> -> Result<ResponseStream>,
                      onData: Callback, last: Option<Error>)
    requires payloads != []
    ensures var r := Deliver(payloads, decodeEvent, onData, last);
            var next := Deliver(payloads[1..], decodeEvent, onData, last);
            var handled := HandlePayload(payloads[0], decodeEvent, onData);
            && (handled.Halt? ==> r == handled.reply)
            && (handled.Continue? ==> r == Llm.StreamReply([handled.event] + next.events, next.err))
  {
  }

  /** When every payload is accepted, the callback gets each payload's event
      exactly once, in order, and the result is `last`. */
  lemma {:induction false} DeliverAll(payloads: seq<seq<byte>>, decodeEvent: seq<byte> -> Result<ResponseStream>,
                                      onData: Callback, last: Option<Error>)
    requires forall i :: 0 <= i < |payloads| ==> Accepted(payloads[i], decodeEvent, onData)
    ensures var r := Deliver(payloads, decodeEvent, onData, last);
            && r.err == last
            && |r.events| == |payloads|
            && forall i :: 0 <= i < |payloads| ==>
                 decodeEvent(payloads[i]).Success? && r.events[i] == RepackResponseStream(decodeEvent(payloads[i]).value)
  {
    if payloads != [] {
      DeliverAll(payloads[1..], decodeEvent, onData, last);
      assert forall i :: 1 <= i < |payloads| ==> payloads[1..][i - 1] == payloads[i];
    }
  }

  /** At the first payload that is not accepted the loop stops with that
      payload's error; the callback has had the events before it, and this
      payload's own event only when it was the callback that failed (a
      refused or undecodable event never reaches the callback). */
  lemma {:induction false} DeliverStops(payloads: seq<seq<byte>>, decodeEvent: seq<byte> -> Result<ResponseStream>,
                                        onData: Callback, last: Option<Error>, j: nat)
    requires j < |payloads| && !Accepted(payloads[j], decodeEvent, onData)
    requires forall i :: 0 <= i < j ==> Accepted(payloads[i], decodeEvent, onData)
    ensures var r := Deliver(payloads, decodeEvent, onData, last);
            var reached := decodeEvent(payloads[j]).Success? && StreamRefusal(decodeEvent(payloads[j]).value) == "";
            && r.err == Some(Stop(payloads[j], decodeEvent, onData))
            && |r.events| == (if reached then j + 1 else j)
            && forall i :: 0 <= i < |r.events| ==>
                 decodeEvent(payloads[i]).Success? && r.events[i] == RepackResponseStream(decodeEvent(payloads[i]).value)
  {
    if j > 0 {
      assert forall i :: 0 <= i < j - 1 ==> payloads[1..][i] == payloads[i + 1];
      DeliverStops(payloads[1..], decodeEvent, onData, last, j - 1);
      assert Accepted(payloads[0], decodeEvent, onData);
    }
  }

  /** NewClient, as GetLLMClient hands it out: the OpenAI client as an
      LLMClient over the given backend. A client given as data answers a
      stream with the events a callback that never fails receives, which the
      session's callback is. */
  function NewClient(backend: Backend): (c: Llm.Client)
    ensures forall request :: c.chatCompletion(request) == ChatCompletion(request, backend)
    ensures forall request :: c.chatCompletionStream(request) == Streamed(request, backend, event => None)
  {
    Llm.Client(
      request => ChatCompletion(request, backend),
      request => Streamed(request, backend, event => None))
  }
}
