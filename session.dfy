/** The conversation engine (session.go): it seeds the history with a system
    prompt, runs an optional seed turn and then the interactive loop, each
    turn sending the history to a completion client and logging its reply.
    The reader `r` is the sequence of input lines the scanner yields, the
    writer `w` the sequence of writes made to it (one per Fprint or Fprintln
    call), and prompt rendering a collaborator given as a function. */
module Session {
  import opened Base
  import opened Payload
  import Llm
  import History

  /** `NewPrompt(templatePath, "", message, messageStdin)`. */
  type Renderer = (string, string, string) -> Result<string>

  /** What a run leaves: the history's messages, the writes made to `w`, and
      the error returned. */
  datatype Transcript = Transcript(messages: seq<Message>, writes: seq<string>, err: Option<Error>)

  /** `t` after some earlier writes. */
  function Prefixed(before: seq<string>, t: Transcript): Transcript
  {
    t.(writes := before + t.writes)
  }

  /** Two rounds of earlier writes are one; stated on its own because the
      solver otherwise re-derives sequence associativity at every use. */
  lemma PrefixedTwice(a: seq<string>, b: seq<string>, t: Transcript)
    ensures Prefixed(a, Prefixed(b, t)) == Prefixed(a + b, t)
  {
  }

  /** Everything written, as one string. */
  function Text(writes: seq<string>): string
  {
    if writes == [] then "" else Text(writes[..|writes| - 1]) + writes[|writes| - 1]
  }

  // Accumulating a streamed reply.

  /** The role a stream callback is left holding: the last non-empty role
      among the events, "" when there is none. */
  function LastRole(events: seq<Response>): string
  {
    if events == [] then ""
    else if events[|events| - 1].message.role != "" then events[|events| - 1].message.role
    else LastRole(events[..|events| - 1])
  }

  /** The content a stream callback accumulates. */
  function Concat(events: seq<Response>): string
  {
    if events == [] then "" else Concat(events[..|events| - 1]) + events[|events| - 1].message.content
  }

  /** The chunks a stream callback writes, one write per event. */
  function Chunks(events: seq<Response>): (chunks: seq<string>)
    ensures |chunks| == |events|
    ensures forall i :: 0 <= i < |events| ==> chunks[i] == events[i].message.content
  {
    seq(|events|, i requires 0 <= i < |events| => events[i].message.content)
  }

  /** LastRole is the role of the last event that has one, or "" exactly when
      no event has a role. */
  lemma {:induction false} LastRoleIsLastNonEmpty(events: seq<Response>)
    ensures LastRole(events) == "" <==> forall i :: 0 <= i < |events| ==> events[i].message.role == ""
    ensures LastRole(events) != "" ==>
              exists i :: 0 <= i < |events| && events[i].message.role == LastRole(events) &&
                          forall j :: i < j < |events| ==> events[j].message.role == ""
  {
    if events != [] {
      var init := events[..|events| - 1];
      LastRoleIsLastNonEmpty(init);
      assert forall i :: 0 <= i < |init| ==> init[i] == events[i];
      if events[|events| - 1].message.role == "" && LastRole(init) != "" {
        var i :| 0 <= i < |init| && init[i].message.role == LastRole(init) &&
                 forall j :: i < j < |init| ==> init[j].message.role == "";
        assert events[i].message.role == LastRole(events);
      }
    }
  }

  /** The chunks written spell out the content accumulated. */
  lemma {:induction false} ChunksSpellContent(events: seq<Response>)
    ensures Text(Chunks(events)) == Concat(events)
  {
    if events != [] {
      var init := events[..|events| - 1];
      ChunksSpellContent(init);
      assert Chunks(events)[..|events| - 1] == Chunks(init);
    }
  }

  /** The `onData` callback of chatCompletionAndPrint applied to each event
      in turn: it writes the chunk, keeps the role when one is given and
      appends the content. */
  method Accumulate(events: seq<Response>) returns (role: string, message: string, writes: seq<string>)
    ensures role == LastRole(events) && message == Concat(events) && writes == Chunks(events)
  {
    role, message, writes := "", "", [];
    for i := 0 to |events|
      invariant role == LastRole(events[..i])
      invariant message == Concat(events[..i])
      invariant writes == Chunks(events[..i])
    {
      assert events[..i + 1][..i] == events[..i];
      var response := events[i];
      if response.message.role != "" {
        role := response.message.role;
      }
      var chunk := response.message.content;
      message := message + chunk;
      writes := writes + [chunk];
    }
    assert events[..|events|] == events;
  }

  // One completion call.

  /** The reply one completion call yields, and what it writes while it runs. */
  datatype Exchanged = Exchanged(reply: Result<Message>, writes: seq<string>)

  /** The completion part of chatCompletionAndPrint. Streamed: the callback
      writes each chunk as it comes, keeps the last non-empty role and
      concatenates the contents; then a newline. Atomic: the reply as the
      client gives it, written once with a newline. An error returns before
      the newline. */
  function Exchange(client: Llm.Client, stream: bool, request: Request): (x: Exchanged)
    ensures stream ==> (x.reply.Failure? <==> client.chatCompletionStream(request).err.Some?)
    ensures !stream ==> (x.reply.Failure? <==> client.chatCompletion(request).Failure?)
    ensures x.reply.Failure? ==>
              x.reply.error == if stream then client.chatCompletionStream(request).err.value
                               else client.chatCompletion(request).error
    ensures x.reply.Success? && !stream ==> x.reply.value == client.chatCompletion(request).value.message
    ensures x.reply.Success? && stream ==>
              var events := client.chatCompletionStream(request).events;
              x.reply.value == Message(LastRole(events), Concat(events))
  {
    if stream then
      var reply := client.chatCompletionStream(request);
      if reply.err.Some? then Exchanged(Failure(reply.err.value), Chunks(reply.events))
      else Exchanged(Success(Message(LastRole(reply.events), Concat(reply.events))), Chunks(reply.events) + ["\n"])
    else
      match client.chatCompletion(request)
      case Failure(e) => Exchanged(Failure(e), [])
      case Success(response) => Exchanged(Success(response.message), [response.message.content + "\n"])
  }

  /** In both modes what is written is the reply's content and a newline; a
      stream writes its chunks first, in the order they arrive. */
  lemma OutputMatchesReply(client: Llm.Client, stream: bool, request: Request)
    ensures var x := Exchange(client, stream, request);
            x.reply.Success? ==> Text(x.writes) == x.reply.value.content + "\n"
    ensures stream ==>
              var events := client.chatCompletionStream(request).events;
              var x := Exchange(client, stream, request);
              |events| <= |x.writes| && x.writes[..|events|] == Chunks(events)
  {
    var x := Exchange(client, stream, request);
    if stream {
      var events := client.chatCompletionStream(request).events;
      ChunksSpellContent(events);
      if x.reply.Success? {
        assert x.writes[..|x.writes| - 1] == Chunks(events);
      }
    } else if x.reply.Success? {
      assert x.writes[..0] == [];
    }
  }

  /** A stream of "Hel" (role "assistant") and "lo" (no role) is logged as
      the atomic reply ("assistant", "Hello") would be. */
  lemma StreamedLikeAtomic(client: Llm.Client, request: Request)
    requires client.chatCompletionStream(request) ==
             Llm.StreamReply([Response(Message("assistant", "Hel")), Response(Message("", "lo"))], None)
    requires client.chatCompletion(request) == Success(Response(Message("assistant", "Hello")))
    ensures Exchange(client, true, request).reply == Exchange(client, false, request).reply
    ensures Exchange(client, true, request).reply == Success(Message("assistant", "Hello"))
  {
    var events := client.chatCompletionStream(request).events;
    assert events[..1] == [events[0]];
    assert LastRole(events) == "assistant";
    assert Concat(events) == "Hel" + "lo" == "Hello";
    assert Exchange(client, true, request).reply == Success(Message("assistant", "Hello"));
    assert Exchange(client, false, request).reply == Success(Message("assistant", "Hello"));
  }

  /** chatCompletionAndPrint as a value: the user message is logged, then the
      reply when the call succeeds. */
  function Turn(client: Llm.Client, stream: bool, request: Request, prompt: string): (t: Transcript)
    ensures |request.messages| < |t.messages| && t.messages[..|request.messages|] == request.messages
    ensures t.messages[|request.messages|] == Message("user", prompt)
    ensures t.err.None? <==> |t.messages| == |request.messages| + 2
    ensures t.err.Some? <==> |t.messages| == |request.messages| + 1
    ensures var x := Exchange(client, stream, request.(messages := request.messages + [Message("user", prompt)]));
            && (x.reply.Failure? ==> t.err == Some(x.reply.error))
            && (x.reply.Success? ==> t.messages == request.messages + [Message("user", prompt), x.reply.value])
  {
    var asked := request.(messages := request.messages + [Message("user", prompt)]);
    var x := Exchange(client, stream, asked);
    match x.reply
    case Failure(e) => Transcript(asked.messages, x.writes, Some(e))
    case Success(m) => Transcript(asked.messages + [m], x.writes, None)
  }

  // The seed turn's echo.

  /** strings.Split(s, "\n"). */
  function SplitLines(s: string): (r: seq<string>)
    ensures |r| > 0
    ensures forall i :: 0 <= i < |r| ==> '\n' !in r[i]
  {
    if s == [] then [""]
    else
      var rest := SplitLines(s[1..]);
      if s[0] == '\n' then [""] + rest
      else [[s[0]] + rest[0]] + rest[1..]
  }

  /** strings.Join(parts, "\n"). */
  function JoinLines(parts: seq<string>): string
    requires |parts| > 0
  {
    if |parts| == 1 then parts[0] else parts[0] + "\n" + JoinLines(parts[1..])
  }

  /** Splitting at newlines loses nothing: joining the pieces gives the text back. */
  lemma {:induction false} SplitJoin(s: string)
    ensures JoinLines(SplitLines(s)) == s
  {
    if s != [] {
      var rest := SplitLines(s[1..]);
      SplitJoin(s[1..]);
      if s[0] == '\n' {
        assert ([""] + rest)[1..] == rest;
      } else {
        var parts := [[s[0]] + rest[0]] + rest[1..];
        if |rest| > 1 {
          assert parts[1..] == rest[1..];
          assert JoinLines(rest) == rest[0] + "\n" + JoinLines(rest[1..]);
        }
        assert s == [s[0]] + s[1..];
      }
    }
  }

  /** What the seed turn writes before calling the client: each line of the
      prompt after "> ". */
  function Echo(prompt: string): (writes: seq<string>)
    ensures |writes| == |SplitLines(prompt)|
    ensures forall i :: 0 <= i < |writes| ==> writes[i] == "> " + SplitLines(prompt)[i] + "\n"
  {
    var lines := SplitLines(prompt);
    seq(|lines|, i requires 0 <= i < |lines| => "> " + lines[i] + "\n")
  }

  // The interactive loop.

  /** The input lines before the first "exit". */
  function UntilExit(lines: seq<string>): (r: seq<string>)
    ensures r <= lines && "exit" !in r
    ensures |r| < |lines| ==> lines[|r|] == "exit"
  {
    if lines == [] || lines[0] == "exit" then []
    else [lines[0]] + UntilExit(lines[1..])
  }

  /** The lines that are not blank, in order. */
  function NonBlank(lines: seq<string>): (r: seq<string>)
    ensures |r| <= |lines|
    ensures forall x :: x in r <==> x in lines && x != ""
  {
    if lines == [] then []
    else (if lines[0] == "" then [] else [lines[0]]) + NonBlank(lines[1..])
  }

  /** NonBlank works line by line: on one line it keeps it unless it is
      blank, and on a concatenation it is the concatenation, so the order of
      the lines kept is their order in the input. */
  lemma {:induction false} NonBlankAppend(a: seq<string>, b: seq<string>)
    ensures NonBlank(a + b) == NonBlank(a) + NonBlank(b)
    ensures |a| == 1 ==> NonBlank(a) == if a[0] == "" then [] else a
    decreases |a|
  {
    if a != [] {
      assert (a + b)[0] == a[0] && (a + b)[1..] == a[1..] + b;
      NonBlankAppend(a[1..], b);
      var head := if a[0] == "" then [] else [a[0]];
      assert NonBlank(a + b) == head + (NonBlank(a[1..]) + NonBlank(b));
      assert NonBlank(a) == head + NonBlank(a[1..]);
      AppendAssoc(head, NonBlank(a[1..]), NonBlank(b));
    } else {
      assert a + b == b;
    }
  }

  /** The prompts the interactive loop sends: the non-blank lines before the
      first "exit". */
  function Prompts(lines: seq<string>): seq<string>
  {
    NonBlank(UntilExit(lines))
  }

  /** The scanner loop of Start, from the first "> " on: a blank line writes a
      new prompt and calls nothing, "exit" or the end of input stops, any
      other line is one turn; a failed turn ends the run with its error. */
  function Converse(client: Llm.Client, stream: bool, request: Request, lines: seq<string>): Transcript
    decreases |lines|
  {
    if lines == [] || lines[0] == "exit" then Transcript(request.messages, [], None)
    else if lines[0] == "" then Prefixed(["> "], Converse(client, stream, request, lines[1..]))
    else
      var turn := Turn(client, stream, request, lines[0]);
      if turn.err.Some? then turn
      else Prefixed(turn.writes + ["\n> "], Converse(client, stream, request.(messages := turn.messages), lines[1..]))
  }

  /** One step of Converse. */
  lemma ConverseUnfold(client: Llm.Client, stream: bool, request: Request, lines: seq<string>)
    requires lines != [] && lines[0] != "exit"
    ensures lines[0] == "" ==>
              Converse(client, stream, request, lines) == Prefixed(["> "], Converse(client, stream, request, lines[1..]))
    ensures var turn := Turn(client, stream, request, lines[0]);
            lines[0] != "" && turn.err.Some? ==> Converse(client, stream, request, lines) == turn
    ensures var turn := Turn(client, stream, request, lines[0]);
            lines[0] != "" && turn.err.None? ==>
              Converse(client, stream, request, lines) ==
              Prefixed(turn.writes + ["\n> "], Converse(client, stream, request.(messages := turn.messages), lines[1..]))
  {
  }

  /** `appended` is what running `prompts` one turn each adds to the history
      of `request`: the user prompt, then the reply the client gave to the
      history up to and including it. `failed` says whether the run stopped at
      a call that failed, leaving that turn's user message without a reply. */
  ghost predicate Turns(client: Llm.Client, stream: bool, request: Request, appended: seq<Message>,
                        prompts: seq<string>, failed: bool)
    decreases |prompts|
  {
    if prompts == [] then appended == [] && !failed
    else
      var user := Message("user", prompts[0]);
      var asked := request.(messages := request.messages + [user]);
      match Exchange(client, stream, asked).reply
      case Failure(_) => appended == [user] && failed
      case Success(m) =>
        |appended| >= 2 && appended[0] == user && appended[1] == m &&
        Turns(client, stream, asked.(messages := asked.messages + [m]), appended[2..], prompts[1..], failed)
  }

  /** A run of turns adds two messages per prompt, or ends early with an odd
      count when a call failed. */
  lemma {:induction false} TurnsLength(client: Llm.Client, stream: bool, request: Request, appended: seq<Message>,
                                       prompts: seq<string>, failed: bool)
    requires Turns(client, stream, request, appended, prompts, failed)
    ensures !failed ==> |appended| == 2 * |prompts|
    ensures failed ==> |appended| % 2 == 1 && |appended| < 2 * |prompts|
    decreases |prompts|
  {
    if prompts != [] {
      var user := Message("user", prompts[0]);
      var asked := request.(messages := request.messages + [user]);
      var reply := Exchange(client, stream, asked).reply;
      if reply.Success? {
        TurnsLength(client, stream, asked.(messages := asked.messages + [reply.value]), appended[2..], prompts[1..], failed);
      }
    }
  }

  /** In a run of turns the k-th user message is the k-th prompt. */
  lemma {:induction false} TurnsUserAt(client: Llm.Client, stream: bool, request: Request, appended: seq<Message>,
                                       prompts: seq<string>, failed: bool, k: nat)
    requires Turns(client, stream, request, appended, prompts, failed)
    requires k < |prompts| && 2 * k < |appended|
    ensures appended[2 * k] == Message("user", prompts[k])
    decreases k
  {
    if k > 0 {
      var asked := request.(messages := request.messages + [Message("user", prompts[0])]);
      var m := Exchange(client, stream, asked).reply.value;
      TurnsUserAt(client, stream, asked.(messages := asked.messages + [m]), appended[2..], prompts[1..], failed, k - 1);
      assert appended[2..][2 * (k - 1)] == appended[2 * k];
    }
  }

  /** In a run of turns the message after the k-th user message is the
      client's reply to everything logged up to and including it. */
  lemma {:induction false} TurnsReplyAt(client: Llm.Client, stream: bool, request: Request, appended: seq<Message>,
                                        prompts: seq<string>, failed: bool, k: nat)
    requires Turns(client, stream, request, appended, prompts, failed)
    requires k < |prompts| && 2 * k + 1 < |appended|
    ensures Exchange(client, stream, request.(messages := request.messages + appended[..2 * k + 1])).reply ==
            Success(appended[2 * k + 1])
    decreases k
  {
    var asked := request.(messages := request.messages + [Message("user", prompts[0])]);
    var reply := Exchange(client, stream, asked).reply;
    if k == 0 {
      assert request.messages + appended[..1] == asked.messages;
    } else {
      var next := asked.(messages := asked.messages + [reply.value]);
      var rest := appended[2..];
      TurnsReplyAt(client, stream, next, rest, prompts[1..], failed, k - 1);
      assert request.messages + appended[..2 * k + 1] == next.messages + rest[..2 * (k - 1) + 1];
      assert rest[2 * (k - 1) + 1] == appended[2 * k + 1];
    }
  }

  /** A run that failed ends with a user message the client failed to answer. */
  lemma {:induction false} TurnsFailedLast(client: Llm.Client, stream: bool, request: Request, appended: seq<Message>,
                                           prompts: seq<string>)
    requires Turns(client, stream, request, appended, prompts, true)
    ensures Exchange(client, stream, request.(messages := request.messages + appended)).reply.Failure?
    decreases |prompts|
  {
    var asked := request.(messages := request.messages + [Message("user", prompts[0])]);
    var reply := Exchange(client, stream, asked).reply;
    if reply.Failure? {
      assert request.messages + appended == asked.messages;
    } else {
      var next := asked.(messages := asked.messages + [reply.value]);
      TurnsFailedLast(client, stream, next, appended[2..], prompts[1..]);
      assert request.messages + appended == next.messages + appended[2..];
    }
  }

  /** Turns under equal arguments: lets a caller hand over the terms it has
      (a solver-cost helper, so that no sequence equality is re-derived
      inside Turns). */
  lemma TurnsRewrite(client: Llm.Client, stream: bool, request: Request, appended: seq<Message>,
                     appended': seq<Message>, prompts: seq<string>, prompts': seq<string>, failed: bool, failed': bool)
    requires Turns(client, stream, request, appended, prompts, failed)
    requires appended == appended' && prompts == prompts' && failed == failed'
    ensures Turns(client, stream, request, appended', prompts', failed')
  {
  }

  /** The prompts of a line list starting with a blank line, and with a prompt. */
  lemma PromptsCons(lines: seq<string>)
    requires lines != [] && lines[0] != "exit"
    ensures lines[0] == "" ==> Prompts(lines) == Prompts(lines[1..])
    ensures lines[0] != "" ==> Prompts(lines) == [lines[0]] + Prompts(lines[1..])
  {
    assert UntilExit(lines) == [lines[0]] + UntilExit(lines[1..]);
    assert UntilExit(lines)[1..] == UntilExit(lines[1..]);
  }

  /** One successful turn in front of a run of turns is a run of turns. */
  lemma TurnsCons(client: Llm.Client, stream: bool, request: Request, p: string, m: Message,
                  rest: seq<Message>, prompts: seq<string>, failed: bool)
    requires Exchange(client, stream, request.(messages := request.messages + [Message("user", p)])).reply == Success(m)
    requires Turns(client, stream, request.(messages := request.messages + [Message("user", p), m]), rest, prompts, failed)
    ensures Turns(client, stream, request, [Message("user", p), m] + rest, [p] + prompts, failed)
  {
    var asked := request.(messages := request.messages + [Message("user", p)]);
    assert asked.(messages := asked.messages + [m]) == request.(messages := request.messages + [Message("user", p), m]);
    assert ([p] + prompts)[1..] == prompts;
    assert ([Message("user", p), m] + rest)[2..] == rest;
  }

  /** The loop runs exactly one turn per prompt of its input: its history is
      the old one followed by the turns of `Prompts(lines)`, stopped by the
      first call that fails. */
  lemma {:induction false} ConverseRunsPrompts(client: Llm.Client, stream: bool, request: Request, lines: seq<string>)
    ensures var t := Converse(client, stream, request, lines);
            && |request.messages| <= |t.messages| && t.messages[..|request.messages|] == request.messages
            && Turns(client, stream, request, t.messages[|request.messages|..], Prompts(lines), t.err.Some?)
    decreases |lines|, 1
  {
    var t := Converse(client, stream, request, lines);
    if lines == [] || lines[0] == "exit" {
      assert t.messages[|request.messages|..] == [];
    } else if lines[0] == "" {
      PromptsCons(lines);
      ConverseUnfold(client, stream, request, lines);
      ConverseRunsPrompts(client, stream, request, lines[1..]);
    } else if Turn(client, stream, request, lines[0]).err.Some? {
      ConverseTurnFails(client, stream, request, lines);
    } else {
      ConverseTurnSucceeds(client, stream, request, lines);
    }
  }

  /** A turn that succeeds logs the user prompt and the client's reply to it. */
  lemma TurnSucceeded(client: Llm.Client, stream: bool, request: Request, p: string)
    requires Turn(client, stream, request, p).err.None?
    ensures var reply := Exchange(client, stream, request.(messages := request.messages + [Message("user", p)])).reply;
            reply.Success? && Turn(client, stream, request, p).messages == request.messages + [Message("user", p), reply.value]
  {
  }

  /** ConverseRunsPrompts for input that starts with a prompt the client
      fails to answer. */
  lemma ConverseTurnFails(client: Llm.Client, stream: bool, request: Request, lines: seq<string>)
    requires lines != [] && lines[0] != "exit" && lines[0] != ""
    requires Turn(client, stream, request, lines[0]).err.Some?
    ensures var t := Converse(client, stream, request, lines);
            && |request.messages| <= |t.messages| && t.messages[..|request.messages|] == request.messages
            && Turns(client, stream, request, t.messages[|request.messages|..], Prompts(lines), t.err.Some?)
  {
    var t := Converse(client, stream, request, lines);
    var p := lines[0];
    PromptsCons(lines);
    ConverseUnfold(client, stream, request, lines);
    assert t == Turn(client, stream, request, p);
    assert t.messages[|request.messages|..] == [Message("user", p)];
    assert Prompts(lines)[0] == p;
  }

  /** ConverseRunsPrompts for input that starts with a prompt the client
      answers. */
  lemma {:induction false} ConverseTurnSucceeds(client: Llm.Client, stream: bool, request: Request, lines: seq<string>)
    requires lines != [] && lines[0] != "exit" && lines[0] != ""
    requires Turn(client, stream, request, lines[0]).err.None?
    ensures var t := Converse(client, stream, request, lines);
            && |request.messages| <= |t.messages| && t.messages[..|request.messages|] == request.messages
            && Turns(client, stream, request, t.messages[|request.messages|..], Prompts(lines), t.err.Some?)
    decreases |lines|, 0
  {
    var t := Converse(client, stream, request, lines);
    var p := lines[0];
    PromptsCons(lines);
    ConverseUnfold(client, stream, request, lines);
    var turn := Turn(client, stream, request, p);
    TurnSucceeded(client, stream, request, p);
    var m := Exchange(client, stream, request.(messages := request.messages + [Message("user", p)])).reply.value;
    var next := request.(messages := turn.messages);
    ConverseRunsPrompts(client, stream, next, lines[1..]);
    var u := Converse(client, stream, next, lines[1..]);
    assert t.messages == u.messages && t.err == u.err;
    var rest := u.messages[|next.messages|..];
    TurnsCons(client, stream, request, p, m, rest, Prompts(lines[1..]), u.err.Some?);
    SplitAfter(u.messages, next.messages, request.messages, [Message("user", p), m]);
    TurnsRewrite(client, stream, request, [Message("user", p), m] + rest, t.messages[|request.messages|..],
                 [p] + Prompts(lines[1..]), Prompts(lines), u.err.Some?, t.err.Some?);
  }

  /** When the loop returns an error, it is the error of the last call: the
      client failed to answer the history the loop leaves, whose last
      message is the prompt it was asked about. */
  lemma {:induction false} ConverseErrorIsCallError(client: Llm.Client, stream: bool, request: Request,
                                                    lines: seq<string>)
    ensures var t := Converse(client, stream, request, lines);
            t.err.Some? ==> Exchange(client, stream, request.(messages := t.messages)).reply == Failure(t.err.value)
    decreases |lines|
  {
    if lines != [] && lines[0] != "exit" {
      ConverseUnfold(client, stream, request, lines);
      if lines[0] == "" {
        ConverseErrorIsCallError(client, stream, request, lines[1..]);
      } else {
        var turn := Turn(client, stream, request, lines[0]);
        var asked := request.(messages := request.messages + [Message("user", lines[0])]);
        if turn.err.Some? {
          assert request.(messages := turn.messages) == asked;
        } else {
          var next := request.(messages := turn.messages);
          ConverseErrorIsCallError(client, stream, next, lines[1..]);
          var u := Converse(client, stream, next, lines[1..]);
          assert next.(messages := u.messages) == request.(messages := u.messages);
        }
      }
    }
  }

  /** "exit" ends the loop: whatever follows it is never read. */
  lemma {:induction false} ExitEndsLoop(client: Llm.Client, stream: bool, request: Request,
                                        before: seq<string>, after: seq<string>)
    requires "exit" !in before
    ensures Converse(client, stream, request, before + ["exit"] + after) == Converse(client, stream, request, before)
    decreases |before|
  {
    var lines := before + ["exit"] + after;
    if before != [] {
      assert lines[0] == before[0] && lines[1..] == before[1..] + ["exit"] + after;
      ExitEndsLoop(client, stream, request, before[1..], after);
      if before[0] != "" && Turn(client, stream, request, before[0]).err.None? {
        ExitEndsLoop(client, stream, request.(messages := Turn(client, stream, request, before[0]).messages),
                     before[1..], after);
      }
    } else {
      assert lines[0] == "exit";
    }
  }

  /** Input "hi" then "exit": one turn, for "hi", and nothing more. */
  lemma HiThenExit(client: Llm.Client, stream: bool, request: Request, after: seq<string>)
    ensures Converse(client, stream, request, ["hi", "exit"] + after).messages ==
            Turn(client, stream, request, "hi").messages
  {
    var lines := ["hi", "exit"] + after;
    assert lines[0] == "hi" && lines[1..][0] == "exit";
  }

  class Session {
    const history: History.History
    const systemPromptTemplatePath: string
    const userPromptTemplatePath: string
    const interactive: bool
    const stream: bool
    const client: Llm.Client

    /** NewSession, with the client it would pick for the history's model given. */
    constructor (history: History.History, systemPromptTemplatePath: string, userPromptTemplatePath: string,
                 interactive: bool, stream: bool, client: Llm.Client)
      ensures this.history == history && this.client == client
      ensures this.systemPromptTemplatePath == systemPromptTemplatePath
      ensures this.userPromptTemplatePath == userPromptTemplatePath
      ensures this.interactive == interactive && this.stream == stream
    {
      this.history := history;
      this.systemPromptTemplatePath := systemPromptTemplatePath;
      this.userPromptTemplatePath := userPromptTemplatePath;
      this.interactive := interactive;
      this.stream := stream;
      this.client := client;
    }

    /** Start as a value, on the history `h` it begins with: a system prompt
        when the history is new, the seed turn when there is a message, then
        the loop when interactive. */
    function Started(h: Request, message: string, messageStdin: string, lines: seq<string>,
                     render: Renderer): Transcript
    {
      var system := render(systemPromptTemplatePath, message, messageStdin);
      if |h.messages| == 0 && system.Failure? then Transcript(h.messages, [], Some(system.error))
      else
        var seeded := if |h.messages| == 0 then h.(messages := h.messages + [Message("system", system.value)]) else h;
        Seeded(seeded, message, messageStdin, lines, render)
    }

    /** Start after the system prompt. */
    function Seeded(h: Request, message: string, messageStdin: string, lines: seq<string>,
                    render: Renderer): Transcript
    {
      if message != "" || messageStdin != "" then
        match render(userPromptTemplatePath, message, messageStdin)
        case Failure(e) => Transcript(h.messages, [], Some(e))
        case Success(prompt) =>
          var turn := Turn(client, stream, h, prompt);
          if turn.err.Some? then Prefixed(Echo(prompt), turn)
          else Prefixed(Echo(prompt) + turn.writes + ["\n"], Interact(h.(messages := turn.messages), lines))
      else Interact(h, lines)
    }

    /** Start after the seed step: done unless interactive. */
    function Interact(h: Request, lines: seq<string>): Transcript
    {
      if !interactive then Transcript(h.messages, [], None)
      else Prefixed(["> "], Converse(client, stream, h, lines))
    }

    /** chatCompletionAndPrint: one turn on the history. */
    method ChatCompletionAndPrint(userPrompt: string) returns (err: Option<Error>, writes: seq<string>)
      modifies history
      ensures history.model == old(history.model) && history.jsonSchema == old(history.jsonSchema)
      ensures var t := Turn(client, stream, old(history.AsRequest()), userPrompt);
              history.messages == t.messages && writes == t.writes && err == t.err
    {
      history.AddMessage("user", userPrompt);
      var request := history.AsRequest();
      var role := "";
      var message := "";
      if stream {
        var reply := client.chatCompletionStream(request);
        role, message, writes := Accumulate(reply.events);
        if reply.err.Some? {
          return reply.err, writes;
        }
        writes := writes + ["\n"];
      } else {
        var response := client.chatCompletion(request);
        if response.Failure? {
          return Some(response.error), [];
        }
        role := response.value.message.role;
        message := response.value.message.content;
        writes := [message + "\n"];
      }
      history.AddMessage(role, message);
      err := None;
    }

    /** The scanner loop of Start, after the first "> ". */
    method Loop(lines: seq<string>) returns (err: Option<Error>, writes: seq<string>)
      modifies history
      ensures history.model == old(history.model) && history.jsonSchema == old(history.jsonSchema)
      ensures var t := Converse(client, stream, old(history.AsRequest()), lines);
              history.messages == t.messages && writes == t.writes && err == t.err
    {
      ghost var goal := Converse(client, stream, history.AsRequest(), lines);
      writes := [];
      var i := 0;
      while i < |lines|
        invariant 0 <= i <= |lines|
        invariant history.model == old(history.model) && history.jsonSchema == old(history.jsonSchema)
        invariant goal == Prefixed(writes, Converse(client, stream, history.AsRequest(), lines[i..]))
      {
        var userPrompt := lines[i];
        if userPrompt == "exit" {
          break;
        }
        ghost var h := history.AsRequest();
        assert lines[i..][1..] == lines[i + 1..];
        ConverseUnfold(client, stream, h, lines[i..]);
        if userPrompt == "" {
          PrefixedTwice(writes, ["> "], Converse(client, stream, h, lines[i + 1..]));
          writes := writes + ["> "];
          i := i + 1;
          continue;
        }
        ghost var turn := Turn(client, stream, h, userPrompt);
        ghost var before := writes;
        var turnErr, turnWrites := ChatCompletionAndPrint(userPrompt);
        writes := writes + turnWrites;
        if turnErr.Some? {
          return turnErr, writes;
        }
        writes := writes + ["\n> "];
        ghost var next := h.(messages := turn.messages);
        assert history.AsRequest() == next;
        ghost var after := Converse(client, stream, next, lines[i + 1..]);
        assert Converse(client, stream, h, lines[i..]) == Prefixed(turn.writes + ["\n> "], after);
        PrefixedTwice(before, turn.writes + ["\n> "], after);
        assert writes == before + (turn.writes + ["\n> "]);
        i := i + 1;
      }
      return None, writes;
    }

    /** The seed turn of Start: echo the rendered prompt, then one turn. */
    method Seed(prompt: string) returns (err: Option<Error>, writes: seq<string>)
      modifies history
      ensures history.model == old(history.model) && history.jsonSchema == old(history.jsonSchema)
      ensures var t := Turn(client, stream, old(history.AsRequest()), prompt);
              history.messages == t.messages && writes == Echo(prompt) + t.writes && err == t.err
    {
      var echoed := SplitLines(prompt);
      writes := [];
      for i := 0 to |echoed|
        invariant writes == Echo(prompt)[..i]
      {
        writes := writes + ["> " + echoed[i] + "\n"];
      }
      assert writes == Echo(prompt);
      var turnWrites;
      err, turnWrites := ChatCompletionAndPrint(prompt);
      writes := writes + turnWrites;
    }

    /** Start, step by step as the source runs it. */
    method Start(message: string, messageStdin: string, lines: seq<string>, render: Renderer)
      returns (err: Option<Error>, writes: seq<string>)
      modifies history
      ensures history.model == old(history.model) && history.jsonSchema == old(history.jsonSchema)
      ensures var t := Started(old(history.AsRequest()), message, messageStdin, lines, render);
              history.messages == t.messages && writes == t.writes && err == t.err
    {
      if history.IsNewSession() {
        var systemPrompt := render(systemPromptTemplatePath, message, messageStdin);
        if systemPrompt.Failure? {
          return Some(systemPrompt.error), [];
        }
        history.AddMessage("system", systemPrompt.value);
      }
      err, writes := SeedThenLoop(message, messageStdin, lines, render);
    }

    /** Start after the system prompt. */
    method SeedThenLoop(message: string, messageStdin: string, lines: seq<string>, render: Renderer)
      returns (err: Option<Error>, writes: seq<string>)
      modifies history
      ensures history.model == old(history.model) && history.jsonSchema == old(history.jsonSchema)
      ensures var t := Seeded(old(history.AsRequest()), message, messageStdin, lines, render);
              history.messages == t.messages && writes == t.writes && err == t.err
    {
      if message != "" || messageStdin != "" {
        var userPrompt := render(userPromptTemplatePath, message, messageStdin);
        if userPrompt.Failure? {
          return Some(userPrompt.error), [];
        }
        ghost var h := history.AsRequest();
        var seedErr, seedWrites := Seed(userPrompt.value);
        if seedErr.Some? {
          return seedErr, seedWrites;
        }
        ghost var next := h.(messages := Turn(client, stream, h, userPrompt.value).messages);
        assert history.AsRequest() == next;
        var loopWrites;
        err, loopWrites := AfterSeed(lines);
        PrefixedTwice(seedWrites, ["\n"], Interact(next, lines));
        writes := seedWrites + ["\n"] + loopWrites;
      } else {
        err, writes := AfterSeed(lines);
      }
    }

    /** Start after the seed step. */
    method AfterSeed(lines: seq<string>) returns (err: Option<Error>, writes: seq<string>)
      modifies history
      ensures history.model == old(history.model) && history.jsonSchema == old(history.jsonSchema)
      ensures var t := Interact(old(history.AsRequest()), lines);
              history.messages == t.messages && writes == t.writes && err == t.err
    {
      if !interactive {
        return None, [];
      }
      var loopWrites;
      err, loopWrites := Loop(lines);
      writes := ["> "] + loopWrites;
    }
  }

  /** The prompts a run sends after the system prompt: the rendered seed
      prompt when there is a message or piped input, then, in interactive
      mode only, the prompts of the input lines. */
  function SentPrompts(s: Session, message: string, messageStdin: string, lines: seq<string>,
                       render: Renderer): seq<string>
    requires message != "" || messageStdin != "" ==> render(s.userPromptTemplatePath, message, messageStdin).Success?
  {
    (if message != "" || messageStdin != "" then [render(s.userPromptTemplatePath, message, messageStdin).value] else []) +
    (if s.interactive then Prompts(lines) else [])
  }

  /** Start after the system prompt: the seed turn, when there is one, then
      the loop's turns; a failed rendering of the user prompt logs nothing. */
  lemma {:induction false} SeededRunsTurns(s: Session, h: Request, message: string, messageStdin: string,
                                           lines: seq<string>, render: Renderer)
    ensures var t := s.Seeded(h, message, messageStdin, lines, render);
            var user := render(s.userPromptTemplatePath, message, messageStdin);
            var seed := message != "" || messageStdin != "";
            && |h.messages| <= |t.messages| && t.messages[..|h.messages|] == h.messages
            && (seed && user.Failure? ==> t.messages == h.messages && t.err == Some(user.error))
            && (!(seed && user.Failure?) ==>
                  Turns(s.client, s.stream, h, t.messages[|h.messages|..],
                        SentPrompts(s, message, messageStdin, lines, render), t.err.Some?))
  {
    var t := s.Seeded(h, message, messageStdin, lines, render);
    var user := render(s.userPromptTemplatePath, message, messageStdin);
    var seed := message != "" || messageStdin != "";
    var loopPrompts := if s.interactive then Prompts(lines) else [];
    if !seed {
      assert t == s.Interact(h, lines);
      InteractRunsPrompts(s, h, lines);
      assert SentPrompts(s, message, messageStdin, lines, render) == loopPrompts;
    } else if user.Success? {
      SeedTurnRuns(s, h, message, messageStdin, lines, render);
    }
  }

  /** The seed turn then the loop, when the user prompt renders. */
  lemma SeedTurnRuns(s: Session, h: Request, message: string, messageStdin: string,
                     lines: seq<string>, render: Renderer)
    requires message != "" || messageStdin != ""
    requires render(s.userPromptTemplatePath, message, messageStdin).Success?
    ensures var t := s.Seeded(h, message, messageStdin, lines, render);
            && |h.messages| <= |t.messages| && t.messages[..|h.messages|] == h.messages
            && Turns(s.client, s.stream, h, t.messages[|h.messages|..],
                     SentPrompts(s, message, messageStdin, lines, render), t.err.Some?)
  {
    var t := s.Seeded(h, message, messageStdin, lines, render);
    var user := render(s.userPromptTemplatePath, message, messageStdin);
    var loopPrompts := if s.interactive then Prompts(lines) else [];
    var p := user.value;
    var turn := Turn(s.client, s.stream, h, p);
    var prompts := SentPrompts(s, message, messageStdin, lines, render);
    assert prompts == [p] + loopPrompts;
    if turn.err.Some? {
      assert t.messages == turn.messages && t.err == turn.err;
      assert t.messages[|h.messages|..] == [Message("user", p)];
      assert prompts[0] == p;
    } else {
      TurnSucceeded(s.client, s.stream, h, p);
      var m := Exchange(s.client, s.stream, h.(messages := h.messages + [Message("user", p)])).reply.value;
      var h2 := h.(messages := turn.messages);
      var u := s.Interact(h2, lines);
      assert t.messages == u.messages && t.err == u.err;
      InteractRunsPrompts(s, h2, lines);
      var rest := u.messages[|h2.messages|..];
      TurnsCons(s.client, s.stream, h, p, m, rest, loopPrompts, u.err.Some?);
      SplitAfter(u.messages, h2.messages, h.messages, [Message("user", p), m]);
      TurnsRewrite(s.client, s.stream, h, [Message("user", p), m] + rest, t.messages[|h.messages|..],
                   [p] + loopPrompts, prompts, u.err.Some?, t.err.Some?);
    }
  }

  /** What Start does to the history. The old messages stay in front; a new
      history first gets the system prompt, and only a new one does; after
      that come the turns of the prompts sent, in order. A rendering error
      ends the run before any further message. */
  lemma StartAppendsTurns(s: Session, h: Request, message: string, messageStdin: string,
                          lines: seq<string>, render: Renderer)
    ensures var t := s.Started(h, message, messageStdin, lines, render);
            var system := render(s.systemPromptTemplatePath, message, messageStdin);
            var user := render(s.userPromptTemplatePath, message, messageStdin);
            var isNew := |h.messages| == 0;
            var seed := message != "" || messageStdin != "";
            var base := h.messages + (if isNew && system.Success? then [Message("system", system.value)] else []);
            && |base| <= |t.messages| && t.messages[..|base|] == base
            && (isNew && system.Failure? ==> t == Transcript([], [], Some(system.error)))
            && (!(isNew && system.Failure?) && seed && user.Failure? ==>
                  t.messages == base && t.err == Some(user.error))
            && (!(isNew && system.Failure?) && !(seed && user.Failure?) ==>
                  Turns(s.client, s.stream, h.(messages := base), t.messages[|base|..],
                        SentPrompts(s, message, messageStdin, lines, render), t.err.Some?))
  {
    var system := render(s.systemPromptTemplatePath, message, messageStdin);
    var isNew := |h.messages| == 0;
    var base := h.messages + (if isNew && system.Success? then [Message("system", system.value)] else []);
    if !(isNew && system.Failure?) {
      var h1 := h.(messages := base);
      if !isNew {
        assert base == h.messages && h1 == h;
      }
      assert s.Started(h, message, messageStdin, lines, render) == s.Seeded(h1, message, messageStdin, lines, render);
      SeededRunsTurns(s, h1, message, messageStdin, lines, render);
    }
  }

  /** The loop part of Start runs the prompts of its input when interactive,
      after a first "> "; otherwise it calls nothing, writes nothing and
      returns no error. */
  lemma InteractRunsPrompts(s: Session, h: Request, lines: seq<string>)
    ensures var t := s.Interact(h, lines);
            && |h.messages| <= |t.messages| && t.messages[..|h.messages|] == h.messages
            && Turns(s.client, s.stream, h, t.messages[|h.messages|..],
                     if s.interactive then Prompts(lines) else [], t.err.Some?)
    ensures !s.interactive ==> s.Interact(h, lines) == Transcript(h.messages, [], None)
    ensures s.interactive ==> |s.Interact(h, lines).writes| > 0 && s.Interact(h, lines).writes[0] == "> "
  {
    if s.interactive {
      ConverseRunsPrompts(s.client, s.stream, h, lines);
    } else {
      assert s.Interact(h, lines).messages[|h.messages|..] == [];
    }
  }

  /** After the system prompt, an error that is not the user prompt's
      rendering error is the error of the last call: the client failed to
      answer the history Start leaves. */
  lemma SeededErrorIsCallError(s: Session, h: Request, message: string, messageStdin: string,
                               lines: seq<string>, render: Renderer)
    ensures var t := s.Seeded(h, message, messageStdin, lines, render);
            var user := render(s.userPromptTemplatePath, message, messageStdin);
            var seed := message != "" || messageStdin != "";
            t.err.Some? && !(seed && user.Failure?) ==>
              Exchange(s.client, s.stream, h.(messages := t.messages)).reply == Failure(t.err.value)
  {
    var t := s.Seeded(h, message, messageStdin, lines, render);
    var user := render(s.userPromptTemplatePath, message, messageStdin);
    var seed := message != "" || messageStdin != "";
    var after := h;
    if seed && user.Success? {
      var p := user.value;
      var turn := Turn(s.client, s.stream, h, p);
      if turn.err.Some? {
        assert t.messages == turn.messages && t.err == turn.err;
        assert h.(messages := turn.messages) == h.(messages := h.messages + [Message("user", p)]);
        return;
      }
      after := h.(messages := turn.messages);
      assert t.messages == s.Interact(after, lines).messages && t.err == s.Interact(after, lines).err;
    }
    if s.interactive && !(seed && user.Failure?) {
      ConverseErrorIsCallError(s.client, s.stream, after, lines);
      var u := Converse(s.client, s.stream, after, lines);
      assert after.(messages := u.messages) == h.(messages := u.messages);
    }
  }

  /** What Start returns: the system prompt's rendering error, the user
      prompt's rendering error, or else the error of the call that failed,
      whose request is the history Start leaves. */
  lemma StartErrorIsCallError(s: Session, h: Request, message: string, messageStdin: string,
                              lines: seq<string>, render: Renderer)
    ensures var t := s.Started(h, message, messageStdin, lines, render);
            var system := render(s.systemPromptTemplatePath, message, messageStdin);
            var user := render(s.userPromptTemplatePath, message, messageStdin);
            var isNew := |h.messages| == 0;
            var seed := message != "" || messageStdin != "";
            && (isNew && system.Failure? ==> t.err == Some(system.error))
            && (!(isNew && system.Failure?) && seed && user.Failure? ==> t.err == Some(user.error))
            && (t.err.Some? && !(isNew && system.Failure?) && !(seed && user.Failure?) ==>
                  Exchange(s.client, s.stream, h.(messages := t.messages)).reply == Failure(t.err.value))
  {
    var system := render(s.systemPromptTemplatePath, message, messageStdin);
    var isNew := |h.messages| == 0;
    if !(isNew && system.Failure?) {
      var h1 := if isNew then h.(messages := h.messages + [Message("system", system.value)]) else h;
      assert s.Started(h, message, messageStdin, lines, render) == s.Seeded(h1, message, messageStdin, lines, render);
      SeededErrorIsCallError(s, h1, message, messageStdin, lines, render);
      var t := s.Seeded(h1, message, messageStdin, lines, render);
      assert h1.(messages := t.messages) == h.(messages := t.messages);
    }
  }

  /** Without the interactive flag Start returns right after the seed step:
      the input is never read. */
  lemma NonInteractiveIgnoresInput(s: Session, h: Request, message: string, messageStdin: string,
                                   lines1: seq<string>, lines2: seq<string>, render: Renderer)
    requires !s.interactive
    ensures s.Started(h, message, messageStdin, lines1, render) == s.Started(h, message, messageStdin, lines2, render)
  {
  }
}
