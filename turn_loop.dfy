/** The per-task turn controller (final_control.py:130-172). Each turn sends
    the feedback text to the one chat session, folds over the streamed
    fragments until the first one carrying a function call, dispatches that
    call to an actuator (or keeps the accumulated text), evaluates the two
    completion signals and builds the next feedback text; a task runs for at
    most 15 turns. The camera frame sent with each turn, the timing log and
    the printing are outside the model. */
module TurnLoop {
  import opened Wrappers
  import opened Tools
  import opened Completion

  /** The turn bound per task. */
  const MAX_TURNS: nat := 15
  /** The text part of the first turn is this prefix followed by the task. */
  const TASK_PREFIX: string := "TASK:"
  /** Appended to the rendered result to form every later turn's text. */
  const FEEDBACK_SUFFIX: string := "  (say 'done' if finished)"

  /** A function call the model makes: a name and its keyword arguments. */
  datatype Call = Call(name: string, args: map<string, real>)

  /** One streamed response fragment: optional text and the (possibly empty)
      list of function calls it carries. */
  datatype Fragment = Fragment(text: Option<string>, calls: seq<Call>)

  // ---------------------------------------------------------------------------
  // The fold over the stream
  // ---------------------------------------------------------------------------

  /** The index of the first fragment carrying a call, or |frags| if none does. */
  function FirstCall(frags: seq<Fragment>): (k: nat)
    ensures k <= |frags|
    ensures k < |frags| ==> frags[k].calls != []
    ensures forall j :: 0 <= j < k ==> frags[j].calls == []
  {
    if frags == [] then 0
    else if frags[0].calls != [] then 0
    else 1 + FirstCall(frags[1..])
  }

  /** The accumulated commentary: `(text or "") + " "` for each fragment, in order. */
  function Commentary(frags: seq<Fragment>): string {
    if frags == [] then "" else Commentary(frags[..|frags| - 1]) + TextOr(frags[|frags| - 1].text) + " "
  }

  /** Commentary distributes over concatenation and each fragment adds at least one character. */
  lemma {:induction false} CommentaryAppend(a: seq<Fragment>, b: seq<Fragment>)
    ensures Commentary(a + b) == Commentary(a) + Commentary(b)
    ensures |Commentary(b)| >= |b|
    decreases |b|
  {
    if b == [] {
      assert a + b == a;
    } else {
      var b' := b[..|b| - 1];
      assert (a + b)[..|a + b| - 1] == a + b';
      assert b[..|b| - 1] == b';
      CommentaryAppend(a, b');
    }
  }

  /** Where the cursor stands after the fold: just past the call fragment, or at the end. */
  function CursorAfterFold(frags: seq<Fragment>): nat {
    if FirstCall(frags) < |frags| then FirstCall(frags) + 1 else |frags|
  }

  /** The call the fold captures: the first call of the first fragment that has any. */
  function CapturedCall(frags: seq<Fragment>): Option<Call> {
    if FirstCall(frags) < |frags| then Some(frags[FirstCall(frags)].calls[0]) else None
  }

  /** Does some fragment pass the stream-scan test? */
  function AnyDone(frags: seq<Fragment>): (found: bool)
    ensures found <==> exists j :: 0 <= j < |frags| && IsDoneText(frags[j].text)
  {
    if frags == [] then false else IsDoneText(frags[0].text) || AnyDone(frags[1..])
  }

  /** The index of the first fragment that passes the stream-scan test, or |frags|. */
  function FirstDone(frags: seq<Fragment>): (k: nat)
    ensures k <= |frags|
    ensures k < |frags| ==> IsDoneText(frags[k].text)
    ensures forall j :: 0 <= j < k ==> !IsDoneText(frags[j].text)
  {
    if frags == [] then 0
    else if IsDoneText(frags[0].text) then 0
    else 1 + FirstDone(frags[1..])
  }

  /** A one-shot response stream: the fragments the model sent and how many
      of them have been pulled. */
  class Stream {
    const frags: seq<Fragment>
    var cursor: nat

    ghost predicate Valid()
      reads this
    {
      cursor <= |frags|
    }

    constructor (frags: seq<Fragment>)
      ensures Valid() && this.frags == frags && cursor == 0
    {
      this.frags := frags;
      cursor := 0;
    }

    /** Pulls the next fragment, if any. */
    method Next() returns (f: Option<Fragment>)
      requires Valid()
      modifies this
      ensures Valid()
      ensures old(cursor) < |frags| ==> f == Some(frags[old(cursor)]) && cursor == old(cursor) + 1
      ensures old(cursor) == |frags| ==> f == None && cursor == old(cursor)
    {
      if cursor < |frags| {
        f := Some(frags[cursor]);
        cursor := cursor + 1;
      } else {
        f := None;
      }
    }
  }

  /** The `for chunk in stream` loop with its early `break` (final_control.py:143-150). */
  method ConsumeUntilCall(stream: Stream) returns (chunks: string, call: Option<Call>)
    requires stream.Valid() && stream.cursor == 0
    modifies stream
    ensures stream.Valid()
    ensures chunks == Commentary(stream.frags[..FirstCall(stream.frags)])
    ensures call == CapturedCall(stream.frags)
    ensures stream.cursor == CursorAfterFold(stream.frags)
  {
    chunks, call := "", None;
    while true
      invariant stream.Valid()
      invariant forall j :: 0 <= j < stream.cursor ==> stream.frags[j].calls == []
      invariant chunks == Commentary(stream.frags[..stream.cursor])
      decreases |stream.frags| - stream.cursor
    {
      var next := stream.Next();
      if next.None? {
        assert stream.frags[..stream.cursor] == stream.frags;
        break;
      }
      var chunk := next.value;
      if chunk.calls != [] {
        call := Some(chunk.calls[0]);
        break;
      }
      assert stream.frags[..stream.cursor][..stream.cursor - 1] == stream.frags[..stream.cursor - 1];
      chunks := chunks + TextOr(chunk.text) + " ";
    }
  }

  /** `any((c.text or "").strip().lower() == "done" for c in stream)`
      (final_control.py:162): resumes where the fold stopped and stops at the
      first match. */
  method ScanForDone(stream: Stream) returns (found: bool)
    requires stream.Valid()
    modifies stream
    ensures stream.Valid()
    ensures found == AnyDone(stream.frags[old(stream.cursor)..])
    ensures stream.cursor == old(stream.cursor) + FirstDone(stream.frags[old(stream.cursor)..])
              + (if found then 1 else 0)
  {
    ghost var start := stream.cursor;
    ghost var rest := stream.frags[start..];
    found := false;
    while true
      invariant stream.Valid() && start <= stream.cursor
      invariant !found
      invariant forall j :: start <= j < stream.cursor ==> !IsDoneText(stream.frags[j].text)
      decreases |stream.frags| - stream.cursor
    {
      var next := stream.Next();
      if next.None? {
        break;
      }
      if IsDoneText(next.value.text) {
        found := true;
        break;
      }
    }
    assert forall j :: 0 <= j < stream.cursor - start - (if found then 1 else 0) ==> rest[j] == stream.frags[start + j];
  }

  // ---------------------------------------------------------------------------
  // Dispatch
  // ---------------------------------------------------------------------------

  /** The result of a turn that did not raise: the commentary text, or an actuator's record. */
  datatype Res = Text(text: string) | Record(echo: Echo)

  /** What a turn does with the captured call. */
  datatype Action =
    | Actuate(direction: Direction, magnitude: real)   // a tool called with its one keyword
    | Unbound(direction: Direction)                     // a tool whose keywords do not bind: TypeError
    | NoTool(text: string)                              // no call, or a name no tool has

  /** The `if fn_name == ... elif ... else res = chunks` chain (final_control.py:155-160). */
  function Decide(call: Option<Call>, chunks: string): Action {
    if call.None? || ToolNamed(call.value.name).None? then NoTool(chunks)
    else
      var direction := ToolNamed(call.value.name).value;
      if call.value.args.Keys == {ParamName(direction)} then Actuate(direction, call.value.args[ParamName(direction)])
      else Unbound(direction)
  }

  /** The effects an action issues. */
  function ActionEffects(action: Action): seq<Effect> {
    match action
    case Actuate(direction, magnitude) => Pulse(direction, Duration(direction, magnitude))
    case _ => []
  }

  /** What an action evaluates to, or the exception it raises. */
  function ActionResult(action: Action): Result<Res, ToolError> {
    match action
    case Actuate(direction, magnitude) =>
      var r := ToolOutcome(direction, magnitude);
      if r.Ok? then Ok(Record(r.value)) else Err(r.error)
    case Unbound(direction) => Err(BadArguments(ToolName(direction)))
    case NoTool(text) => Ok(Text(text))
  }

  /** An actuator runs (issues effects) exactly when the call names one of
      the four tools with its one keyword; otherwise nothing is issued, and
      without a tool name the result is the commentary itself. */
  lemma DispatchExactlyOnce(call: Option<Call>, chunks: string)
    ensures ActionEffects(Decide(call, chunks)) != [] <==>
      call.Some? && ToolNamed(call.value.name).Some? && call.value.args.Keys == {ParamName(ToolNamed(call.value.name).value)}
    ensures (call.None? || call.value.name !in {"move_forward", "move_backward", "rotate_left", "rotate_right"}) <==>
      ActionResult(Decide(call, chunks)) == Ok(Text(chunks))
  {
    var a := Decide(call, chunks);
    if a.Actuate? {
      PulseShape(a.direction, Duration(a.direction, a.magnitude));
    }
  }

  /** The dispatch step: calls the actuator the name selects, with its keywords. */
  method Perform(robot: Robot, call: Option<Call>, chunks: string) returns (res: Result<Res, ToolError>)
    modifies robot
    ensures robot.trace == old(robot.trace) + ActionEffects(Decide(call, chunks))
    ensures res == ActionResult(Decide(call, chunks))
  {
    if call.None? {
      return Ok(Text(chunks));
    }
    var fnName, fnArgs := call.value.name, call.value.args;
    var r: Result<Echo, ToolError>;
    if fnName == "move_forward" {
      if fnArgs.Keys != {"cm"} { return Err(BadArguments(fnName)); }
      r := MoveForward(robot, fnArgs["cm"]);
    } else if fnName == "move_backward" {
      if fnArgs.Keys != {"cm"} { return Err(BadArguments(fnName)); }
      r := MoveBackward(robot, fnArgs["cm"]);
    } else if fnName == "rotate_left" {
      if fnArgs.Keys != {"degrees"} { return Err(BadArguments(fnName)); }
      r := RotateLeft(robot, fnArgs["degrees"]);
    } else if fnName == "rotate_right" {
      if fnArgs.Keys != {"degrees"} { return Err(BadArguments(fnName)); }
      r := RotateRight(robot, fnArgs["degrees"]);
    } else {
      return Ok(Text(chunks));
    }
    res := if r.Ok? then Ok(Record(r.value)) else Err(r.error);
  }

  // ---------------------------------------------------------------------------
  // One turn
  // ---------------------------------------------------------------------------

  /** Everything one turn computes from its text and the fragments it receives. */
  datatype TurnRecord = TurnRecord(
    prompt: string,
    frags: seq<Fragment>,
    commentary: string,
    call: Option<Call>,
    action: Action,
    effects: seq<Effect>,
    result: Result<Res, ToolError>,
    streamDone: bool,
    done: bool)

  /** One turn, as a function of its text and the fragments it receives. */
  function TurnOf(prompt: string, frags: seq<Fragment>): TurnRecord {
    var commentary := Commentary(frags[..FirstCall(frags)]);
    var call := CapturedCall(frags);
    var action := Decide(call, commentary);
    var result := ActionResult(action);
    var streamDone := AnyDone(frags[CursorAfterFold(frags)..]);
    var textDone := result.Ok? && result.value.Text? && ContainsDoneWord(result.value.text);
    TurnRecord(prompt, frags, commentary, call, action, ActionEffects(action), result, streamDone, streamDone || textDone)
  }

  /** The fold consumes the fragments before the first call fragment in
      order, stops there and keeps only that fragment's first call; the call
      fragment's own text and everything after it stay out of the
      commentary. */
  lemma FoldStopsAtFirstCall(prompt: string, before: seq<Fragment>, at: Fragment, after: seq<Fragment>)
    requires forall j :: 0 <= j < |before| ==> before[j].calls == []
    requires at.calls != []
    ensures TurnOf(prompt, before + [at] + after).commentary == Commentary(before)
    ensures TurnOf(prompt, before + [at] + after).call == Some(at.calls[0])
    ensures CursorAfterFold(before + [at] + after) == |before| + 1
  {
    var frags := before + [at] + after;
    var k := FirstCall(frags);
    assert frags[|before|] == at;
    assert k == |before|;
    assert frags[..k] == before;
  }

  /** Without any call the fold drains the stream, the commentary covers
      every fragment and nothing is dispatched. */
  lemma FoldWithoutCall(prompt: string, frags: seq<Fragment>)
    requires forall j :: 0 <= j < |frags| ==> frags[j].calls == []
    ensures TurnOf(prompt, frags).commentary == Commentary(frags)
    ensures TurnOf(prompt, frags).call == None
    ensures TurnOf(prompt, frags).effects == []
    ensures TurnOf(prompt, frags).result == Ok(Text(Commentary(frags)))
  {
    assert frags[..|frags|] == frags;
  }

  /** Dispatch is decided from the first fragment when it carries a call:
      what follows it (even a stream that would fail on its second fragment)
      does not change the action, its effects or its result. */
  lemma DispatchNeedsOnlyCallFragment(prompt: string, at: Fragment, after: seq<Fragment>)
    requires at.calls != []
    ensures TurnOf(prompt, [at] + after).action == TurnOf(prompt, [at]).action
    ensures TurnOf(prompt, [at] + after).effects == TurnOf(prompt, [at]).effects
    ensures TurnOf(prompt, [at] + after).result == TurnOf(prompt, [at]).result
  {
    FoldStopsAtFirstCall(prompt, [], at, after);
    FoldStopsAtFirstCall(prompt, [], at, []);
    assert [] + [at] + after == [at] + after;
    assert [] + [at] + [] == [at];
  }

  /** The stream-scan signal sees only the fragments the fold left unread:
      it holds exactly when one of them passes the test, so it is false
      whenever the fold drained the stream without finding a call. */
  lemma StreamScanResumes(prompt: string, frags: seq<Fragment>)
    ensures TurnOf(prompt, frags).streamDone <==>
      exists j :: CursorAfterFold(frags) <= j < |frags| && IsDoneText(frags[j].text)
    ensures TurnOf(prompt, frags).call.None? ==> !TurnOf(prompt, frags).streamDone
  {
    var c := CursorAfterFold(frags);
    var rest := frags[c..];
    assert forall j :: c <= j < |frags| ==> frags[j] == rest[j - c];
    if TurnOf(prompt, frags).streamDone {
      var j :| 0 <= j < |rest| && IsDoneText(rest[j].text);
      assert frags[c + j] == rest[j];
    }
  }

  /** The turn is done exactly when the stream scan says so or the turn's
      textual result contains the word `done`; the text signal can only add
      completion, and a record result never triggers it. */
  lemma CompletionSignals(prompt: string, frags: seq<Fragment>)
    ensures var t := TurnOf(prompt, frags);
      && (t.streamDone ==> t.done)
      && (t.done <==> t.streamDone || (t.result.Ok? && t.result.value.Text? && ContainsDoneWord(t.result.value.text)))
      && (t.result.Ok? && t.result.value.Record? ==> (t.done <==> t.streamDone))
  {
  }

  // ---------------------------------------------------------------------------
  // The chat session and the task loop
  // ---------------------------------------------------------------------------

  /** The stream the session returns for a request: the next scripted reply,
      or an empty stream once the script is exhausted. */
  function NextReply(replies: seq<seq<Fragment>>): seq<Fragment> {
    if replies == [] then [] else replies[0]
  }

  function LaterReplies(replies: seq<seq<Fragment>>): seq<seq<Fragment>> {
    if replies == [] then [] else replies[1..]
  }

  /** The replies left after `n` requests. */
  function DropReplies(replies: seq<seq<Fragment>>, n: nat): seq<seq<Fragment>> {
    if n >= |replies| then [] else replies[n..]
  }

  /** The one long-lived chat session, as far as the controller sees it: the
      texts sent to it, in order (never reset), and the replies the model will
      give to the coming requests. What the chat client itself records is not
      part of this model. */
  class Session {
    var sent: seq<string>
    var replies: seq<seq<Fragment>>

    constructor (replies: seq<seq<Fragment>>)
      ensures sent == [] && this.replies == replies
    {
      sent := [];
      this.replies := replies;
    }

    /** send_message_stream: records the request and returns a fresh stream of the next reply. */
    method Send(text: string) returns (stream: Stream)
      modifies this
      ensures fresh(stream) && stream.Valid() && stream.cursor == 0
      ensures stream.frags == NextReply(old(replies))
      ensures sent == old(sent) + [text] && replies == LaterReplies(old(replies))
    {
      stream := new Stream(NextReply(replies));
      sent := sent + [text];
      replies := LaterReplies(replies);
    }
  }

  /** `f"{res}"`: the text itself, or the record as Python prints a one-key
      dict, with the number printed by `show`. */
  function Render(res: Res, show: real -> string): string {
    match res
    case Text(text) => text
    case Record(Echo(key, value)) => "{'" + key + "': " + show(value) + "}"
  }

  /** The text part of the turn after one that ended with `res`. */
  function Feedback(res: Res, show: real -> string): string {
    Render(res, show) + FEEDBACK_SUFFIX
  }

  /** How a task ends: a completion signal, the turn bound, or an exception
      out of the dispatch step, which ends the program. */
  datatype TaskEnd = Completed | Abandoned | Crashed(error: ToolError)

  /** The turns a task ran and how it ended. */
  datatype Trace = Trace(turns: seq<TurnRecord>, end: TaskEnd)

  /** How one turn is computed from its text and the fragments it receives. */
  type Step = (string, seq<Fragment>) -> TurnRecord

  /** The task loop from turn `i` on, sending `prompt` next, with each turn
      computed by `step`. */
  function RunFrom(step: Step, prompt: string, replies: seq<seq<Fragment>>, i: nat, show: real -> string): Trace
    decreases MAX_TURNS - i
  {
    if i >= MAX_TURNS then Trace([], Abandoned)
    else
      var turn := step(prompt, NextReply(replies));
      if turn.result.Err? then Trace([turn], Crashed(turn.result.error))
      else if turn.done then Trace([turn], Completed)
      else
        var rest := RunFrom(step, Feedback(turn.result.value, show), LaterReplies(replies), i + 1, show);
        Trace([turn] + rest.turns, rest.end)
  }

  /** A whole task. */
  function RunTaskSpec(task: string, replies: seq<seq<Fragment>>, show: real -> string): Trace {
    RunFrom(TurnOf, TASK_PREFIX + task, replies, 0, show)
  }

  /** The texts sent by a sequence of turns. */
  function Prompts(turns: seq<TurnRecord>): seq<string> {
    if turns == [] then [] else Prompts(turns[..|turns| - 1]) + [turns[|turns| - 1].prompt]
  }

  /** The effects issued by a sequence of turns, in order. */
  function Effects(turns: seq<TurnRecord>): seq<Effect> {
    if turns == [] then [] else Effects(turns[..|turns| - 1]) + turns[|turns| - 1].effects
  }

  /** The loop runs at most MAX_TURNS - i more turns and at least one while
      turns remain; it is abandoned only after using every one of them. */
  lemma {:induction false} RunBounded(step: Step, prompt: string, replies: seq<seq<Fragment>>, i: nat, show: real -> string)
    requires i <= MAX_TURNS
    ensures |RunFrom(step, prompt, replies, i, show).turns| <= MAX_TURNS - i
    ensures i < MAX_TURNS ==> |RunFrom(step, prompt, replies, i, show).turns| >= 1
    ensures RunFrom(step, prompt, replies, i, show).end.Abandoned? ==> |RunFrom(step, prompt, replies, i, show).turns| == MAX_TURNS - i
    decreases MAX_TURNS - i
  {
    if i < MAX_TURNS {
      var turn := step(prompt, NextReply(replies));
      if turn.result.Ok? && !turn.done {
        RunBounded(step, Feedback(turn.result.value, show), LaterReplies(replies), i + 1, show);
      }
    }
  }

  /** The turns of a run are chained as the loop chains them: the first sends
      `prompt`; a turn that returned and was not done is followed by one that
      sends the rendering of its result plus the suffix; and the last turn
      explains the end (done, raised, or neither with the bound reached). */
  ghost predicate Chained(prompt: string, turns: seq<TurnRecord>, end: TaskEnd, show: real -> string)
    decreases |turns|
  {
    if turns == [] then end.Abandoned?
    else
      var t := turns[0];
      && t.prompt == prompt
      && if |turns| == 1 then
           match end
           case Completed => t.result.Ok? && t.done
           case Crashed(e) => t.result == Err(e)
           case Abandoned => t.result.Ok? && !t.done
         else
           t.result.Ok? && !t.done && Chained(Feedback(t.result.value, show), turns[1..], end, show)
  }

  /** Every run is chained, when each turn records the text it was sent. */
  lemma {:induction false} RunChained(step: Step, prompt: string, replies: seq<seq<Fragment>>, i: nat, show: real -> string)
    requires forall p, f :: step(p, f).prompt == p
    ensures Chained(prompt, RunFrom(step, prompt, replies, i, show).turns, RunFrom(step, prompt, replies, i, show).end, show)
    decreases MAX_TURNS - i
  {
    if i < MAX_TURNS {
      var turn := step(prompt, NextReply(replies));
      if turn.result.Ok? && !turn.done {
        var next := Feedback(turn.result.value, show);
        var rest := RunFrom(step, next, LaterReplies(replies), i + 1, show);
        RunChained(step, next, LaterReplies(replies), i + 1, show);
        RunBounded(step, next, LaterReplies(replies), i + 1, show);
        var t := RunFrom(step, prompt, replies, i, show);
        assert t.turns[1..] == rest.turns;
      }
    }
  }

  /** The whole-task properties: at most 15 turns, the first sends
      "TASK:" + task, the turns are chained by the feedback text, and the
      loop ends only on completion, an exception, or the bound. */
  lemma TaskProperties(task: string, replies: seq<seq<Fragment>>, show: real -> string)
    ensures 1 <= |RunTaskSpec(task, replies, show).turns| <= MAX_TURNS
    ensures RunTaskSpec(task, replies, show).turns[0].prompt == TASK_PREFIX + task
    ensures Chained(TASK_PREFIX + task, RunTaskSpec(task, replies, show).turns, RunTaskSpec(task, replies, show).end, show)
    ensures RunTaskSpec(task, replies, show).end.Abandoned? ==> |RunTaskSpec(task, replies, show).turns| == MAX_TURNS
  {
    RunBounded(TurnOf, TASK_PREFIX + task, replies, 0, show);
    RunChained(TurnOf, TASK_PREFIX + task, replies, 0, show);
  }

  /** One unfolding of the loop: what the run from turn `i` is, given the turn it starts with. */
  lemma RunStep(step: Step, prompt: string, replies: seq<seq<Fragment>>, i: nat, show: real -> string)
    requires i < MAX_TURNS
    ensures var turn := step(prompt, NextReply(replies));
      var t := RunFrom(step, prompt, replies, i, show);
      && (turn.result.Err? ==> t == Trace([turn], Crashed(turn.result.error)))
      && (turn.result.Ok? && turn.done ==> t == Trace([turn], Completed))
      && (turn.result.Ok? && !turn.done ==>
            var rest := RunFrom(step, Feedback(turn.result.value, show), LaterReplies(replies), i + 1, show);
            t == Trace([turn] + rest.turns, rest.end))
  {
  }

  /** Moving the next turn from the remaining run to the turns done. */
  lemma ShiftTurn(turns: seq<TurnRecord>, turn: TurnRecord, rest: Trace)
    ensures Trace(turns + ([turn] + rest.turns), rest.end) == Trace((turns + [turn]) + rest.turns, rest.end)
  {
    assert turns + ([turn] + rest.turns) == (turns + [turn]) + rest.turns;
  }

  /** Appending a turn appends its text and its effects. */
  lemma Snoc(turns: seq<TurnRecord>, turn: TurnRecord)
    ensures Prompts(turns + [turn]) == Prompts(turns) + [turn.prompt]
    ensures Effects(turns + [turn]) == Effects(turns) + turn.effects
  {
    assert (turns + [turn])[..|turns|] == turns;
  }

  /** Asking for one more reply after `n` drops one more. */
  lemma DropOneMore(replies: seq<seq<Fragment>>, n: nat)
    ensures LaterReplies(DropReplies(replies, n)) == DropReplies(replies, n + 1)
  {
  }

  /** What the session and the robot hold after `turns`, starting from
      `sent0`, `replies0` and `trace0`. */
  ghost predicate Played(sent0: seq<string>, replies0: seq<seq<Fragment>>, trace0: seq<Effect>,
                         turns: seq<TurnRecord>,
                         sent: seq<string>, replies: seq<seq<Fragment>>, trace: seq<Effect>)
  {
    && sent == sent0 + Prompts(turns)
    && replies == DropReplies(replies0, |turns|)
    && trace == trace0 + Effects(turns)
  }

  /** Playing one more turn keeps `Played`. */
  lemma PlayedStep(sent0: seq<string>, replies0: seq<seq<Fragment>>, trace0: seq<Effect>,
                   turns: seq<TurnRecord>, turn: TurnRecord,
                   sent: seq<string>, replies: seq<seq<Fragment>>, trace: seq<Effect>)
    requires Played(sent0, replies0, trace0, turns, sent, replies, trace)
    ensures Played(sent0, replies0, trace0, turns + [turn],
                   sent + [turn.prompt], LaterReplies(replies), trace + turn.effects)
  {
    Snoc(turns, turn);
    DropOneMore(replies0, |turns|);
    assert sent0 + Prompts(turns) + [turn.prompt] == sent0 + (Prompts(turns) + [turn.prompt]);
    assert trace0 + Effects(turns) + turn.effects == trace0 + (Effects(turns) + turn.effects);
  }

  /** The body of one loop iteration (final_control.py:141-170, without the
      camera frame and the timing): send, fold, dispatch, scan, and evaluate
      the text signal. Returns the turn's result and completion flag. */
  method PlayTurn(parts: string, session: Session, robot: Robot) returns (res: Result<Res, ToolError>, done: bool, ghost turn: TurnRecord)
    modifies session, robot
    ensures turn == TurnOf(parts, NextReply(old(session.replies)))
    ensures res == turn.result && (res.Ok? ==> done == turn.done)
    ensures session.sent == old(session.sent) + [parts]
    ensures session.replies == LaterReplies(old(session.replies))
    ensures robot.trace == old(robot.trace) + turn.effects
  {
    turn := TurnOf(parts, NextReply(session.replies));
    var stream := session.Send(parts);
    var chunks, call := ConsumeUntilCall(stream);
    res := Perform(robot, call, chunks);
    if res.Err? {
      return res, false, turn;
    }
    done := ScanForDone(stream);
    if res.value.Text? && ContainsDoneWord(res.value.text) {
      done := true;
    }
  }

  /** One iteration of the task loop, turn `i` of a task whose remaining run,
      from this turn on, completes `spec` after the turns already played. */
  method TaskTurn(parts: string, i: nat, session: Session, robot: Robot, show: real -> string,
                  ghost spec: Trace, ghost turns: seq<TurnRecord>,
                  ghost sent0: seq<string>, ghost replies0: seq<seq<Fragment>>, ghost trace0: seq<Effect>)
    returns (res: Result<Res, ToolError>, done: bool, ghost turn: TurnRecord)
    requires i < MAX_TURNS
    requires Played(sent0, replies0, trace0, turns, session.sent, session.replies, robot.trace)
    requires spec == Trace(turns + RunFrom(TurnOf, parts, session.replies, i, show).turns,
                           RunFrom(TurnOf, parts, session.replies, i, show).end)
    modifies session, robot
    ensures Played(sent0, replies0, trace0, turns + [turn], session.sent, session.replies, robot.trace)
    ensures res.Err? ==> spec == Trace(turns + [turn], Crashed(res.error))
    ensures res.Ok? && done ==> spec == Trace(turns + [turn], Completed)
    ensures res.Ok? && !done ==>
      spec == Trace((turns + [turn]) + RunFrom(TurnOf, Feedback(res.value, show), session.replies, i + 1, show).turns,
                    RunFrom(TurnOf, Feedback(res.value, show), session.replies, i + 1, show).end)
  {
    ghost var before := (session.sent, session.replies, robot.trace);
    RunStep(TurnOf, parts, before.1, i, show);
    res, done, turn := PlayTurn(parts, session, robot);
    PlayedStep(sent0, replies0, trace0, turns, turn, before.0, before.1, before.2);
    if res.Ok? && !done {
      ShiftTurn(turns, turn, RunFrom(TurnOf, Feedback(res.value, show), session.replies, i + 1, show));
    }
  }

  /** The inner `while not done and i < MAX` loop for one task
      (final_control.py:132-170). */
  method RunTask(task: string, session: Session, robot: Robot, show: real -> string)
    returns (end: TaskEnd, turnsRun: nat, ghost turns: seq<TurnRecord>)
    modifies session, robot
    ensures Trace(turns, end) == RunTaskSpec(task, old(session.replies), show)
    ensures turnsRun == |turns| <= MAX_TURNS
    ensures Played(old(session.sent), old(session.replies), old(robot.trace), turns,
                   session.sent, session.replies, robot.trace)
  {
    ghost var spec := RunTaskSpec(task, session.replies, show);
    ghost var sent0, replies0, trace0 := session.sent, session.replies, robot.trace;
    var parts := TASK_PREFIX + task;
    var done, i := false, 0;
    turns := [];
    while !done && i < MAX_TURNS
      invariant 0 <= i <= MAX_TURNS && i == |turns|
      invariant Played(sent0, replies0, trace0, turns, session.sent, session.replies, robot.trace)
      invariant done ==> spec == Trace(turns, Completed)
      invariant !done ==> spec == Trace(turns + RunFrom(TurnOf, parts, session.replies, i, show).turns,
                                        RunFrom(TurnOf, parts, session.replies, i, show).end)
      decreases MAX_TURNS - i
    {
      var res;
      ghost var turn;
      res, done, turn := TaskTurn(parts, i, session, robot, show, spec, turns, sent0, replies0, trace0);
      turns := turns + [turn];
      if res.Err? {
        return Crashed(res.error), i + 1, turns;
      }
      parts := Feedback(res.value, show);
      i := i + 1;
    }
    if done {
      end := Completed;
    } else {
      end := Abandoned;
    }
    turnsRun := i;
  }
}
