/** The outer `while True` loop of the controller (final_control.py:96-170):
    select a task, run it for at most MAX_TURNS turns on the one chat session,
    and select the next. The program ends when `exit!` is typed, when the
    console has no more input, or when an actuator raises. */
module ControlLoop {
  import opened Wrappers
  import opened Tools
  import opened TaskSelection
  import opened TurnLoop

  /** How the program stops: `sys.exit(0)` after `exit!`, end of console
      input (`input()` raising), or the exception an actuator raised. */
  datatype Outcome = ExitRequested | InputEnded | Failed(error: ToolError)

  /** One task and the turns it ran. */
  datatype Episode = Episode(task: string, trace: Trace)

  /** Every task the program ran, in order, and how it stopped. */
  datatype Run = Run(episodes: seq<Episode>, outcome: Outcome)

  /** How one task is run, given the model's replies to the coming requests. */
  type TaskRunner = (string, seq<seq<Fragment>>) -> Trace

  /** `run` is the task loop of final_control.py:132-170, with numbers
      printed by `show`. */
  ghost predicate RunsTasks(run: TaskRunner, show: real -> string) {
    forall task, rs {:trigger RunTaskSpec(task, rs, show)} :: run(task, rs) == RunTaskSpec(task, rs, show)
  }

  /** The program from console line `pos` and voice call `vpos` on, with
      `replies` the model's replies to the coming requests and each task run
      by `run`. */
  function ProgramFrom(run: TaskRunner, lines: seq<string>, voiceEnabled: bool, voice: seq<Option<string>>,
                       replies: seq<seq<Fragment>>, pos: nat, vpos: nat): Run
    requires pos <= |lines|
    decreases |lines| - pos
  {
    var s := SelectFrom(lines, voiceEnabled, voice, pos, vpos);
    match s.selection
    case Exit => Run([], ExitRequested)
    case InputClosed => Run([], InputEnded)
    case Chosen(task) =>
      var t := run(task, replies);
      if t.end.Crashed? then Run([Episode(task, t)], Failed(t.end.error))
      else
        var rest := ProgramFrom(run, lines, voiceEnabled, voice, DropReplies(replies, |t.turns|), s.lines, s.voiceCalls);
        Run([Episode(task, t)] + rest.episodes, rest.outcome)
  }

  /** The turns of all episodes, in order. */
  function AllTurns(episodes: seq<Episode>): seq<TurnRecord> {
    if episodes == [] then [] else AllTurns(episodes[..|episodes| - 1]) + episodes[|episodes| - 1].trace.turns
  }

  /** Every task the program runs is non-empty, ran between one and
      MAX_TURNS turns, and started with `TASK:` and the task; each task used
      at least one console line. */
  lemma {:induction false} ProgramEpisodes(run: TaskRunner, lines: seq<string>, voiceEnabled: bool, voice: seq<Option<string>>,
                                           replies: seq<seq<Fragment>>, pos: nat, vpos: nat)
    requires pos <= |lines|
    requires forall task, rs :: 1 <= |run(task, rs).turns| <= MAX_TURNS && run(task, rs).turns[0].prompt == TASK_PREFIX + task
    ensures var r := ProgramFrom(run, lines, voiceEnabled, voice, replies, pos, vpos);
      && |r.episodes| <= |lines| - pos
      && (forall k :: 0 <= k < |r.episodes| ==>
            && r.episodes[k].task != ""
            && 1 <= |r.episodes[k].trace.turns| <= MAX_TURNS
            && r.episodes[k].trace.turns[0].prompt == TASK_PREFIX + r.episodes[k].task)
    decreases |lines| - pos
  {
    SelectFromMeaning(lines, voiceEnabled, voice, pos, vpos);
    var s := SelectFrom(lines, voiceEnabled, voice, pos, vpos);
    if s.selection.Chosen? {
      var task := s.selection.task;
      var t := run(task, replies);
            if !t.end.Crashed? {
        var rest := ProgramFrom(run, lines, voiceEnabled, voice, DropReplies(replies, |t.turns|), s.lines, s.voiceCalls);
        ProgramEpisodes(run, lines, voiceEnabled, voice, DropReplies(replies, |t.turns|), s.lines, s.voiceCalls);
        var r := ProgramFrom(run, lines, voiceEnabled, voice, replies, pos, vpos);
        assert r.episodes == [Episode(task, t)] + rest.episodes;
        assert forall k :: 1 <= k < |r.episodes| ==> r.episodes[k] == rest.episodes[k - 1];
      }
    }
  }

  /** Only the last task can have crashed, and the program stops with a
      failure exactly when it did, reporting that task's error. */
  lemma {:induction false} ProgramFailsLast(run: TaskRunner, lines: seq<string>, voiceEnabled: bool, voice: seq<Option<string>>,
                                            replies: seq<seq<Fragment>>, pos: nat, vpos: nat)
    requires pos <= |lines|
    requires forall task, rs :: 1 <= |run(task, rs).turns| <= MAX_TURNS && run(task, rs).turns[0].prompt == TASK_PREFIX + task
    ensures var r := ProgramFrom(run, lines, voiceEnabled, voice, replies, pos, vpos);
      && (forall k :: 0 <= k < |r.episodes| - 1 ==> !r.episodes[k].trace.end.Crashed?)
      && (r.outcome.Failed? <==> r.episodes != [] && r.episodes[|r.episodes| - 1].trace.end.Crashed?)
      && (r.outcome.Failed? ==> r.episodes[|r.episodes| - 1].trace.end == Crashed(r.outcome.error))
    decreases |lines| - pos
  {
    SelectFromMeaning(lines, voiceEnabled, voice, pos, vpos);
    var s := SelectFrom(lines, voiceEnabled, voice, pos, vpos);
    if s.selection.Chosen? {
      var task := s.selection.task;
      var t := run(task, replies);
      if !t.end.Crashed? {
        var rest := ProgramFrom(run, lines, voiceEnabled, voice, DropReplies(replies, |t.turns|), s.lines, s.voiceCalls);
        ProgramFailsLast(run, lines, voiceEnabled, voice, DropReplies(replies, |t.turns|), s.lines, s.voiceCalls);
        var r := ProgramFrom(run, lines, voiceEnabled, voice, replies, pos, vpos);
        assert r.episodes == [Episode(task, t)] + rest.episodes;
        assert forall k :: 1 <= k < |r.episodes| ==> r.episodes[k] == rest.episodes[k - 1];
      }
    }
  }

  /** The program exits on request only after reading `exit!`. */
  lemma {:induction false} ProgramExitsOnCommand(run: TaskRunner, lines: seq<string>, voiceEnabled: bool, voice: seq<Option<string>>,
                                                 replies: seq<seq<Fragment>>, pos: nat, vpos: nat)
    requires pos <= |lines|
    requires forall task, rs :: 1 <= |run(task, rs).turns| <= MAX_TURNS && run(task, rs).turns[0].prompt == TASK_PREFIX + task
    ensures ProgramFrom(run, lines, voiceEnabled, voice, replies, pos, vpos).outcome.ExitRequested? ==> EXIT_COMMAND in lines[pos..]
    decreases |lines| - pos
  {
    SelectFromMeaning(lines, voiceEnabled, voice, pos, vpos);
    var s := SelectFrom(lines, voiceEnabled, voice, pos, vpos);
    if s.selection.Exit? {
      assert lines[pos..][s.lines - 1 - pos] == EXIT_COMMAND;
    } else if s.selection.Chosen? {
      var t := run(s.selection.task, replies);
      if !t.end.Crashed? {
        ProgramExitsOnCommand(run, lines, voiceEnabled, voice, DropReplies(replies, |t.turns|), s.lines, s.voiceCalls);
        assert lines[s.lines..] == lines[pos..][s.lines - pos..];
      }
    }
  }

  /** The properties above for the controller's own task loop, from the
      first console line on. */
  lemma ProgramProperties(run: TaskRunner, lines: seq<string>, voiceEnabled: bool, voice: seq<Option<string>>,
                          replies: seq<seq<Fragment>>, show: real -> string)
    requires RunsTasks(run, show)
    ensures var r := ProgramFrom(run, lines, voiceEnabled, voice, replies, 0, 0);
      && |r.episodes| <= |lines|
      && (forall k :: 0 <= k < |r.episodes| ==>
            && r.episodes[k].task != ""
            && 1 <= |r.episodes[k].trace.turns| <= MAX_TURNS
            && r.episodes[k].trace.turns[0].prompt == TASK_PREFIX + r.episodes[k].task)
      && (forall k :: 0 <= k < |r.episodes| - 1 ==> !r.episodes[k].trace.end.Crashed?)
      && (r.outcome.Failed? <==> r.episodes != [] && r.episodes[|r.episodes| - 1].trace.end.Crashed?)
      && (r.outcome.Failed? ==> r.episodes[|r.episodes| - 1].trace.end == Crashed(r.outcome.error))
      && (r.outcome.ExitRequested? ==> EXIT_COMMAND in lines)
  {
    forall task, rs
      ensures 1 <= |run(task, rs).turns| <= MAX_TURNS && run(task, rs).turns[0].prompt == TASK_PREFIX + task
    {
      TaskProperties(task, rs, show);
    }
    ProgramEpisodes(run, lines, voiceEnabled, voice, replies, 0, 0);
    ProgramFailsLast(run, lines, voiceEnabled, voice, replies, 0, 0);
    ProgramExitsOnCommand(run, lines, voiceEnabled, voice, replies, 0, 0);
    assert lines[0..] == lines;
  }

  /** The turns of two runs of turns played one after the other. */
  lemma {:induction false} PromptsAndEffectsAppend(a: seq<TurnRecord>, b: seq<TurnRecord>)
    ensures Prompts(a + b) == Prompts(a) + Prompts(b)
    ensures Effects(a + b) == Effects(a) + Effects(b)
    decreases |b|
  {
    if b == [] {
      assert a + b == a;
    } else {
      var front := b[..|b| - 1];
      PromptsAndEffectsAppend(a, front);
      assert (a + b)[..|a + b| - 1] == a + front;
      assert (a + b)[|a + b| - 1] == b[|b| - 1];
      assert Prompts(a) + Prompts(front) + [b[|b| - 1].prompt] == Prompts(a) + (Prompts(front) + [b[|b| - 1].prompt]);
      assert Effects(a) + Effects(front) + b[|b| - 1].effects == Effects(a) + (Effects(front) + b[|b| - 1].effects);
    }
  }

  /** Playing `a` and then `b` leaves what playing `a + b` leaves. */
  lemma PlayedCompose(sent0: seq<string>, replies0: seq<seq<Fragment>>, trace0: seq<Effect>, a: seq<TurnRecord>,
                      sent1: seq<string>, replies1: seq<seq<Fragment>>, trace1: seq<Effect>, b: seq<TurnRecord>,
                      sent2: seq<string>, replies2: seq<seq<Fragment>>, trace2: seq<Effect>)
    requires Played(sent0, replies0, trace0, a, sent1, replies1, trace1)
    requires Played(sent1, replies1, trace1, b, sent2, replies2, trace2)
    ensures Played(sent0, replies0, trace0, a + b, sent2, replies2, trace2)
  {
    PromptsAndEffectsAppend(a, b);
    assert sent0 + Prompts(a) + Prompts(b) == sent0 + (Prompts(a) + Prompts(b));
    assert trace0 + Effects(a) + Effects(b) == trace0 + (Effects(a) + Effects(b));
    if |a| + |b| < |replies0| {
      assert replies0[|a|..][|b|..] == replies0[|a| + |b|..];
    }
  }

  /** A selection that ends the program ends the run there. */
  lemma StopStep(run: TaskRunner, lines: seq<string>, voiceEnabled: bool, voice: seq<Option<string>>,
                 replies: seq<seq<Fragment>>, pos: nat, vpos: nat, episodes: seq<Episode>, spec: Run)
    requires pos <= |lines|
    requires spec == Run(episodes + ProgramFrom(run, lines, voiceEnabled, voice, replies, pos, vpos).episodes,
                         ProgramFrom(run, lines, voiceEnabled, voice, replies, pos, vpos).outcome)
    ensures SelectFrom(lines, voiceEnabled, voice, pos, vpos).selection.Exit? ==> spec == Run(episodes, ExitRequested)
    ensures SelectFrom(lines, voiceEnabled, voice, pos, vpos).selection.InputClosed? ==> spec == Run(episodes, InputEnded)
  {
    assert episodes + [] == episodes;
  }

  /** A chosen task adds its episode to the run; unless it crashed, the rest
      of the run starts from the next console line and the replies it left. */
  lemma ChosenStep(run: TaskRunner, lines: seq<string>, voiceEnabled: bool, voice: seq<Option<string>>,
                   replies: seq<seq<Fragment>>, pos: nat, vpos: nat, episodes: seq<Episode>, spec: Run,
                   task: string, nextPos: nat, nextVpos: nat, t: Trace)
    requires pos <= |lines|
    requires spec == Run(episodes + ProgramFrom(run, lines, voiceEnabled, voice, replies, pos, vpos).episodes,
                         ProgramFrom(run, lines, voiceEnabled, voice, replies, pos, vpos).outcome)
    requires SelectFrom(lines, voiceEnabled, voice, pos, vpos) == Selected(Chosen(task), nextPos, nextVpos)
    requires t == run(task, replies)
    ensures pos < nextPos <= |lines|
    ensures t.end.Crashed? ==> spec == Run(episodes + [Episode(task, t)], Failed(t.end.error))
    ensures !t.end.Crashed? ==>
      var rest := ProgramFrom(run, lines, voiceEnabled, voice, DropReplies(replies, |t.turns|), nextPos, nextVpos);
      spec == Run((episodes + [Episode(task, t)]) + rest.episodes, rest.outcome)
  {
    if !t.end.Crashed? {
      var rest := ProgramFrom(run, lines, voiceEnabled, voice, DropReplies(replies, |t.turns|), nextPos, nextVpos);
      assert episodes + ([Episode(task, t)] + rest.episodes) == (episodes + [Episode(task, t)]) + rest.episodes;
    }
  }

  /** Playing one more task's turns keeps `Played` over all episodes. */
  lemma PlayedEpisode(sent0: seq<string>, replies0: seq<seq<Fragment>>, trace0: seq<Effect>, episodes: seq<Episode>,
                      sent1: seq<string>, replies1: seq<seq<Fragment>>, trace1: seq<Effect>, episode: Episode,
                      sent2: seq<string>, replies2: seq<seq<Fragment>>, trace2: seq<Effect>)
    requires Played(sent0, replies0, trace0, AllTurns(episodes), sent1, replies1, trace1)
    requires Played(sent1, replies1, trace1, episode.trace.turns, sent2, replies2, trace2)
    ensures Played(sent0, replies0, trace0, AllTurns(episodes + [episode]), sent2, replies2, trace2)
  {
    PlayedCompose(sent0, replies0, trace0, AllTurns(episodes), sent1, replies1, trace1, episode.trace.turns,
                  sent2, replies2, trace2);
    assert (episodes + [episode])[..|episodes|] == episodes;
  }

  /** The outer loop of the controller: select a task, run it, repeat. */
  method Control(lines: seq<string>, voiceEnabled: bool, voice: seq<Option<string>>,
                 session: Session, robot: Robot, show: real -> string, ghost run: TaskRunner)
    returns (outcome: Outcome, ghost episodes: seq<Episode>)
    requires RunsTasks(run, show)
    modifies session, robot
    ensures Run(episodes, outcome) == ProgramFrom(run, lines, voiceEnabled, voice, old(session.replies), 0, 0)
    ensures Played(old(session.sent), old(session.replies), old(robot.trace), AllTurns(episodes),
                   session.sent, session.replies, robot.trace)
  {
    ghost var spec := ProgramFrom(run, lines, voiceEnabled, voice, session.replies, 0, 0);
    ghost var sent0, replies0, trace0 := session.sent, session.replies, robot.trace;
    var pos: nat, vpos: nat := 0, 0;
    episodes := [];
    while true
      invariant pos <= |lines|
      invariant Played(sent0, replies0, trace0, AllTurns(episodes), session.sent, session.replies, robot.trace)
      invariant spec == Run(episodes + ProgramFrom(run, lines, voiceEnabled, voice, session.replies, pos, vpos).episodes,
                            ProgramFrom(run, lines, voiceEnabled, voice, session.replies, pos, vpos).outcome)
      decreases |lines| - pos
    {
      var selection, nextPos, nextVpos := SelectTask(lines, voiceEnabled, voice, pos, vpos);
      if selection.Exit? || selection.InputClosed? {
        StopStep(run, lines, voiceEnabled, voice, session.replies, pos, vpos, episodes, spec);
        return if selection.Exit? then ExitRequested else InputEnded, episodes;
      }
      var task := selection.task;
      ghost var before := (session.sent, session.replies, robot.trace);
      var end, turnsRun, turns := RunTask(task, session, robot, show);
      ghost var episode := Episode(task, Trace(turns, end));
      ChosenStep(run, lines, voiceEnabled, voice, before.1, pos, vpos, episodes, spec, task, nextPos, nextVpos, episode.trace);
      PlayedEpisode(sent0, replies0, trace0, episodes, before.0, before.1, before.2, episode,
                    session.sent, session.replies, robot.trace);
      episodes := episodes + [episode];
      if end.Crashed? {
        return Failed(end.error), episodes;
      }
      pos, vpos := nextPos, nextVpos;
    }
  }
}
