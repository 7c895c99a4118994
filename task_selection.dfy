/** Task selection (final_control.py:96-128): prompt until a task is
    obtained. Typed lines come from a console given as the sequence of lines
    it would yield; the voice pipeline is an oracle given as the sequence of
    answers it would give, in order (a missing answer is `None`). */
module TaskSelection {
  import opened Wrappers

  /** The line that quits the program. */
  const EXIT_COMMAND: string := "exit!"
  /** What the voice pipeline returns when the user asks to choose again. */
  const RETRY_SIGNAL: string := "RETRY_INPUT_REQUESTED_BY_USER"

  /** How one round of selection ends: `exit!`, a task, or the console
      reaching end of input (where `input()` raises EOFError). */
  datatype Selection = Exit | Chosen(task: string) | InputClosed

  /** A selection and how many console lines and voice answers it used. */
  datatype Selected = Selected(selection: Selection, lines: nat, voiceCalls: nat)

  /** The answer of the `k`-th call to the voice pipeline. */
  function VoiceAnswer(voice: seq<Option<string>>, k: nat): Option<string> {
    if k < |voice| then voice[k] else None
  }

  /** A voice answer is taken as the task when it is truthy and not the retry signal. */
  predicate AcceptsVoice(answer: Option<string>) {
    answer.Some? && answer.value != "" && answer.value != RETRY_SIGNAL
  }

  /** The selection loop from console line `pos` and voice call `vpos` on. */
  function SelectFrom(lines: seq<string>, voiceEnabled: bool, voice: seq<Option<string>>, pos: nat, vpos: nat): (r: Selected)
    ensures pos <= r.lines && (pos <= |lines| ==> r.lines <= |lines|)
    ensures !r.selection.InputClosed? ==> pos < r.lines
    decreases |lines| - pos
  {
    if pos >= |lines| then Selected(InputClosed, pos, vpos)
    else if lines[pos] == EXIT_COMMAND then Selected(Exit, pos + 1, vpos)
    else if lines[pos] == "" && voiceEnabled then
      if AcceptsVoice(VoiceAnswer(voice, vpos)) then Selected(Chosen(VoiceAnswer(voice, vpos).value), pos + 1, vpos + 1)
      else SelectFrom(lines, voiceEnabled, voice, pos + 1, vpos + 1)
    else if lines[pos] != "" then Selected(Chosen(lines[pos]), pos + 1, vpos)
    else SelectFrom(lines, voiceEnabled, voice, pos + 1, vpos)
  }

  /** What one round of selection means, from any starting point: every line
      it re-prompted on was empty; `exit!` ends it; a typed task is the
      non-empty line verbatim; a voice task is a truthy answer other than the
      retry signal, reached by an empty line with voice enabled, and every
      earlier empty line got an answer that was not accepted; the voice
      pipeline is called once per empty line when enabled and never
      otherwise; and the round never ends with an empty task. */
  lemma {:induction false} SelectFromMeaning(lines: seq<string>, voiceEnabled: bool, voice: seq<Option<string>>, pos: nat, vpos: nat)
    requires pos <= |lines|
    ensures var r := SelectFrom(lines, voiceEnabled, voice, pos, vpos);
      && pos <= r.lines <= |lines|
      && (forall j :: pos <= j < r.lines && (j < r.lines - 1 || r.selection.InputClosed?) ==>
            lines[j] == "" && (voiceEnabled ==> !AcceptsVoice(VoiceAnswer(voice, vpos + (j - pos)))))
      && (r.selection.InputClosed? ==> r.lines == |lines|)
      && (!r.selection.InputClosed? ==> pos < r.lines)
      && (r.selection.Exit? ==> lines[r.lines - 1] == EXIT_COMMAND)
      && (r.selection.Chosen? ==> r.selection.task != "")
      && (r.selection.Chosen? && lines[r.lines - 1] != "" ==>
            r.selection.task == lines[r.lines - 1] && r.selection.task != EXIT_COMMAND && r.voiceCalls == vpos + (if voiceEnabled then r.lines - 1 - pos else 0))
      && (r.selection.Chosen? && lines[r.lines - 1] == "" ==>
            voiceEnabled && r.voiceCalls == vpos + (r.lines - pos) && Some(r.selection.task) == VoiceAnswer(voice, r.voiceCalls - 1)
            && AcceptsVoice(VoiceAnswer(voice, r.voiceCalls - 1)))
      && (r.selection.InputClosed? ==> r.voiceCalls == vpos + (if voiceEnabled then r.lines - pos else 0))
      && (r.selection.Exit? ==> r.voiceCalls == vpos + (if voiceEnabled then r.lines - 1 - pos else 0))
    decreases |lines| - pos
  {
    if pos < |lines| && lines[pos] == "" {
      if voiceEnabled && !AcceptsVoice(VoiceAnswer(voice, vpos)) {
        SelectFromMeaning(lines, voiceEnabled, voice, pos + 1, vpos + 1);
      } else if !voiceEnabled {
        SelectFromMeaning(lines, voiceEnabled, voice, pos + 1, vpos);
      }
    }
  }

  /** The inner `while TASK is None` loop, entered with the console at line
      `pos` and the voice pipeline at call `vpos`: returns the selection and
      where the console and the voice pipeline stand afterwards. */
  method SelectTask(lines: seq<string>, voiceEnabled: bool, voice: seq<Option<string>>, pos: nat, vpos: nat)
    returns (selection: Selection, linesRead: nat, voiceCalls: nat)
    requires pos <= |lines|
    ensures Selected(selection, linesRead, voiceCalls) == SelectFrom(lines, voiceEnabled, voice, pos, vpos)
  {
    linesRead, voiceCalls := pos, vpos;
    while true
      invariant linesRead <= |lines|
      invariant SelectFrom(lines, voiceEnabled, voice, linesRead, voiceCalls) == SelectFrom(lines, voiceEnabled, voice, pos, vpos)
      decreases |lines| - linesRead
    {
      if linesRead == |lines| {
        return InputClosed, linesRead, voiceCalls;
      }
      var userChoice := lines[linesRead];
      linesRead := linesRead + 1;
      if userChoice == EXIT_COMMAND {
        return Exit, linesRead, voiceCalls;
      } else if userChoice == "" && voiceEnabled {
        var fromVoice := VoiceAnswer(voice, voiceCalls);
        voiceCalls := voiceCalls + 1;
        if fromVoice.Some? && fromVoice.value != "" && fromVoice.value != RETRY_SIGNAL {
          return Chosen(fromVoice.value), linesRead, voiceCalls;
        }
      } else if userChoice != "" {
        return Chosen(userChoice), linesRead, voiceCalls;
      }
    }
  }

  /** Selection examples: empty input re-prompts, a retry or failed voice
      answer re-prompts, an accepted voice answer ends the round before the
      next line is read, and a typed line is taken verbatim. */
  lemma SelectExamples()
    ensures SelectFrom(["", "go to the red cup"], false, [], 0, 0) == Selected(Chosen("go to the red cup"), 2, 0)
    ensures SelectFrom(["", "", ""], true, [Some(RETRY_SIGNAL), None, Some("find the ball")], 0, 0)
              == Selected(Chosen("find the ball"), 3, 3)
    ensures SelectFrom(["", "exit!"], true, [Some("")], 0, 0) == Selected(Exit, 2, 1)
    ensures SelectFrom(["", "go"], true, [Some("find the ball")], 0, 0) == Selected(Chosen("find the ball"), 1, 1)
    ensures SelectFrom([""], false, [], 0, 0) == Selected(InputClosed, 1, 0)
  {
  }
}
