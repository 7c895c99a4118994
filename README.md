# PiCar turn controller and tools, modelled in Dafny

This project models the decision logic of a PiCar-4WD controller. The
controller drives the car through a chat session with a vision-language
model. The model is written in Dafny and its properties are proved.

An operator picks a task:
- by typing it;
- or, when voice input is enabled, by pressing Enter and speaking it;
- typing `exit!` quits.

Each task then runs as a loop of at most 15 turns. In each turn, the
controller sends a text part (and a camera frame) to the one long-lived
chat session. It then reads the streamed reply fragment by fragment, up to
the first fragment that carries a function call. It dispatches that call
to one of four movement tools (`move_forward`, `move_backward`,
`rotate_left`, `rotate_right`); without a tool call, it keeps the text it
accumulated. The task is complete when either of two signals fires:
- a later fragment's text is `done`;
- the textual result contains the word `done`.

The feedback text for the next turn is built from the turn's result.

Each movement tool converts its argument into a hold duration:
- 0.5 s per 22 cm;
- 0.1 s per 18 degrees.

It then engages the motors at power 100, sleeps for that duration, stops,
and returns a one-key record that echoes its argument. `stop` is not in a
`finally` block. So a negative argument makes `time.sleep` raise after the
motors are engaged, and they are left running. `readkey` decodes one key
from a character source and recognises the three-character control
sequence `ESC [ X` (the CSI introducer of ECMA-48, section 5.4).

Modules:
- `Wrappers` (wrappers.dfy): `Option` and `Result`.
- `Tools` (tools.dfy):
  - `readkey` as a function over the characters the source would yield;
  - the durations and effect pulses;
  - a `Robot` class whose `trace` field records every motor and sleep
    effect in order;
  - the four actuators, as methods that append to that trace;
  - the four function declarations.
- `Completion` (completion.dfy): the two completion tests. These are Python's
  `str.strip()`, `str.lower()` and the search `\bdone\b` with
  `re.IGNORECASE`.
- `TaskSelection` (task_selection.dfy): the `while TASK is None` prompt
  loop, as a method proved against a recursive specification.
- `TurnLoop` (turn_loop.dfy):
  - a one-shot `Stream` of fragments consumed through a cursor;
  - the chat `Session` (the texts sent to it, and the replies it will give);
  - the fold with its early `break`, the resumed stream scan and the
    dispatch;
  - the 15-turn loop, proved against `RunFrom`.
- `ControlLoop` (control_loop.dfy): the outer `while True` loop, proved
  against `ProgramFrom`.

External sources are parameters:
- the console lines;
- the voice pipeline's answers;
- the model's replies (one fragment sequence per request);
- `show`, the function that prints a number as Python prints a float.

The Python program reads the second pass over the stream (line 162) from
the same one-shot iterator. The model makes this explicit: the scan resumes
at the cursor where the fold stopped.

## Model

| member | source | states |
|---|---|---|
| Tools.ReadKey | tools.py:21-30 | A decoded key consumed one to three characters, never more than the source held. The result is a valid code point. Running out of characters is the failure exactly when fewer than three were available. |
| Tools.ReadKeyPlain | tools.py:23-25 | Any first character other than ESC (0x1b) is read alone and returned unchanged. |
| Tools.ReadKeyLoneEscape | tools.py:26-28 | ESC followed by anything other than `[` (0x5b) costs exactly two reads and returns ESC. |
| Tools.ReadKeyCsi | tools.py:29-30 | `ESC [ X` costs exactly three reads and returns chr(0x10 + ord(X) - 65) when ord(X) >= 49. Otherwise `chr` raises with the negative code. |
| Tools.ReadKeyArrows | tools.py:29-30 | `ESC [ A` .. `ESC [ D` decode to 0x10 .. 0x13. |
| Tools.ReadKeyReadsOnlyPrefix | tools.py:21-30 | Replacing everything after the characters a successful read consumed does not change the result. |
| Tools.DurationLaws | tools.py:57-64 | Duration (this line, and the same formulas at tools.py lines 90, 123 and 156) is zero at zero, linear in the magnitude (doubling doubles it), and negative exactly when the magnitude is. A duration times 44 (drive) or times 180 (turn) gives back the magnitude. |
| Tools.PulseShape | tools.py:58-62 | The first effect is always "engage at power 100". When the duration is not negative, one sleep of exactly that duration follows and `Stop` is last. When it is negative, no `Stop` is ever issued. |
| Tools.ToolNamed | final_control.py:156-160 | Dispatch by name finds a direction only under that direction's own tool name. |
| Tools.ToolNamedInverse | final_control.py:156-160 | Name lookup and tool naming are inverse: each tool is found under its own name and under no other. |
| Tools.ToolOutcomeEchoes | tools.py:57-64 | A tool call returns exactly when its pulse ends with a stop, which is exactly when the magnitude is not negative. The record echoes the argument unchanged under the tool's key. |
| Tools.Robot.Engage | tools.py:60 | Appends one "engage in a direction at a power" effect to the trace. |
| Tools.Robot.Sleep | tools.py:61 | Succeeds exactly when the length is not negative, and then appends one sleep. On a negative length it raises and records nothing. |
| Tools.Robot.Stop | tools.py:62 | Appends one stop effect. |
| Tools.Actuate | tools.py:57-64 | The trace grows by exactly the pulse for the computed duration. The result is the echo record, or the sleep error on a negative duration. |
| Tools.MoveForward | tools.py:48-64 | The trace grows by the forward pulse for (cm/22)*0.5 seconds. Returns `{"moved_forward": cm}`, or raises when cm is negative, after the motors were engaged. |
| Tools.MoveBackward | tools.py:81-97 | The same for the backward pulse and `{"moved_backward": cm}`. |
| Tools.RotateLeft | tools.py:114-130 | The trace grows by the left-turn pulse for (degrees/18)*0.1 seconds. Returns `{"rotated_left": degrees}`, or raises when degrees is negative. |
| Tools.RotateRight | tools.py:147-163 | The same for the right-turn pulse and `{"rotated_right": degrees}`. |
| Tools.DeclarationsMatchDispatch | tools.py:33-46 | Each declaration's name dispatches to its own tool. Each declares exactly one parameter: `cm` or `degrees`, numeric and required. |
| Completion.StripLeftShape | final_control.py:162 | `lstrip` leaves a suffix. Everything removed is whitespace, and the result starts with a non-space character, if it has one. |
| Completion.StripRightShape | final_control.py:162 | `rstrip` leaves a prefix. Everything removed is whitespace, and the result ends with a non-space character, if it has one. |
| Completion.Lower | final_control.py:162 | Lower-casing keeps the length. |
| Completion.LowerIsDone | final_control.py:162 | A string lower-cases to `done` exactly when it is four characters spelling d, o, n, e in any case. |
| Completion.IsDoneTextIff | final_control.py:162 | A fragment text passes `(text or "").strip().lower() == "done"` exactly when it is `done` in any case, padded with whitespace on either side. |
| Completion.FindDoneWord | final_control.py:169 | The search succeeds exactly when `done`, in any case, occurs at or after the start position with a word boundary on each side. |
| Completion.DoneWordExamples | final_control.py:168-170 | "done", "Done!", "I'm not done" and "done." contain the word. "undone" and "done_it" do not. |
| Completion.PaddedDoneTextExample | final_control.py:162 | `"  DONE\n"` passes the stream-scan test. |
| Completion.PunctuatedDoneTextExample | final_control.py:162 | `"done."` does not pass the stream-scan test. |
| Completion.NoTextExample | final_control.py:162 | A fragment without text never passes the stream-scan test. |
| TaskSelection.SelectFromMeaning | final_control.py:98-127 | Every line that caused a re-prompt was empty. `exit!` ends selection. A typed task is the non-empty line itself. A voice task is a truthy answer other than the retry signal, reached only from an empty line with voice enabled. With voice enabled, every earlier empty line got an answer that was not accepted, so the first accepted answer ends the round. The voice pipeline is called once per empty line when voice is enabled and never otherwise. The task is never empty. Input closes only after every line is read. |
| TaskSelection.SelectFrom | final_control.py:98-127 | A selection never moves the console backwards and never past its end. Every selection except end of input reads at least one line. |
| TaskSelection.SelectTask | final_control.py:98-127 | The prompt loop's selection and its positions in the console and in the voice answers are exactly those of the specification `SelectFrom`. |
| TaskSelection.SelectExamples | final_control.py:111-127 | Concrete runs: an empty line re-prompts without voice; a retry answer and a `None` answer re-prompt; `exit!` after a falsy voice answer quits; an accepted voice answer ends the round before the next typed line is read; input ends after an empty line. |
| TurnLoop.FirstCall | final_control.py:145-149 | The index the fold stops at is the first fragment with calls: no earlier fragment has any. |
| TurnLoop.CommentaryAppend | final_control.py:150 | The commentary of consecutive fragments is the concatenation of their commentaries. Each fragment adds at least its trailing space. |
| TurnLoop.AnyDone | final_control.py:162 | True exactly when some fragment passes the stream-scan test. |
| TurnLoop.FirstDone | final_control.py:162 | The first fragment that passes the test; none before it does. |
| TurnLoop.Stream.Next | final_control.py:145 | Yields the fragment at the cursor and advances it by one, or yields nothing once the stream is drained. |
| TurnLoop.ConsumeUntilCall | final_control.py:143-150 | The text is `(text or "") + " "` over exactly the fragments before the first call fragment. The captured call is that fragment's first call. The cursor ends just past it, or at the end when no fragment has a call. |
| TurnLoop.ScanForDone | final_control.py:162 | The scan sees only the fragments left after the cursor. It is true exactly when one of them passes the test, and it stops just past the first one that does. |
| TurnLoop.DispatchExactlyOnce | final_control.py:155-160 | Effects are issued exactly when the call names one of the four tools with its one keyword. The result is the commentary exactly when there is no call or the name is none of the four tools. |
| TurnLoop.Perform | final_control.py:155-160 | The trace grows by exactly the effects of the dispatched action, and the result is that action's result: an echo record, the commentary, or the error raised. |
| TurnLoop.FoldStopsAtFirstCall | final_control.py:145-150 | Fragments before the first call fragment are consumed in order. The fold stops there and keeps only `function_calls[0]`. That fragment's text is not in the commentary. |
| TurnLoop.FoldWithoutCall | final_control.py:145-160 | Without any call, the fold drains the stream and no effect is issued. The result is the commentary over every fragment. |
| TurnLoop.DispatchNeedsOnlyCallFragment | final_control.py:145-160 | When the first fragment carries a call, what follows it does not change the dispatched action, its effects or its result. |
| TurnLoop.StreamScanResumes | final_control.py:162 | The stream signal holds exactly when a fragment after the fold's cursor passes the test. It is false whenever the fold drained the stream without a call. |
| TurnLoop.CompletionSignals | final_control.py:162-170 | A turn is done exactly when the stream signal holds or its textual result contains the word `done`. The text signal only adds completion and never fires on a record result. |
| TurnLoop.Session.Send | final_control.py:141 | Appends the text to the texts sent to the session, returns a fresh stream of the next reply with its cursor at 0, and advances the replies. |
| TurnLoop.RunBounded | final_control.py:133-167 | From turn `i`, the loop runs at most 15 - i more turns, and at least one while turns remain. It is abandoned only after using all 15. |
| TurnLoop.RunChained | final_control.py:132-170 | Each turn's text is the one the loop prescribes: first the task text, then the previous result rendered and followed by `  (say 'done' if finished)`. Only the last turn completes or raises, and every earlier turn returned a result and was not done. |
| TurnLoop.TaskProperties | final_control.py:132-170 | A task runs 1 to 15 turns. The first text is `TASK:` followed by the task, and the turns are chained as above. An abandoned task ran exactly 15 turns. |
| TurnLoop.PlayTurn | final_control.py:141-170 | One loop iteration sends the text and receives the next reply. It issues exactly the turn's effects, and returns the turn's result and completion flag as `TurnOf` defines them. |
| TurnLoop.TaskTurn | final_control.py:135-170 | One iteration extends the turns played by exactly the turn `TurnOf` defines. Afterwards, the specification is either ended by that turn (it raised or is done) or continued from the next turn with the feedback text. |
| TurnLoop.RunTask | final_control.py:132-170 | The loop's turns and ending equal the specification `RunFrom`, with no more than 15 turns. The texts sent to the session grow by the turn texts, one reply is used per turn, and the robot trace grows by the turns' effects in order. |
| ControlLoop.ProgramProperties | final_control.py:96-170 | For the controller's own task loop: every task run is non-empty and ran 1 to 15 turns, starting with `TASK:` and the task. Only the last task can have raised, and the program fails exactly then, with that error. There are no more tasks than console lines. The program exits on request only after reading `exit!`. |
| ControlLoop.ProgramEpisodes | final_control.py:96-135 | Bounds and first text of every task run, for any task runner that meets them. |
| ControlLoop.ProgramFailsLast | final_control.py:96-170 | An exception out of a tool ends the program: no task before the last one raised. |
| ControlLoop.ProgramExitsOnCommand | final_control.py:107-110 | The program stops on request only after reading `exit!`. |
| ControlLoop.Control | final_control.py:96-170 | The tasks the program runs and how it stops equal the specification `ProgramFrom`, with each task run as `RunTaskSpec` prescribes. The session is never reset: the texts sent to it and the robot trace grow by every turn of every task, in order. |

## Left out

- Camera capture and JPEG encoding: each request's image part is not modelled. Requests carry only their text part.
- The chat client, the tool wrapper and the system prompt: the model's replies are a parameter, one fragment sequence per request. Once they are used up, a request returns an empty stream.
- Timing and logging (`lap`, `log`, `perf_counter`, the `finish_reason` read at final_control.py:152), and all printing.
- TurnLoop.ConsumeUntilCall: does not model the `NameError` that final_control.py:152 raises when the very first stream of the program yields no fragment. The line reads `chunk`, which is then unbound. That line is timing code outside the model.
- recording.py is not part of this model. The voice pipeline is a sequence of answers (`None`, the retry signal, or text). It returns `None` once the sequence is used up. The voice pipeline also reads the console itself (recording.py:40 waits for Enter to stop recording, recording.py:119 asks whether to accept the transcription). Those reads are not drawn from the console lines here, so the model's console positions follow the program's standard input only for typed selections.
- `readchar` and raw terminal mode: the character source is a sequence. When it runs out, the result is an error, where the source would read an empty string and `ord` would raise.
- Tools.ReadKey: returns the key as a code point, not a one-character string, because a Dafny `char` cannot hold the lone surrogate that Python's `chr` can return. Codes above 0x10FFFF cannot arise from a `char`.
- `sys.exit`, `picam2.stop()` and the console's end of input end the program. They are the `Outcome` values `ExitRequested` and `InputEnded`.
- Python floats: durations use exact `real` arithmetic. The printed form of a number in the feedback text is the parameter `show`.
- TurnLoop.Perform: model arguments are a map from keyword to number. A call whose keywords are not exactly the tool's one parameter raises `TypeError` (`BadArguments`). A non-numeric argument value is not modelled.
- Completion.FindDoneWord: word characters are the ASCII letters, digits and `_`. Python's `\b` also treats non-ASCII letters and digits as word characters, so the model can find a match next to such a character where Python does not.
- Completion.Lower: maps only the ASCII capitals. No other character lower-cases to one of `d`, `o`, `n`, `e`, so the comparison with `done` comes out the same as with Python's `str.lower()`.
