/** The two task-completion signals of the turn loop (final_control.py:162
    and 168-170): a fragment whose text, trimmed and lower-cased, is exactly
    `done`, and a textual result that contains `done` as a whole word,
    ignoring case. */
module Completion {
  import opened Wrappers

  /** Python's `text or ""` on an optional fragment text. */
  function TextOr(text: Option<string>): string {
    text.GetOr("")
  }

  /** The characters Python's `str.strip()` removes: those `str.isspace()` holds of. */
  predicate IsSpace(c: char) {
    || '\t' <= c <= '\r'
    || '\U{1c}' <= c <= '\U{1f}' || c == ' '
    || c == '\U{85}' || c == '\U{a0}' || c == '\U{1680}'
    || '\U{2000}' <= c <= '\U{200a}'
    || c == '\U{2028}' || c == '\U{2029}' || c == '\U{202f}' || c == '\U{205f}' || c == '\U{3000}'
  }

  predicate AllSpace(s: string) {
    forall j :: 0 <= j < |s| ==> IsSpace(s[j])
  }

  /** `s.lstrip()`. */
  function StripLeft(s: string): string {
    if |s| > 0 && IsSpace(s[0]) then StripLeft(s[1..]) else s
  }

  /** `s.lstrip()` is the suffix left after removing the whitespace in front,
      and it starts with a non-space character if with anything. */
  lemma {:induction false} StripLeftShape(s: string)
    ensures |StripLeft(s)| <= |s| && StripLeft(s) == s[|s| - |StripLeft(s)|..]
    ensures AllSpace(s[..|s| - |StripLeft(s)|])
    ensures StripLeft(s) == [] || !IsSpace(StripLeft(s)[0])
  {
    if |s| > 0 && IsSpace(s[0]) {
      StripLeftShape(s[1..]);
      var n := |s| - |StripLeft(s)|;
      assert s[..n] == [s[0]] + s[1..][..n - 1];
    }
  }

  /** `s.rstrip()`. */
  function StripRight(s: string): string {
    if |s| > 0 && IsSpace(s[|s| - 1]) then StripRight(s[..|s| - 1]) else s
  }

  /** `s.rstrip()` is the prefix left after removing the whitespace behind,
      and it ends with a non-space character if with anything. */
  lemma {:induction false} StripRightShape(s: string)
    ensures |StripRight(s)| <= |s| && StripRight(s) == s[..|StripRight(s)|]
    ensures AllSpace(s[|StripRight(s)|..])
    ensures StripRight(s) == [] || !IsSpace(StripRight(s)[|StripRight(s)| - 1])
  {
    if |s| > 0 && IsSpace(s[|s| - 1]) {
      StripRightShape(s[..|s| - 1]);
      var n := |StripRight(s)|;
      assert s[n..] == s[..|s| - 1][n..] + [s[|s| - 1]];
    }
  }

  /** `s.strip()`. */
  function Strip(s: string): string {
    StripRight(StripLeft(s))
  }

  /** Lower-casing of one character; only the ASCII capitals are mapped, which
      is all a comparison with `done` can observe. */
  function LowerChar(c: char): char {
    if 'A' <= c <= 'Z' then (c as int - 'A' as int + 'a' as int) as char else c
  }

  /** `s.lower()`. */
  function Lower(s: string): (r: string)
    ensures |r| == |s|
  {
    if s == [] then [] else [LowerChar(s[0])] + Lower(s[1..])
  }

  /** The stream-scan test of one fragment: `(text or "").strip().lower() == "done"`. */
  predicate IsDoneText(text: Option<string>) {
    Lower(Strip(TextOr(text))) == "done"
  }

  lemma {:induction false} StripLeftPadding(a: string, x: string)
    requires AllSpace(a)
    requires x == [] || !IsSpace(x[0])
    ensures StripLeft(a + x) == x
    decreases |a|
  {
    if a != [] {
      assert (a + x)[1..] == a[1..] + x;
      StripLeftPadding(a[1..], x);
    } else {
      assert a + x == x;
    }
  }

  lemma {:induction false} StripRightPadding(x: string, b: string)
    requires AllSpace(b)
    requires x == [] || !IsSpace(x[|x| - 1])
    ensures StripRight(x + b) == x
    decreases |b|
  {
    if b != [] {
      assert (x + b)[..|x + b| - 1] == x + b[..|b| - 1];
      StripRightPadding(x, b[..|b| - 1]);
    } else {
      assert x + b == x;
    }
  }

  /** `w` is `done` spelled in any mix of cases. */
  lemma {:induction false} LowerIsDone(w: string)
    ensures Lower(w) == "done" <==>
      |w| == 4 && LowerChar(w[0]) == 'd' && LowerChar(w[1]) == 'o' && LowerChar(w[2]) == 'n' && LowerChar(w[3]) == 'e'
  {
    if |w| == 4 {
      assert w[4..] == [];
      assert Lower(w[3..]) == [LowerChar(w[3])];
      assert Lower(w[2..]) == [LowerChar(w[2]), LowerChar(w[3])];
      assert Lower(w[1..]) == [LowerChar(w[1]), LowerChar(w[2]), LowerChar(w[3])];
      assert Lower(w) == [LowerChar(w[0]), LowerChar(w[1]), LowerChar(w[2]), LowerChar(w[3])];
    }
  }

  /** `done` in any case, with only whitespace around it. */
  ghost predicate PaddedDone(s: string) {
    exists i, j :: 0 <= i <= j <= |s| && AllSpace(s[..i]) && AllSpace(s[j..]) && Lower(s[i..j]) == "done"
  }

  /** Every text that passes the stream-scan test is `done` padded with whitespace. */
  lemma DoneTextIsPadded(s: string)
    requires IsDoneText(Some(s))
    ensures PaddedDone(s)
  {
    var l := StripLeft(s);
    var r := StripRight(l);
    StripLeftShape(s);
    StripRightShape(l);
    var i := |s| - |l|;
    var j := i + |r|;
    assert r == s[i..j];
    assert s[..i] == s[..|s| - |l|];
    assert s[j..] == l[|r|..];
  }

  /** Every `done` padded with whitespace passes the stream-scan test. */
  lemma PaddedIsDoneText(s: string, i: int, j: int)
    requires 0 <= i <= j <= |s| && AllSpace(s[..i]) && AllSpace(s[j..]) && Lower(s[i..j]) == "done"
    ensures IsDoneText(Some(s))
  {
    var w := s[i..j];
    LowerIsDone(w);
    assert !IsSpace(w[0]) && !IsSpace(w[3]);
    assert s == s[..i] + (w + s[j..]);
    StripLeftPadding(s[..i], w + s[j..]);
    StripRightPadding(w, s[j..]);
  }

  /** A fragment text passes the stream-scan test exactly when it is some
      spelling of `done`, in any mix of cases, padded with whitespace on
      either side. */
  lemma IsDoneTextIff(s: string)
    ensures IsDoneText(Some(s)) <==> PaddedDone(s)
  {
    if IsDoneText(Some(s)) {
      DoneTextIsPadded(s);
    }
    if PaddedDone(s) {
      var i, j :| 0 <= i <= j <= |s| && AllSpace(s[..i]) && AllSpace(s[j..]) && Lower(s[i..j]) == "done";
      PaddedIsDoneText(s, i, j);
    }
  }

  // ---------------------------------------------------------------------------
  // re.search(r'\bdone\b', s, flags=re.IGNORECASE)
  // ---------------------------------------------------------------------------

  /** A regular-expression word character: letter, digit or underscore (ASCII). */
  predicate IsWordChar(c: char) {
    'a' <= c <= 'z' || 'A' <= c <= 'Z' || '0' <= c <= '9' || c == '_'
  }

  /** `done`, in any case, occupies s[i..i+4] with a word boundary on each side. */
  predicate DoneAt(s: string, i: int) {
    && 0 <= i && i + 4 <= |s|
    && Lower(s[i..i + 4]) == "done"
    && (i == 0 || !IsWordChar(s[i - 1]))
    && (i + 4 == |s| || !IsWordChar(s[i + 4]))
  }

  /** The leftmost-first scan of the regular expression, from position `from`. */
  function FindDoneWord(s: string, from: nat): (found: bool)
    ensures found <==> exists i :: from <= i && DoneAt(s, i)
    decreases |s| - from
  {
    if from + 4 > |s| then false
    else DoneAt(s, from) || FindDoneWord(s, from + 1)
  }

  /** The result-text signal. */
  predicate ContainsDoneWord(s: string) {
    FindDoneWord(s, 0)
  }

  /** Boundary cases of the search for `done` as a whole word, in any case
      (final_control.py:169): punctuation and spaces are boundaries, letters
      and `_` are not. */
  lemma DoneWordExamples()
    ensures ContainsDoneWord("done")
    ensures ContainsDoneWord("Done!")
    ensures ContainsDoneWord("I'm not done")
    ensures ContainsDoneWord("done.")
    ensures !ContainsDoneWord("undone")
    ensures !ContainsDoneWord("done_it")
  {
    LowerIsDone("done");
    LowerIsDone("Done");
    assert "Done!"[0..4] == "Done";
    assert DoneAt("Done!", 0);
    assert "I'm not done"[8..12] == "done" && "I'm not done"[7] == ' ';
    assert DoneAt("I'm not done", 8);
    assert "done."[0..4] == "done";
    assert DoneAt("done.", 0);
    assert "undone"[2..6] == "done";
    assert !DoneAt("undone", 2);
    assert "done_it"[0..4] == "done";
    assert !DoneAt("done_it", 0);
    forall i | 0 <= i < 2 ensures !DoneAt("undone", i) {
      LowerIsDone("undone"[i..i + 4]);
    }
    forall i | 1 <= i < 4 ensures !DoneAt("done_it", i) {
      LowerIsDone("done_it"[i..i + 4]);
    }
  }

  /** Whitespace and case around `done` do not matter to the stream scan. */
  lemma PaddedDoneTextExample()
    ensures IsDoneText(Some("  DONE\n"))
  {
    LowerIsDone("DONE");
    assert "  DONE\n"[..2] == "  " && "  DONE\n"[6..] == "\n" && "  DONE\n"[2..6] == "DONE";
    PaddedIsDoneText("  DONE\n", 2, 6);
  }

  /** Trailing punctuation defeats the stream scan (the text signal still matches it). */
  lemma PunctuatedDoneTextExample()
    ensures !IsDoneText(Some("done."))
  {
    var t := "done.";
    assert t[0] == 'd' && !IsSpace(t[0]);
    assert StripLeft(t) == t;
    assert t[|t| - 1] == '.' && !IsSpace(t[|t| - 1]);
    assert StripRight(t) == t;
    assert |Lower(t)| == 5;
  }

  /** A fragment without text never passes the stream scan. */
  lemma NoTextExample()
    ensures !IsDoneText(None)
  {
    assert StripLeft("") == "";
    assert StripRight("") == "";
    assert Lower("") == "";
  }
}
