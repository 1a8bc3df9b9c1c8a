/** Why the chunker's hypotheses are needed: two inputs on which its loop never ends. */
module ChunkLoops {

  import opened Basics
  import opened Text
  import opened Breaks
  import opened Chunker

  // --------------------------------------------------------- iterating the loop's step

  /** text[from:to] for a cut that is not negative: empty when it lies behind the cursor. */
  function Slice(text: string, from: nat, to: nat): string {
    if from <= to <= |text| then text[from..to] else if from <= |text| < to then text[from..] else ""
  }

  /** Where the loop stands after one more iteration: None once it has ended, or cut before the text. */
  function Advance(cfg: Config, text: string, at: (nat, string)): Option<(nat, string)> {
    if at.0 >= |text| then None
    else
      var outcome := Step(cfg, text, at.0, at.1);
      if outcome.Finish? || outcome.end < 0 then None else Some((outcome.end, Strip(Slice(text, at.0, outcome.end))))
  }

  ghost function After(cfg: Config, text: string, at: (nat, string), n: nat): Option<(nat, string)>
    decreases n
  {
    if n == 0 then Some(at)
    else
      var next := Advance(cfg, text, at);
      if next.None? then None else After(cfg, text, next.value, n - 1)
  }

  lemma OneMore(cfg: Config, text: string, at: (nat, string), next: (nat, string), n: nat)
    requires at.0 < |text| && Step(cfg, text, at.0, at.1) == Cut(next.0) && Strip(Slice(text, at.0, next.0)) == next.1
    ensures After(cfg, text, at, n + 1) == After(cfg, text, next, n)
  {
    hide Step, Strip, Slice;
  }

  // ----------------------------------------------------- a prefix longer than the limit

  lemma {:induction false} SolidIsOneWord(w: string)
    requires w != "" && forall i :: 0 <= i < |w| ==> !IsSpace(w[i])
    ensures WordCount(w) == 1
  {
    WholeWord(w);
    WordFirst(w);
    assert w[|w|..] == "";
    NoWords();
  }

  lemma {:induction false} WholeWord(w: string)
    requires forall i :: 0 <= i < |w| ==> !IsSpace(w[i])
    ensures WordLength(w) == |w|
  {
    if w != "" {
      WholeWord(w[1..]);
    }
  }

  lemma WordBlank(w: string, rest: string)
    requires w != "" && forall i :: 0 <= i < |w| ==> !IsSpace(w[i])
    ensures WordCount(w + " " + rest) == 1 + WordCount(rest)
  {
    hide Words;
    assert w + " " + rest == w + (" " + rest);
    WordsBefore(w, " " + rest);
    SolidIsOneWord(w);
    BlankFirst(" " + rest);
    assert (" " + rest)[1..] == rest;
  }

  lemma NoBreakWithout(text: string, marker: string, p: int)
    requires marker != "" && marker[0] !in text
    ensures !EndsAt(text, marker, p)
  {
    if EndsAt(text, marker, p) {
      BreakHasMarker(text, marker, p);
      assert false;
    }
  }

  lemma BreakHasMarker(text: string, marker: string, p: int)
    requires marker != "" && EndsAt(text, marker, p)
    ensures marker[0] in text
  {
    assert marker[0] == text[p - |marker|..p][0];
  }

  const LOOPING := ".a a a .aaaa  "
  const LOOPING_CONFIG := Config(10, 0.2, 2, 0.5, 0.0)

  lemma EmptyWindow(text: string, target: int, lo: int, hi: int)
    requires hi < lo
    ensures NearestBreak(text, target, lo, hi, MARKERS) == None
  {
    hide NearestBreak;
  }

  /** The first slice of the looping text ends at position 7. */
  lemma LoopingFirstCut()
    ensures Step(LOOPING_CONFIG, LOOPING, 0, "") == Cut(7)
  {
    hide NearestBreak, Words, SnapPoint;
    var cfg := LOOPING_CONFIG;
    var text := LOOPING;
    LoopingWordCount();
    assert text[0..] == text && "" + text == text;
    var avg := AverageLength(text);
    assert avg == 3.5;
    NoWordsInPrefix();
    assert LowChars(cfg, 0, avg) == 28;
    assert HighChars(cfg, 0, avg) == 7;
    assert HardChars(cfg, 0, avg) == 7;
    EmptyWindow(text, 0 + Trunc(Times(EffectiveTarget(cfg, 0) as real, avg)), 28, 7);
    assert text[6] == ' ';
    assert HardSplit(text, 0, 7) == 7;
  }

  lemma LoopingWordCount()
    ensures WordCount(LOOPING) == 4
  {
    hide Words, WordCount;
    assert LOOPING == ".a" + " " + "a a .aaaa  ";
    WordBlank(".a", "a a .aaaa  ");
    assert "a a .aaaa  " == "a" + " " + "a .aaaa  ";
    WordBlank("a", "a .aaaa  ");
    assert "a .aaaa  " == "a" + " " + ".aaaa  ";
    WordBlank("a", ".aaaa  ");
    LastLoopingWord();
  }

  lemma LastLoopingWord()
    ensures WordCount(".aaaa  ") == 1
  {
    hide Words;
    assert ".aaaa  " == ".aaaa" + " " + " ";
    WordBlank(".aaaa", " ");
    BlankFirst(" ");
    NoWords();
  }

  /** A text whose only marker is one full stop, ending at p. */
  lemma OnlyFullStop(text: string, target: int, lo: int, hi: int, p: int)
    requires forall k, q :: 0 <= k < 4 ==> !EndsAt(text, MARKERS[k], q)
    requires forall q :: EndsAt(text, MARKERS[4], q) <==> q == p
    requires lo <= p <= hi
    ensures NearestBreak(text, target, lo, hi, MARKERS) == Some(p)
  {
    hide NearestBreak, EndsAt;
    assert BreakInWindow(text, MARKERS[4], lo, hi, p);
  }

  lemma LoopingMarkers(text: string)
    requires text == ".a a a"
    ensures forall k, q :: 0 <= k < 4 ==> !EndsAt(text, MARKERS[k], q)
    ensures forall q :: EndsAt(text, MARKERS[4], q) <==> q == 1
  {
    forall k, q | 0 <= k < 4
      ensures !EndsAt(text, MARKERS[k], q)
    {
      NoBreakWithout(text, MARKERS[k], q);
    }
    forall q
      ensures EndsAt(text, MARKERS[4], q) <==> q == 1
    {
      if EndsAt(text, MARKERS[4], q) {
        assert text[q - 1..q][0] == '.';
      }
      assert text[0..1] == ".";
    }
  }

  lemma LoopingSnap(text: string)
    requires |text| == 6
    requires forall k, q :: 0 <= k < 4 ==> !EndsAt(text, MARKERS[k], q)
    requires forall q :: EndsAt(text, MARKERS[4], q) <==> q == 1
    ensures SnapPoint(LOOPING_CONFIG, text) == Some(1)
  {
    hide NearestBreak, CharForFraction, EndsAt;
    OnlyFullStop(text, CharForFraction(text, 0.5), 0, 6, 1);
  }

  lemma LoopingPrefix()
    ensures OverlapPrefix(LOOPING_CONFIG, ".a a a") == "a a a "
  {
    hide SnapPoint, Words, Join, EndsAt;
    LoopingMarkers(".a a a");
    LoopingSnap(".a a a");
    assert ".a a a"[1..] == "a a a";
    AlreadyStripped("a a a");
  }

  lemma AlreadyStripped(s: string)
    requires s != "" && !IsSpace(s[0]) && !IsSpace(s[|s| - 1])
    ensures Strip(s) == s
  {}

  lemma StripLastBlank(s: string)
    requires s != "" && !IsSpace(s[0]) && !IsSpace(s[|s| - 1])
    ensures Strip(s + " ") == s
  {
    var t := s + " ";
    assert t[|t| - 1] == ' ' && t[..|t| - 1] == s;
    assert LStrip(t) == t;
    assert RStrip(t) == RStrip(s);
  }

  lemma LoopingSecondCut()
    requires OverlapPrefix(LOOPING_CONFIG, ".a a a") == "a a a "
    ensures WordCount("a a a ") == 3
    ensures Step(LOOPING_CONFIG, LOOPING, 7, ".a a a") == Cut(0)
  {
    hide OverlapPrefix, Words, NearestBreak;
    var rest := LOOPING[7..];
    assert rest == ".aaaa  ";
    LastLoopingWord();
    assert "a a a " == "a" + " " + "a a ";
    WordBlank("a", "a a ");
    assert "a a " == "a" + " " + "a ";
    WordBlank("a", "a ");
    assert "a " == "a" + " " + "";
    WordBlank("a", "");
    NoWords();
    WordsAppend("a a a ", rest);
    var avg := AverageLength(rest);
    assert avg == 7.0;
    assert LowChars(LOOPING_CONFIG, 3, avg) == 56;
    assert HighChars(LOOPING_CONFIG, 3, avg) == -7;
    assert HardChars(LOOPING_CONFIG, 3, avg) == -7;
    EmptyWindow(LOOPING, 7 + Trunc(Times(EffectiveTarget(LOOPING_CONFIG, 3) as real, avg)), 63, 0);
    assert HardSplit(LOOPING, 7, -7) == 0;
  }

  lemma LoopingSteps()
    ensures Step(LOOPING_CONFIG, LOOPING, 0, "") == Cut(7)
    ensures Strip(Slice(LOOPING, 0, 7)) == ".a a a"
    ensures Step(LOOPING_CONFIG, LOOPING, 7, ".a a a") == Cut(0)
    ensures Strip(Slice(LOOPING, 7, 0)) == ""
    ensures WordCount(OverlapPrefix(LOOPING_CONFIG, ".a a a")) == 3 > LOOPING_CONFIG.hardLimit
  {
    hide Step, OverlapPrefix, Words, Strip;
    LoopingFirstCut();
    assert Slice(LOOPING, 0, 7) == ".a a a" + " ";
    StripLastBlank(".a a a");
    LoopingPrefix();
    LoopingSecondCut();
    BlankStrips();
  }

  /** With overlap the loop can run for ever: after every two iterations it stands at the start again,
      because the repeated prefix has more words than the limit and the forced cut falls behind the
      cursor. */
  lemma {:induction false} OverlapCanLoopForEver(n: nat)
    ensures After(LOOPING_CONFIG, LOOPING, (0, ""), 2 * n) == Some((0, ""))
  {
    hide Step, Strip, Slice, OverlapPrefix, WordCount;
    if n > 0 {
      LoopingSteps();
      OneMore(LOOPING_CONFIG, LOOPING, (0, ""), (7, ".a a a"), 2 * n - 1);
      OneMore(LOOPING_CONFIG, LOOPING, (7, ".a a a"), (0, ""), 2 * n - 2);
      OverlapCanLoopForEver(n - 1);
    }
  }

  // --------------------------------------------------- a window that starts at the cursor

  const STUCK := ".a a"
  /** A tolerance of 1: the window reaches back to the cursor. */
  const STUCK_CONFIG := Config(10, 1.0, 1, 0.0, 0.0)

  lemma StuckMarkers()
    ensures forall k, q :: 0 <= k < 4 ==> !EndsAt(STUCK, MARKERS[k], q)
    ensures forall q :: EndsAt(STUCK, MARKERS[4], q) <==> q == 1
  {
    forall k, q | 0 <= k < 4 ensures !EndsAt(STUCK, MARKERS[k], q) {
      NoBreakWithout(STUCK, MARKERS[k], q);
    }
    forall q ensures EndsAt(STUCK, MARKERS[4], q) <==> q == 1 {
      if EndsAt(STUCK, MARKERS[4], q) {
        assert STUCK[q - 1..q][0] == '.';
      }
      assert STUCK[0..1] == ".";
    }
  }

  lemma StuckWords()
    ensures WordCount(STUCK) == 2 && WordCount("a a") == 2
  {
    hide Words;
    assert STUCK == ".a" + " " + "a" && "a a" == "a" + " " + "a";
    WordBlank(".a", "a");
    WordBlank("a", "a");
    SolidIsOneWord("a");
  }

  lemma StuckAt(cursor: nat, prev: string)
    requires cursor <= 1
    ensures Step(STUCK_CONFIG, STUCK, cursor, prev) == Cut(1)
  {
    hide NearestBreak, Words, EndsAt;
    var cfg := STUCK_CONFIG;
    var rest := STUCK[cursor..];
    assert rest == if cursor == 0 then STUCK else "a a";
    assert "" + rest == rest;
    StuckWords();
    NoWordsInPrefix();
    StuckMarkers();
    var avg := AverageLength(rest);
    assert avg == if cursor == 0 then 2.0 else 1.5;
    assert LowChars(cfg, 0, avg) == 0;
    assert HighChars(cfg, 0, avg) == if cursor == 0 then 2 else 1;
    OnlyFullStop(STUCK, cursor + Trunc(Times(EffectiveTarget(cfg, 0) as real, avg)), cursor,
                 cursor + Smaller(HighChars(cfg, 0, avg), |rest|), 1);
  }

  /** Without overlap and with a limit of one word, a tolerance of 1 lets the cut fall on the marker just
      behind the cursor: from the first iteration on the loop never leaves position 1. */
  lemma {:induction false} ToleranceOneGetsStuck(cursor: nat, prev: string, n: nat)
    requires cursor <= 1 && n > 0
    ensures var r := After(STUCK_CONFIG, STUCK, (cursor, prev), n);
            r.Some? && r.value.0 == 1 && !LooksAhead(STUCK_CONFIG, 0)
    decreases n
  {
    hide Step, Strip, Slice;
    StuckAt(cursor, prev);
    var next := Strip(Slice(STUCK, cursor, 1));
    OneMore(STUCK_CONFIG, STUCK, (cursor, prev), (1, next), n - 1);
    if n > 1 {
      ToleranceOneGetsStuck(1, next, n - 1);
    }
  }
}
