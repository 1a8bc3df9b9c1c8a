/** Break positions, the nearest break of a marker hierarchy, and positions by word fraction. */
module Breaks {

  import opened Basics
  import opened Text

  ghost predicate OccursAt(text: string, marker: string, i: int) {
    0 <= i && i + |marker| <= |text| && text[i..i + |marker|] == marker
  }

  /** An occurrence of the marker ends just before position p. */
  ghost predicate EndsAt(text: string, marker: string, p: int) {
    |marker| <= p <= |text| && text[p - |marker|..p] == marker
  }

  /** str.find: the first occurrence at or after start, or -1. */
  function Find(text: string, marker: string, start: nat): (r: int)
    ensures r == -1 || start <= r <= |text|
    decreases |text| - start
  {
    if start + |marker| > |text| then -1
    else if text[start..start + |marker|] == marker then start
    else Find(text, marker, start + 1)
  }

  lemma {:induction false} FindIsFirst(text: string, marker: string, start: nat)
    ensures var r := Find(text, marker, start);
            if r == -1 then forall i :: start <= i ==> !OccursAt(text, marker, i)
            else OccursAt(text, marker, r) && forall i :: start <= i < r ==> !OccursAt(text, marker, i)
    decreases |text| - start
  {
    if start + |marker| <= |text| && text[start..start + |marker|] != marker {
      FindIsFirst(text, marker, start + 1);
      assert !OccursAt(text, marker, start);
    }
  }

  /** The end positions of all occurrences starting at i or later, in order. */
  function BreaksFrom(text: string, marker: string, i: nat): seq<int>
    decreases |text| - i
  {
    if i + |marker| > |text| then []
    else if text[i..i + |marker|] == marker then [i + |marker|] + BreaksFrom(text, marker, i + 1)
    else BreaksFrom(text, marker, i + 1)
  }

  function BreaksOf(text: string, marker: string): seq<int> {
    BreaksFrom(text, marker, 0)
  }

  /** Exactly the ends of occurrences, overlapping ones included, each once and ascending. */
  lemma {:induction false} BreaksAreExact(text: string, marker: string, i: nat)
    ensures var bs := BreaksFrom(text, marker, i);
            && (forall p :: p in bs <==> i + |marker| <= p && EndsAt(text, marker, p))
            && Rising(bs)
    decreases |text| - i
  {
    if i + |marker| <= |text| {
      BreaksAreExact(text, marker, i + 1);
      var rest := BreaksFrom(text, marker, i + 1);
      var e := i + |marker|;
      assert EndsAt(text, marker, e) <==> text[i..e] == marker;
      forall k | 0 <= k < |rest| ensures rest[k] > e {
        assert rest[k] in rest;
      }
      assert forall p :: e <= p && EndsAt(text, marker, p) <==>
               (p == e && EndsAt(text, marker, e)) || (e + 1 <= p && EndsAt(text, marker, p));
    }
  }

  lemma {:induction false} NoBreaksBefore(text: string, marker: string, i: nat, j: nat)
    requires i <= j && forall k :: i <= k < j ==> !OccursAt(text, marker, k)
    ensures BreaksFrom(text, marker, i) == BreaksFrom(text, marker, j)
    decreases j - i
  {
    if i < j {
      if i + |marker| <= |text| {
        assert !OccursAt(text, marker, i);
      }
      NoBreaksBefore(text, marker, i + 1, j);
    }
  }

  lemma TooLate(text: string, marker: string, i: nat)
    requires i > |text|
    ensures BreaksFrom(text, marker, i) == []
  {
  }

  lemma NothingLeft(text: string, marker: string, start: nat)
    requires forall i :: start <= i ==> !OccursAt(text, marker, i)
    ensures BreaksFrom(text, marker, start) == []
  {
    NoBreaksBefore(text, marker, start, start + |text| + 1);
    TooLate(text, marker, start + |text| + 1);
    hide BreaksFrom, OccursAt;
  }

  lemma NextBreak(text: string, marker: string, start: nat, idx: nat)
    requires start <= idx && OccursAt(text, marker, idx)
    requires forall i :: start <= i < idx ==> !OccursAt(text, marker, i)
    ensures BreaksFrom(text, marker, start) == [idx + |marker|] + BreaksFrom(text, marker, idx + 1)
  {
    NoBreaksBefore(text, marker, start, idx);
  }

  /** What one call of find says about the breaks still to come. */
  lemma FindGivesNext(text: string, marker: string, start: nat)
    requires marker != ""
    ensures var idx := Find(text, marker, start);
            if idx == -1 then BreaksFrom(text, marker, start) == []
            else start <= idx < |text|
                 && BreaksFrom(text, marker, start) == [idx + |marker|] + BreaksFrom(text, marker, idx + 1)
  {
    hide Find, BreaksFrom;
    FindIsFirst(text, marker, start);
    if Find(text, marker, start) == -1 {
      NothingLeft(text, marker, start);
    } else {
      NextBreak(text, marker, start, Find(text, marker, start));
    }
  }

  method FindBreaks(text: string, marker: string) returns (positions: seq<int>)
    requires marker != ""
    ensures positions == BreaksOf(text, marker)
  {
    hide Find, BreaksFrom;
    positions := [];
    var start := 0;
    while true
      invariant start <= |text|
      invariant positions + BreaksFrom(text, marker, start) == BreaksOf(text, marker)
      decreases |text| - start
    {
      var idx := Find(text, marker, start);
      FindGivesNext(text, marker, start);
      if idx == -1 {
        break;
      }
      Reassociate(positions, [idx + |marker|], BreaksFrom(text, marker, idx + 1));
      positions := positions + [idx + |marker|];
      start := idx + 1;
    }
  }

  function Distance(a: int, b: int): nat {
    if a < b then b - a else a - b
  }

  ghost predicate Rising(ps: seq<int>) {
    forall i, j :: 0 <= i < j < |ps| ==> ps[i] < ps[j]
  }

  lemma {:induction false} WithinRises(bs: seq<int>, lo: int, hi: int)
    requires Rising(bs)
    ensures Rising(Within(bs, lo, hi))
  {
    if bs != [] {
      WithinRises(bs[1..], lo, hi);
      var rest := Within(bs[1..], lo, hi);
      forall j | 0 <= j < |rest| ensures bs[0] < rest[j] {
        assert rest[j] in bs[1..];
      }
    }
  }

  function Within(bs: seq<int>, lo: int, hi: int): (r: seq<int>)
    ensures forall p :: p in r <==> p in bs && lo <= p <= hi
  {
    if bs == [] then []
    else
      assert forall p :: p in bs <==> p == bs[0] || p in bs[1..];
      (if lo <= bs[0] <= hi then [bs[0]] else []) + Within(bs[1..], lo, hi)
  }

  /** The first element at least distance from the target. */
  function Closest(ps: seq<int>, target: int): (r: int)
    requires ps != []
    ensures r in ps && forall p :: p in ps ==> Distance(r, target) <= Distance(p, target)
  {
    var n := |ps| - 1;
    if n == 0 then ps[0]
    else
      var r := Closest(ps[..n], target);
      assert forall p :: p in ps <==> p == ps[n] || p in ps[..n];
      if Distance(ps[n], target) < Distance(r, target) then ps[n] else r
  }

  ghost predicate BreakInWindow(text: string, marker: string, lo: int, hi: int, p: int) {
    lo <= p <= hi && EndsAt(text, marker, p)
  }

  /** A closest in-window break of the first marker that has one; None only when none has. */
  function NearestBreak(text: string, target: int, lo: int, hi: int, markers: seq<string>): (r: Option<int>)
    ensures r.None? ==>
              forall k, p :: 0 <= k < |markers| ==> !BreakInWindow(text, markers[k], lo, hi, p)
    ensures r.Some? ==>
              exists k :: 0 <= k < |markers|
                && BreakInWindow(text, markers[k], lo, hi, r.value)
                && (forall p :: BreakInWindow(text, markers[k], lo, hi, p) ==>
                      Distance(r.value, target) <= Distance(p, target))
                && (forall j, p :: 0 <= j < k ==> !BreakInWindow(text, markers[j], lo, hi, p))
    decreases |markers|
  {
    if markers == [] then None
    else
      BreaksAreExact(text, markers[0], 0);
      var candidates := Within(BreaksOf(text, markers[0]), lo, hi);
      assert forall p :: p in candidates <==> BreakInWindow(text, markers[0], lo, hi, p);
      if candidates != [] then
        var c := Closest(candidates, target);
        assert BreakInWindow(text, markers[0], lo, hi, c);
        Some(c)
      else
        assert forall p :: p !in candidates;
        NearestBreak(text, target, lo, hi, markers[1..])
  }

  // --------------------------------------------------------- what the nearest break is

  /** Some marker ends inside the window. */
  ghost predicate HasBreak(text: string, markers: seq<string>, lo: int, hi: int) {
    exists k, p :: 0 <= k < |markers| && BreakInWindow(text, markers[k], lo, hi, p)
  }

  /** The end of a marker inside the window that is closest to the aim, the earlier of two as close. */
  ghost predicate ClosestEnd(text: string, marker: string, lo: int, hi: int, aim: int, end: int) {
    && BreakInWindow(text, marker, lo, hi, end)
    && forall p :: BreakInWindow(text, marker, lo, hi, p) ==>
         (if p < end then Distance(end, aim) < Distance(p, aim) else Distance(end, aim) <= Distance(p, aim))
  }

  /** The closest end of the first marker that ends inside the window. */
  ghost predicate BestBreak(text: string, markers: seq<string>, lo: int, hi: int, aim: int, end: int) {
    exists k :: 0 <= k < |markers| && ClosestEnd(text, markers[k], lo, hi, aim, end) && !HasBreak(text, markers[..k], lo, hi)
  }

  lemma {:induction false} ClosestIsFirst(ps: seq<int>, target: int)
    requires ps != [] && Rising(ps)
    ensures forall p :: p in ps && p < Closest(ps, target) ==> Distance(Closest(ps, target), target) < Distance(p, target)
  {
    var n := |ps| - 1;
    if n > 0 {
      ClosestIsFirst(ps[..n], target);
      assert forall p :: p in ps <==> p == ps[n] || p in ps[..n];
      var r := Closest(ps[..n], target);
      assert r in ps[..n];
    }
  }

  lemma ClosestIs(text: string, marker: string, aim: int, lo: int, hi: int)
    requires Within(BreaksOf(text, marker), lo, hi) != []
    ensures ClosestEnd(text, marker, lo, hi, aim, Closest(Within(BreaksOf(text, marker), lo, hi), aim))
  {
    BreaksAreExact(text, marker, 0);
    WithinRises(BreaksOf(text, marker), lo, hi);
    var candidates := Within(BreaksOf(text, marker), lo, hi);
    ClosestIsFirst(candidates, aim);
    hide Within, BreaksFrom, Closest, EndsAt;
    assert forall p :: p in candidates <==> BreakInWindow(text, marker, lo, hi, p);
  }

  lemma NoCandidates(text: string, marker: string, lo: int, hi: int)
    requires Within(BreaksOf(text, marker), lo, hi) == []
    ensures forall p :: !BreakInWindow(text, marker, lo, hi, p)
  {
    BreaksAreExact(text, marker, 0);
    var candidates := Within(BreaksOf(text, marker), lo, hi);
    hide Within, BreaksFrom, EndsAt;
    forall p ensures !BreakInWindow(text, marker, lo, hi, p) {
      assert p !in candidates;
    }
  }

  lemma {:induction false} NearestBreakIs(text: string, aim: int, lo: int, hi: int, markers: seq<string>)
    ensures var r := NearestBreak(text, aim, lo, hi, markers);
            && (r.None? <==> !HasBreak(text, markers, lo, hi))
            && (r.Some? ==> BestBreak(text, markers, lo, hi, aim, r.value))
    decreases |markers|
  {
    hide Within, BreaksFrom, Closest, BreakInWindow, ClosestEnd;
    if markers != [] {
      var candidates := Within(BreaksOf(text, markers[0]), lo, hi);
      if candidates != [] {
        ClosestIs(text, markers[0], aim, lo, hi);
        FirstHasBreak(text, markers, aim, lo, hi, Closest(candidates, aim));
      } else {
        NoCandidates(text, markers[0], lo, hi);
        NearestBreakIs(text, aim, lo, hi, markers[1..]);
        NotTheFirst(text, markers, aim, lo, hi);
      }
    }
  }

  lemma FirstHasBreak(text: string, markers: seq<string>, aim: int, lo: int, hi: int, end: int)
    requires markers != [] && ClosestEnd(text, markers[0], lo, hi, aim, end)
    ensures HasBreak(text, markers, lo, hi) && BestBreak(text, markers, lo, hi, aim, end)
  {
    assert BreakInWindow(text, markers[0], lo, hi, end);
    assert !HasBreak(text, markers[..0], lo, hi);
  }

  /** A marker that does not end in the window makes no difference. */
  lemma NotTheFirst(text: string, markers: seq<string>, aim: int, lo: int, hi: int)
    requires markers != [] && forall p :: !BreakInWindow(text, markers[0], lo, hi, p)
    ensures HasBreak(text, markers, lo, hi) <==> HasBreak(text, markers[1..], lo, hi)
    ensures forall end :: BestBreak(text, markers[1..], lo, hi, aim, end) ==> BestBreak(text, markers, lo, hi, aim, end)
  {
    hide BreakInWindow, ClosestEnd;
    StillNone(text, markers, lo, hi);
    forall end | BestBreak(text, markers[1..], lo, hi, aim, end) ensures BestBreak(text, markers, lo, hi, aim, end) {
      var k :| 0 <= k < |markers[1..]| && ClosestEnd(text, markers[1..][k], lo, hi, aim, end)
               && !HasBreak(text, markers[1..][..k], lo, hi);
      assert markers[..k + 1][1..] == markers[1..][..k] && markers[..k + 1][0] == markers[0];
      StillNone(text, markers[..k + 1], lo, hi);
      assert markers[k + 1] == markers[1..][k];
    }
  }

  lemma StillNone(text: string, markers: seq<string>, lo: int, hi: int)
    requires markers != [] && forall p :: !BreakInWindow(text, markers[0], lo, hi, p)
    ensures HasBreak(text, markers, lo, hi) <==> HasBreak(text, markers[1..], lo, hi)
  {
    hide BreakInWindow;
    var rest := markers[1..];
    if k, p :| 0 <= k < |markers| && BreakInWindow(text, markers[k], lo, hi, p) {
      assert rest[k - 1] == markers[k];
    }
    if k, p :| 0 <= k < |rest| && BreakInWindow(text, rest[k], lo, hi, p) {
      assert markers[k + 1] == rest[k];
    }
  }

  // ------------------------------------------------------------- word fractions

  /** How far the scan for n words gets: past n words, or to the end of the text. */
  function AfterWords(s: string, n: nat): (r: nat)
    ensures r <= |s|
    decreases |s|
  {
    if n == 0 || s == "" then 0
    else if IsSpace(s[0]) then 1 + AfterWords(s[1..], n)
    else var w := WordLength(s); w + AfterWords(s[w..], n - 1)
  }

  function TargetWord(s: string, fraction: real): int {
    (WordCount(s) as real * fraction).Floor
  }

  function WholeWords(s: string, fraction: real): nat {
    AtLeastOne(TargetWord(s, fraction))
  }

  function AtLeastOne(n: int): nat {
    if n < 1 then 1 else n
  }

  function CharForFraction(s: string, fraction: real): (r: nat)
    ensures r <= |s|
  {
    if fraction <= 0.0 then 0 else if fraction >= 1.0 then |s|
    else AfterWords(s, WholeWords(s, fraction))
  }

  ghost predicate WordEndsAt(s: string, r: nat) {
    0 < r <= |s| && !IsSpace(s[r - 1]) && (r < |s| ==> IsSpace(s[r]))
  }

  /** With n words available the scan stops at the end of a word and leaves all but n words. */
  lemma {:induction false} AfterWordsStops(s: string, n: nat)
    requires 1 <= n <= WordCount(s)
    ensures WordEndsAt(s, AfterWords(s, n)) && WordCount(s[AfterWords(s, n)..]) == WordCount(s) - n
    decreases |s|
  {
    if IsSpace(s[0]) {
      AfterWordsStops(s[1..], n);
      Deeper(s, 1, AfterWords(s[1..], n));
    } else {
      var w := WordLength(s);
      WordFirst(s);
      assert AfterWords(s, n) == w + AfterWords(s[w..], n - 1);
      if n > 1 {
        AfterWordsStops(s[w..], n - 1);
        Deeper(s, w, AfterWords(s[w..], n - 1));
      }
    }
  }

  lemma Deeper(s: string, k: nat, r: nat)
    requires k <= |s| && WordEndsAt(s[k..], r)
    ensures WordEndsAt(s, k + r) && s[k..][r..] == s[k + r..]
  {}

  lemma Shrinks(w: real, f: real)
    requires w >= 0.0 && 0.0 < f < 1.0
    ensures 0.0 <= w * f <= w
  {}

  lemma FloorShrinks(w: nat, f: real)
    requires 0.0 < f < 1.0
    ensures 0 <= (w as real * f).Floor <= w
  {
    Shrinks(w as real, f);
    var p := w as real * f;
    assert p <= w as real;
  }

  /** A share of some words, rounded down, but at least one word. */
  ghost function ShareOf(words: nat, fraction: real): int {
    if words as real * fraction < 1.0 then 1 else (words as real * fraction).Floor
  }

  /** The first r characters are that share of the words of a text, and end with a word. */
  ghost predicate IsShareOfWords(s: string, fraction: real, r: nat) {
    WordEndsAt(s, r) && WordCount(s[..r]) == ShareOf(WordCount(s), fraction)
  }

  /** char_for_word_fraction on any text with a word and any proper fraction. */
  lemma FractionStopsAtWord(s: string, fraction: real)
    requires 0.0 < fraction < 1.0 && WordCount(s) > 0
    ensures IsShareOfWords(s, fraction, CharForFraction(s, fraction))
  {
    WholeWordsAre(s, fraction);
    hide AfterWords, WordCount, ShareOf, WholeWords;
    AfterWordsStops(s, WholeWords(s, fraction));
    CountBefore(s, CharForFraction(s, fraction));
  }

  lemma WholeWordsAre(s: string, fraction: real)
    requires 0.0 < fraction < 1.0 && WordCount(s) > 0
    ensures WholeWords(s, fraction) == ShareOf(WordCount(s), fraction) && 1 <= WholeWords(s, fraction) <= WordCount(s)
  {
    hide WordCount;
    FloorShrinks(WordCount(s), fraction);
    var share := WordCount(s) as real * fraction;
    assert share >= 1.0 ==> share.Floor >= 1;
  }

  lemma CountBefore(s: string, r: nat)
    requires r <= |s| && (r < |s| ==> IsSpace(s[r]))
    ensures WordCount(s) == WordCount(s[..r]) + WordCount(s[r..])
  {
    assert s == s[..r] + s[r..];
    WordsBefore(s[..r], s[r..]);
  }

  /** Where the scan ends when it is at i with n words to go. */
  ghost function Stop(text: string, i: nat, n: nat): nat
    requires i <= |text|
  {
    i + AfterWords(text[i..], n)
  }

  lemma StopDone(text: string, i: nat, n: nat)
    requires i <= |text| && (n == 0 || i == |text|)
    ensures Stop(text, i, n) == i
  {}

  lemma StopBlank(text: string, i: nat, n: nat)
    requires i < |text| && n > 0 && IsSpace(text[i])
    ensures Stop(text, i, n) == Stop(text, i + 1, n)
  {
    assert text[i..][1..] == text[i + 1..];
  }

  lemma StopWord(text: string, i: nat, n: nat)
    requires i < |text| && n > 0 && !IsSpace(text[i])
    ensures i + WordLength(text[i..]) <= |text|
    ensures Stop(text, i, n) == Stop(text, i + WordLength(text[i..]), n - 1)
  {
    assert text[i..][WordLength(text[i..])..] == text[i + WordLength(text[i..])..];
  }

  method SkipBlanks(text: string, from: nat, ghost n: nat) returns (i: nat)
    requires from <= |text| && n > 0
    ensures from <= i <= |text| && (i < |text| ==> !IsSpace(text[i]))
    ensures Stop(text, i, n) == Stop(text, from, n)
  {
    i := from;
    while i < |text| && IsSpace(text[i])
      invariant from <= i <= |text| && Stop(text, i, n) == Stop(text, from, n)
    {
      StopBlank(text, i, n);
      i := i + 1;
    }
  }

  method PassWord(text: string, from: nat) returns (i: nat)
    requires from < |text| && !IsSpace(text[from])
    ensures i == from + WordLength(text[from..]) <= |text|
  {
    i := from;
    while i < |text| && !IsSpace(text[i])
      invariant from <= i <= |text|
      invariant i + WordLength(text[i..]) == from + WordLength(text[from..])
    {
      assert text[i..][1..] == text[i + 1..];
      i := i + 1;
    }
  }

  /** The two-level scanning loop. */
  method CharForWordFraction(text: string, fraction: real) returns (i: nat)
    ensures i == CharForFraction(text, fraction)
  {
    if fraction <= 0.0 {
      return 0;
    }
    if fraction >= 1.0 {
      return |text|;
    }
    i := ScanWords(text, TargetWord(text, fraction));
    FromStart(text, WholeWords(text, fraction));
  }

  lemma FromStart(text: string, n: nat)
    ensures Stop(text, 0, n) == AfterWords(text, n)
  {
    assert text[0..] == text;
  }

  method ScanWords(text: string, target: int) returns (i: nat)
    ensures i == Stop(text, 0, AtLeastOne(target))
  {
    ghost var n := AtLeastOne(target);
    ghost var goal := Stop(text, 0, n);
    var count := 0;
    i := 0;
    while i < |text|
      invariant 0 <= i <= |text| && 0 <= count < n && Stop(text, i, n - count) == goal
    {
      i := SkipBlanks(text, i, n - count);
      if i >= |text| {
        break;
      }
      StopWord(text, i, n - count);
      i := PassWord(text, i);
      count := count + 1;
      if count >= target {
        break;
      }
    }
    StopDone(text, i, n - count);
  }
}
