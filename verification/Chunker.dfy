/** The boundary-aware chunker: a cursor loop that cuts at the nearest marker, or by force. */
module Chunker {

  import opened Basics
  import opened Text
  import opened Breaks

  datatype Config = Config(target: int, tolerance: real, hardLimit: int, overlap: real, startOffset: real)

  const MARKERS: seq<string> := ["***", "---", "\n\n", "\n", "."]

  function Larger(a: int, b: int): int {
    if a > b then a else b
  }

  function SmallerReal(a: real, b: real): real {
    if a < b then a else b
  }

  function Times(a: real, b: real): real {
    a * b
  }

  /** int(x): truncation towards zero. */
  function Trunc(x: real): (n: int)
    ensures x >= 0.0 ==> n as real <= x < n as real + 1.0
    ensures x <= 0.0 ==> n as real - 1.0 < x <= n as real
  {
    if x >= 0.0 then x.Floor else -(-x).Floor
  }

  /** str.replace: non-overlapping, left to right. */
  function Replace(s: string, from: string, to: string): string
    requires from != ""
  {
    if |s| < |from| then s
    else if s[..|from|] == from then to + Replace(s[|from|..], from, to)
    else [s[0]] + Replace(s[1..], from, to)
  }

  function Normalised(text: string): string {
    Replace(Replace(Replace(text, "\\n\\n", "\n\n"), "\\n", "\n"), "\\r", "\r")
  }

  function StartCursor(cfg: Config, text: string): (c: nat)
    ensures c <= |text|
  {
    if cfg.startOffset > 0.0 then
      var offset := CharForFraction(text, cfg.startOffset);
      match NearestBreak(text, offset, offset, Smaller(offset + 300, |text|), ["\n\n", "\n", "."])
      case Some(snapped) => snapped
      case None => offset
    else 0
  }

  function Slack(length: nat): int {
    Larger(30, (length as real * 0.10).Floor)
  }

  /** Where in the previous slice the repeated tail starts, when a marker is near enough. */
  function SnapPoint(cfg: Config, prev: string): (r: Option<int>)
    ensures r.Some? ==> 0 <= r.value <= |prev|
  {
    var start := CharForFraction(prev, 1.0 - cfg.overlap);
    var slack := Slack(|prev|);
    NearestBreak(prev, start, Larger(0, start - slack), Smaller(|prev|, start + slack), MARKERS)
  }

  /** The first word of the repeated tail when no marker is near: the last share of the words, at least one. */
  function FirstKept(count: nat, overlap: real): (i: nat)
    ensures i <= count && (count > 0 ==> i < count)
  {
    Larger(0, count - Larger(1, Trunc(Times(count as real, overlap))))
  }

  /** The tail of the previous raw slice that the next chunk repeats. */
  function OverlapPrefix(cfg: Config, prev: string): string {
    if cfg.overlap > 0.0 && prev != "" then
      match SnapPoint(cfg, prev)
      case Some(snap) => Strip(prev[snap..]) + " "
      case None => Join(Words(prev)[FirstKept(WordCount(prev), cfg.overlap)..]) + " "
    else ""
  }

  /** Average characters per word of what is left. */
  function AverageLength(rest: string): real {
    |rest| as real / Larger(WordCount(rest), 1) as real
  }

  function EffectiveTarget(cfg: Config, overlapWords: int): int {
    Larger(10, cfg.target - overlapWords)
  }

  function LowChars(cfg: Config, overlapWords: int, avg: real): int {
    Trunc(Times(Times(EffectiveTarget(cfg, overlapWords) as real, 1.0 - cfg.tolerance), avg))
  }

  function HighChars(cfg: Config, overlapWords: int, avg: real): int {
    Trunc(Times(SmallerReal(Times(EffectiveTarget(cfg, overlapWords) as real, 1.0 + cfg.tolerance),
                            (cfg.hardLimit - overlapWords) as real), avg))
  }

  function HardChars(cfg: Config, overlapWords: int, avg: real): int {
    Trunc(Times((cfg.hardLimit - overlapWords) as real, avg))
  }

  /** Back from `end` to just after a blank or a newline, but not past the cursor. */
  function ScanBack(text: string, cursor: int, end: int): (r: int)
    requires 0 <= cursor && end <= |text|
    ensures r <= end && (end >= cursor ==> r >= cursor) && (end <= cursor ==> r == end)
    decreases end - cursor
  {
    if end > cursor && text[end - 1] != ' ' && text[end - 1] != '\n' then ScanBack(text, cursor, end - 1) else end
  }

  function HardSplit(text: string, cursor: nat, hardChars: int): int
    requires cursor <= |text|
  {
    var end := ScanBack(text, cursor, cursor + Smaller(hardChars, |text| - cursor));
    if end == cursor then cursor + hardChars else end
  }

  datatype Outcome = Finish | Cut(end: int)

  /** One iteration of the loop: take the rest, or cut at a position. */
  function Step(cfg: Config, text: string, cursor: nat, prev: string): Outcome
    requires cursor < |text|
  {
    var rest := text[cursor..];
    var prefix := OverlapPrefix(cfg, prev);
    if WordCount(prefix + rest) <= cfg.hardLimit then Finish
    else
      var ow := WordCount(prefix);
      var avg := AverageLength(rest);
      match NearestBreak(text, cursor + Trunc(Times(EffectiveTarget(cfg, ow) as real, avg)),
                         cursor + LowChars(cfg, ow, avg),
                         cursor + Smaller(HighChars(cfg, ow, avg), |rest|), MARKERS)
      case Some(p) => Cut(p)
      case None => Cut(HardSplit(text, cursor, HardChars(cfg, ow, avg)))
  }

  // --------------------------------------------------------------- the arithmetic

  lemma TruncMonotone(a: real, b: real)
    requires a <= b
    ensures Trunc(a) <= Trunc(b)
  {}

  lemma TruncAtLeast(a: real, n: int)
    requires a >= n as real
    ensures Trunc(a) >= n
  {}

  lemma TruncAtMost(a: real, n: int)
    requires a <= n as real
    ensures Trunc(a) <= n
  {}

  lemma TimesMonotone(a: real, b: real, k: real)
    requires a <= b && k >= 0.0
    ensures Times(a, k) <= Times(b, k)
  {}

  lemma TimesUnits(k: real)
    ensures Times(0.0, k) == 0.0 && Times(1.0, k) == k && Times(10.0, k) == 10.0 * k
  {}

  lemma QuotientFacts(p: real, q: real)
    requires q > 0.0
    ensures Times(q, p / q) == p
    ensures p >= q ==> p / q >= 1.0
  {}

  lemma AverageAtLeastOne(rest: string)
    requires rest != ""
    ensures AverageLength(rest) >= 1.0
    ensures Times(Larger(WordCount(rest), 1) as real, AverageLength(rest)) == |rest| as real
  {
    hide Times, Words;
    var n := Larger(WordCount(rest), 1) as real;
    assert |rest| as real >= n;
    QuotientFacts(|rest| as real, n);
  }

  /** The search window starts at least a word ahead of the cursor, in words of average length. */
  predicate LooksAhead(cfg: Config, ow: int) {
    Times(EffectiveTarget(cfg, ow) as real, 1.0 - cfg.tolerance) >= 1.0
  }

  lemma LowCharsPositive(cfg: Config, ow: int, avg: real)
    requires LooksAhead(cfg, ow) && avg >= 1.0
    ensures LowChars(cfg, ow, avg) >= 1
  {
    hide Times;
    var share := Times(EffectiveTarget(cfg, ow) as real, 1.0 - cfg.tolerance);
    TimesUnits(avg);
    TimesMonotone(1.0, share, avg);
    TruncAtLeast(Times(share, avg), 1);
  }

  /** A tolerance of up to 0.9 is enough whatever the target, because the effective target is at
      least ten words. */
  lemma NineTenthsIsEnough(cfg: Config, ow: int)
    requires cfg.tolerance <= 0.9
    ensures LooksAhead(cfg, ow)
  {
    hide Times;
    var share := 1.0 - cfg.tolerance;
    TimesUnits(share);
    TimesMonotone(10.0, EffectiveTarget(cfg, ow) as real, share);
  }

  lemma HighAtMostHard(cfg: Config, ow: int, avg: real)
    requires avg >= 1.0
    ensures HighChars(cfg, ow, avg) <= HardChars(cfg, ow, avg)
  {
    hide Times;
    var room := (cfg.hardLimit - ow) as real;
    var least := SmallerReal(Times(EffectiveTarget(cfg, ow) as real, 1.0 + cfg.tolerance), room);
    TimesMonotone(least, room, avg);
    TruncMonotone(Times(least, avg), Times(room, avg));
  }

  /** With room for fewer words than are left, the hard cut stays inside the text. */
  lemma HardCharsInside(cfg: Config, ow: int, avg: real, words: nat, length: nat)
    requires avg >= 1.0 && Times(words as real, avg) == length as real && 0 < cfg.hardLimit - ow < words
    ensures 1 <= HardChars(cfg, ow, avg) <= length
  {
    hide Times;
    var room := (cfg.hardLimit - ow) as real;
    TimesUnits(avg);
    TimesMonotone(1.0, room, avg);
    TimesMonotone(room, words as real, avg);
    TruncAtLeast(Times(room, avg), 1);
    TruncAtMost(Times(room, avg), length);
  }

  lemma HardCharsNotPositive(cfg: Config, ow: int, avg: real)
    requires avg >= 1.0 && cfg.hardLimit <= ow
    ensures HardChars(cfg, ow, avg) <= 0 && (HardChars(cfg, ow, avg) == 0 <==> ow == cfg.hardLimit)
  {
    var room := (cfg.hardLimit - ow) as real;
    TimesUnits(avg);
    TimesMonotone(room, 0.0, avg);
    if ow > cfg.hardLimit {
      MinusOne(avg);
      TimesMonotone(room, -1.0, avg);
    }
    hide Times;
    TruncAtMost(Times(room, avg), if ow > cfg.hardLimit then -1 else 0);
  }

  lemma MinusOne(avg: real)
    requires avg >= 1.0
    ensures Times(-1.0, avg) <= -1.0
  {
  }

  // ------------------------------------------------------------ progress of one step

  ghost predicate EndsBlank(s: string) {
    s == "" || IsSpace(s[|s| - 1])
  }

  lemma PrefixEndsBlank(cfg: Config, prev: string)
    ensures EndsBlank(OverlapPrefix(cfg, prev))
  {}

  /** The numbers of a cutting step: more words are left than there is room for. */
  lemma RoomIsShort(cfg: Config, text: string, cursor: nat, prev: string)
    requires cursor < |text| && Step(cfg, text, cursor, prev).Cut?
    ensures WordCount(OverlapPrefix(cfg, prev)) + WordCount(text[cursor..]) > cfg.hardLimit
  {
    PrefixEndsBlank(cfg, prev);
    WordsAppend(OverlapPrefix(cfg, prev), text[cursor..]);
  }

  lemma HardSplitAdvances(text: string, cursor: nat, hardChars: int)
    requires cursor < |text| && 1 <= hardChars <= |text| - cursor
    ensures cursor < HardSplit(text, cursor, hardChars) <= cursor + hardChars
  {}

  lemma HardSplitStalls(text: string, cursor: nat, hardChars: int)
    requires cursor < |text| && hardChars <= 0
    ensures HardSplit(text, cursor, hardChars) == cursor + hardChars
  {}

  /** The marker the step would cut at, if one is in its window. */
  function BreakFound(cfg: Config, text: string, cursor: nat, prev: string): (r: Option<int>)
    requires cursor < |text|
    ensures var ow := WordCount(OverlapPrefix(cfg, prev));
            var avg := AverageLength(text[cursor..]);
            r.Some? ==> cursor + LowChars(cfg, ow, avg) <= r.value
                        <= cursor + Smaller(HighChars(cfg, ow, avg), |text| - cursor)
  {
    var rest := text[cursor..];
    var ow := WordCount(OverlapPrefix(cfg, prev));
    var avg := AverageLength(rest);
    NearestBreak(text, cursor + Trunc(Times(EffectiveTarget(cfg, ow) as real, avg)), cursor + LowChars(cfg, ow, avg),
                 cursor + Smaller(HighChars(cfg, ow, avg), |rest|), MARKERS)
  }

  lemma CutIs(cfg: Config, text: string, cursor: nat, prev: string)
    requires cursor < |text| && Step(cfg, text, cursor, prev).Cut?
    ensures var found := BreakFound(cfg, text, cursor, prev);
            var ow := WordCount(OverlapPrefix(cfg, prev));
            Step(cfg, text, cursor, prev).end
            == if found.Some? then found.value
               else HardSplit(text, cursor, HardChars(cfg, ow, AverageLength(text[cursor..])))
  {
    hide LowChars, HighChars, HardChars, HardSplit, AverageLength, OverlapPrefix, WordCount, Times, NearestBreak;
  }

  /** The cursor moves forward exactly when the repeated prefix leaves room for a word and the marker
      found, if any, lies ahead. Then the cut stays inside the text, and the slice is within the room's
      share of characters. A marker found lies ahead whenever the window starts ahead of the cursor; then
      a prefix of exactly the limit leaves the cursor where it is and a longer one moves it back. */
  lemma StepAdvancesIff(cfg: Config, text: string, cursor: nat, prev: string)
    requires cursor < |text| && Step(cfg, text, cursor, prev).Cut?
    ensures var end := Step(cfg, text, cursor, prev).end;
            var ow := WordCount(OverlapPrefix(cfg, prev));
            var avg := AverageLength(text[cursor..]);
            var found := BreakFound(cfg, text, cursor, prev);
            && (cursor < end <==> ow < cfg.hardLimit && (found.Some? ==> cursor < found.value))
            && (ow < cfg.hardLimit ==> end <= |text| && end - cursor <= HardChars(cfg, ow, avg))
            && (LowChars(cfg, ow, avg) >= 1 ==>
                  && (found.Some? ==> cursor < found.value)
                  && (end == cursor <==> ow == cfg.hardLimit) && (end < cursor <==> ow > cfg.hardLimit))
  {
    hide LowChars, HighChars, HardChars, HardSplit, AverageLength, OverlapPrefix, Words, Times, Step, BreakFound;
    var rest := text[cursor..];
    var ow := WordCount(OverlapPrefix(cfg, prev));
    var avg := AverageLength(rest);
    CutIs(cfg, text, cursor, prev);
    AverageAtLeastOne(rest);
    HighAtMostHard(cfg, ow, avg);
    if ow < cfg.hardLimit {
      RoomIsShort(cfg, text, cursor, prev);
      HardCharsInside(cfg, ow, avg, WordCount(rest), |rest|);
      HardSplitAdvances(text, cursor, HardChars(cfg, ow, avg));
    } else {
      HardCharsNotPositive(cfg, ow, avg);
      HardSplitStalls(text, cursor, HardChars(cfg, ow, avg));
    }
  }

  // ------------------------------------------------------------------- whole runs

  /** The step does not go back, and stands still only to forget its prefix. */
  ghost predicate Roomy(cfg: Config, text: string, cursor: nat, prev: string)
    requires cursor < |text|
  {
    var ow := WordCount(OverlapPrefix(cfg, prev));
    && LowChars(cfg, ow, AverageLength(text[cursor..])) >= 1
    && (ow < cfg.hardLimit || (ow == cfg.hardLimit && prev != ""))
  }

  lemma RoomyStep(cfg: Config, text: string, cursor: nat, prev: string)
    requires cursor < |text| && Step(cfg, text, cursor, prev).Cut? && Roomy(cfg, text, cursor, prev)
    ensures var end := Step(cfg, text, cursor, prev).end;
            && cursor <= end <= |text|
            && (cursor == end ==> prev != "" && Strip(text[cursor..end]) == "")
            && end - cursor <= HardChars(cfg, WordCount(OverlapPrefix(cfg, prev)), AverageLength(text[cursor..]))
  {
    hide LowChars, HardChars, AverageLength, OverlapPrefix, WordCount, Step, BreakFound;
    var ow := WordCount(OverlapPrefix(cfg, prev));
    StepAdvancesIff(cfg, text, cursor, prev);
    if ow == cfg.hardLimit {
      AverageAtLeastOne(text[cursor..]);
      HardCharsNotPositive(cfg, ow, AverageLength(text[cursor..]));
    }
  }

  /** In every cutting step of the run the search window starts ahead of the cursor and the repeated
      prefix has at most the limit's number of words. */
  ghost predicate Fits(cfg: Config, text: string, cursor: nat, prev: string)
    requires cursor <= |text|
    decreases |text| - cursor, prev != ""
  {
    cursor == |text| ||
    match Step(cfg, text, cursor, prev)
    case Finish => true
    case Cut(end) =>
      && Roomy(cfg, text, cursor, prev)
      && (RoomyStep(cfg, text, cursor, prev); Fits(cfg, text, end, Strip(text[cursor..end])))
  }

  /** A raw slice of the text, with the prefix its chunk repeats. */
  datatype Piece = Piece(lo: nat, hi: nat, prefix: string, last: bool)

  ghost function Run(cfg: Config, text: string, cursor: nat, prev: string): seq<Piece>
    requires cursor <= |text| && Fits(cfg, text, cursor, prev)
    decreases |text| - cursor, prev != ""
  {
    if cursor == |text| then []
    else
      var prefix := OverlapPrefix(cfg, prev);
      match Step(cfg, text, cursor, prev)
      case Finish => [Piece(cursor, |text|, prefix, true)]
      case Cut(end) =>
        RoomyStep(cfg, text, cursor, prev);
        [Piece(cursor, end, prefix, false)] + Run(cfg, text, end, Strip(text[cursor..end]))
  }

  ghost predicate Inside(p: Piece, text: string) {
    p.lo <= p.hi <= |text|
  }

  ghost function ChunkOf(text: string, p: Piece): string
    requires Inside(p, text)
  {
    if p.last then Strip(p.prefix + text[p.lo..p.hi])
    else Strip(p.prefix + Strip(text[p.lo..p.hi]))
  }

  ghost predicate AllInside(pieces: seq<Piece>, text: string) {
    forall i :: 0 <= i < |pieces| ==> Inside(pieces[i], text)
  }

  /** The chunks of the pieces, blank ones dropped. */
  ghost function Chunks(text: string, pieces: seq<Piece>): seq<string>
    requires AllInside(pieces, text)
  {
    if pieces == [] then []
    else
      var c := ChunkOf(text, pieces[0]);
      (if c == "" then [] else [c]) + Chunks(text, pieces[1..])
  }

  /** The pieces cover the text from `from` to its end, each starting where the one before stopped. */
  ghost predicate Tiles(pieces: seq<Piece>, text: string, from: nat) {
    if pieces == [] then from == |text|
    else pieces[0].lo == from <= pieces[0].hi <= |text| && Tiles(pieces[1..], text, pieces[0].hi)
  }

  ghost predicate IsSuffix(a: string, b: string) {
    |a| <= |b| && b[|b| - |a|..] == a
  }

  /** Each prefix repeats, up to whitespace, the end of the slice before it. */
  ghost predicate RepeatsTails(pieces: seq<Piece>, text: string, before: string)
    requires AllInside(pieces, text)
  {
    pieces == [] ||
    (IsSuffix(NonSpace(pieces[0].prefix), NonSpace(before))
     && RepeatsTails(pieces[1..], text, text[pieces[0].lo..pieces[0].hi]))
  }

  /** The size promise: the final chunk by words, every other slice by its share of characters. */
  ghost predicate WithinLimits(cfg: Config, text: string, p: Piece)
    requires Inside(p, text)
  {
    if p.last then WordCount(p.prefix + text[p.lo..]) <= cfg.hardLimit && p.hi == |text|
    else p.hi - p.lo <= HardChars(cfg, WordCount(p.prefix), AverageLength(text[p.lo..]))
  }

  lemma {:induction false} TailIsSuffix(s: string, n: nat)
    requires n <= |s|
    ensures IsSuffix(NonSpace(s[n..]), NonSpace(s))
  {
    NonSpaceCut(s, n);
  }

  lemma LastWordsAreSuffix(prev: string, n: nat)
    requires n <= WordCount(prev)
    ensures IsSuffix(NonSpace(Join(Words(prev)[n..])), NonSpace(prev))
  {
    hide Words, Join, NonSpace, Flatten;
    var ws := Words(prev);
    WordsKeepNonSpace(prev);
    FlattenSplit(ws, n);
    JoinKeepsNonSpace(ws[n..]);
  }

  lemma AddBlank(s: string)
    ensures NonSpace(s + " ") == NonSpace(s)
  {
    NonSpaceAppend(s, " ");
    assert NonSpace(" ") == "";
  }

  /** On the snapped path and on the word-count path alike. */
  lemma PrefixRepeatsTail(cfg: Config, prev: string)
    ensures IsSuffix(NonSpace(OverlapPrefix(cfg, prev)), NonSpace(prev))
  {
    hide SnapPoint, FirstKept, Words, Join, NonSpace, Strip;
    if cfg.overlap > 0.0 && prev != "" {
      match SnapPoint(cfg, prev) {
        case Some(snap) =>
          TailIsSuffix(prev, snap);
          NonSpaceStrip(prev[snap..]);
          AddBlank(Strip(prev[snap..]));
        case None =>
          LastWordsAreSuffix(prev, FirstKept(WordCount(prev), cfg.overlap));
          AddBlank(Join(Words(prev)[FirstKept(WordCount(prev), cfg.overlap)..]));
      }
    } else {
      NothingRepeated(prev);
    }
  }

  lemma NothingRepeated(prev: string)
    ensures IsSuffix(NonSpace(""), NonSpace(prev))
  {}

  /** The pieces of a run that has not ended: the first slice, then the run from its end. */
  lemma RunStep(cfg: Config, text: string, cursor: nat, prev: string, end: nat)
    requires cursor < |text| && Fits(cfg, text, cursor, prev)
    requires Step(cfg, text, cursor, prev) == Cut(end)
    ensures cursor <= end <= |text| && (cursor == end ==> prev != "" && Strip(text[cursor..end]) == "")
    ensures Fits(cfg, text, end, Strip(text[cursor..end]))
    ensures Run(cfg, text, cursor, prev)
         == [Piece(cursor, end, OverlapPrefix(cfg, prev), false)] + Run(cfg, text, end, Strip(text[cursor..end]))
  {
    hide Step, OverlapPrefix, Strip, Roomy;
    RoomyStep(cfg, text, cursor, prev);
  }

  lemma RunFinish(cfg: Config, text: string, cursor: nat, prev: string)
    requires cursor < |text| && Fits(cfg, text, cursor, prev)
    requires Step(cfg, text, cursor, prev) == Finish
    ensures Run(cfg, text, cursor, prev) == [Piece(cursor, |text|, OverlapPrefix(cfg, prev), true)]
  {
    hide Step, OverlapPrefix, Strip;
  }

  lemma RunDone(cfg: Config, text: string, prev: string)
    ensures Fits(cfg, text, |text|, prev) && Run(cfg, text, |text|, prev) == []
  {
    hide Step, OverlapPrefix, Strip;
  }

  /** Tiling, sizes and repeated tails of every run whose prefixes leave room. */
  lemma {:induction false} RunIsSound(cfg: Config, text: string, cursor: nat, prev: string, before: string)
    requires cursor <= |text| && Fits(cfg, text, cursor, prev)
    requires prev == Strip(before)
    ensures var pieces := Run(cfg, text, cursor, prev);
            && AllInside(pieces, text) && Tiles(pieces, text, cursor)
            && (forall i :: 0 <= i < |pieces| ==> WithinLimits(cfg, text, pieces[i]))
            && RepeatsTails(pieces, text, before)
    decreases |text| - cursor, prev != ""
  {
    hide Step, OverlapPrefix, Strip, Fits, Run, NonSpace, IsSuffix, WordCount, HardChars, AverageLength;
    if cursor == |text| {
      RunDone(cfg, text, prev);
    } else {
      NonSpaceStrip(before);
      PrefixRepeatsTail(cfg, prev);
      match Step(cfg, text, cursor, prev) {
        case Finish =>
          RunFinish(cfg, text, cursor, prev);
          FinishFits(cfg, text, cursor, prev);
          var p := Piece(cursor, |text|, OverlapPrefix(cfg, prev), true);
          assert [p][1..] == [];
        case Cut(end) =>
          FitsNeedsRoom(cfg, text, cursor, prev);
          RoomyStep(cfg, text, cursor, prev);
          RunStep(cfg, text, cursor, prev, end);
          CutFits(cfg, text, cursor, prev);
          RunIsSound(cfg, text, end, Strip(text[cursor..end]), text[cursor..end]);
          var p := Piece(cursor, end, OverlapPrefix(cfg, prev), false);
          var rest := Run(cfg, text, end, Strip(text[cursor..end]));
          assert ([p] + rest)[1..] == rest;
      }
    }
  }

  lemma FinishFits(cfg: Config, text: string, cursor: nat, prev: string)
    requires cursor < |text| && Step(cfg, text, cursor, prev) == Finish
    ensures WordCount(OverlapPrefix(cfg, prev) + text[cursor..]) <= cfg.hardLimit
  {
    hide OverlapPrefix, WordCount, NearestBreak;
  }

  lemma CutFits(cfg: Config, text: string, cursor: nat, prev: string)
    requires cursor < |text| && Step(cfg, text, cursor, prev).Cut?
    requires Fits(cfg, text, cursor, prev)
    ensures Step(cfg, text, cursor, prev).end - cursor
         <= HardChars(cfg, WordCount(OverlapPrefix(cfg, prev)), AverageLength(text[cursor..]))
  {
    hide OverlapPrefix, WordCount, Step, HardChars, AverageLength, Strip, Roomy;
    RoomyStep(cfg, text, cursor, prev);
  }

  lemma ChunkKeepsText(text: string, p: Piece)
    requires Inside(p, text)
    ensures NonSpace(ChunkOf(text, p)) == NonSpace(p.prefix) + NonSpace(text[p.lo..p.hi])
  {
    hide NonSpace, Strip;
    var raw := text[p.lo..p.hi];
    NonSpaceStrip(raw);
    NonSpaceStrip(p.prefix + raw);
    NonSpaceAppend(p.prefix, raw);
    NonSpaceStrip(p.prefix + Strip(raw));
    NonSpaceAppend(p.prefix, Strip(raw));
  }

  /** What is left of a chunk's visible text once the repeated prefix is dropped. */
  ghost function Fresh(text: string, p: Piece): string
    requires Inside(p, text)
  {
    var seen := NonSpace(ChunkOf(text, p));
    if |NonSpace(p.prefix)| <= |seen| then seen[|NonSpace(p.prefix)|..] else ""
  }

  ghost function FreshText(text: string, pieces: seq<Piece>): string
    requires AllInside(pieces, text)
  {
    if pieces == [] then "" else Fresh(text, pieces[0]) + FreshText(text, pieces[1..])
  }

  /** No text is lost: the fresh parts concatenate to the visible text from the start on. */
  lemma {:induction false} TilesKeepText(text: string, pieces: seq<Piece>, from: nat)
    requires AllInside(pieces, text) && from <= |text| && Tiles(pieces, text, from)
    ensures FreshText(text, pieces) == NonSpace(text[from..])
    decreases |pieces|
  {
    hide NonSpace, ChunkOf;
    if pieces == [] {
      NoText();
    } else {
      var p := pieces[0];
      ChunkKeepsText(text, p);
      TilesKeepText(text, pieces[1..], p.hi);
      NonSpaceCut(text[from..], p.hi - from);
      assert text[from..][..p.hi - from] == text[p.lo..p.hi];
      assert text[from..][p.hi - from..] == text[p.hi..];
      var (a, b) := (NonSpace(p.prefix), NonSpace(text[p.lo..p.hi]));
      assert (a + b)[|a|..] == b;
    }
  }

  lemma NoText()
    ensures NonSpace("") == ""
  {}

  /** A chunk that is dropped because it is blank carried no visible text. */
  lemma DroppedIsBlank(text: string, p: Piece)
    requires Inside(p, text) && ChunkOf(text, p) == ""
    ensures NonSpace(text[p.lo..p.hi]) == ""
  {
    hide ChunkOf;
    ChunkKeepsText(text, p);
    NoText();
  }

  /** Without overlap nothing is needed beyond a positive limit and a target that leaves a word after
      the tolerance is taken off, which the caller can check beforehand. */
  lemma {:induction false} NoOverlapAlwaysFits(cfg: Config, text: string, cursor: nat, prev: string)
    requires cursor <= |text| && cfg.overlap <= 0.0 && cfg.hardLimit >= 1 && LooksAhead(cfg, 0)
    ensures Fits(cfg, text, cursor, prev)
    decreases |text| - cursor, prev != ""
  {
    hide Step, WordCount, Strip, LooksAhead, LowChars, AverageLength;
    if cursor < |text| {
      NoWordsInPrefix();
      AverageAtLeastOne(text[cursor..]);
      LowCharsPositive(cfg, 0, AverageLength(text[cursor..]));
      match Step(cfg, text, cursor, prev) {
        case Finish =>
        case Cut(end) =>
          RoomyStep(cfg, text, cursor, prev);
          NoOverlapAlwaysFits(cfg, text, end, Strip(text[cursor..end]));
      }
    }
  }

  lemma NoWordsInPrefix()
    ensures WordCount("") == 0
  {}

  // --------------------------------------------------- every cut is the one asked for

  /** A forced cut: the last blank or newline within the limit, or the limit itself if there is none. */
  ghost predicate ForcedCut(text: string, from: nat, hard: int, end: int)
    requires from <= |text|
  {
    var limit := if hard < |text| - from then from + hard else |text|;
    if hard > 0 && exists e :: from < e <= limit && BlankBefore(text, e) then
      from < end <= limit && BlankBefore(text, end) && forall e :: end < e <= limit ==> !BlankBefore(text, e)
    else end == from + hard
  }

  ghost predicate BlankBefore(text: string, e: int) {
    0 < e <= |text| && (text[e - 1] == ' ' || text[e - 1] == '\n')
  }

  /** Where a slice that starts at `from` behind a prefix of `ow` words ends: aiming at the target less those
      words, but at least ten, times the average word length of the rest, at the closest end of the first of
      "***", "---", an empty line, a newline and a full stop that ends within the tolerance and the limit;
      by force at the limit if none does. */
  ghost predicate CutAsAsked(cfg: Config, text: string, from: nat, ow: nat, end: int)
    requires from < |text|
  {
    var rest := text[from..];
    var average := |rest| as real / (if WordCount(rest) > 1 then WordCount(rest) else 1) as real;
    var target := (if cfg.target - ow > 10 then cfg.target - ow else 10) as real;
    var room := (cfg.hardLimit - ow) as real;
    var most := if Times(target, 1.0 + cfg.tolerance) < room then Times(target, 1.0 + cfg.tolerance) else room;
    var lo := from + Trunc(Times(Times(target, 1.0 - cfg.tolerance), average));
    var hi := from + (if Trunc(Times(most, average)) < |rest| then Trunc(Times(most, average)) else |rest|);
    var markers := ["***", "---", "\n\n", "\n", "."];
    if HasBreak(text, markers, lo, hi) then BestBreak(text, markers, lo, hi, from + Trunc(Times(target, average)), end)
    else ForcedCut(text, from, Trunc(Times(room, average)), end)
  }

  lemma {:induction false} ScanBackIs(text: string, cursor: int, end: int)
    requires 0 <= cursor <= end <= |text|
    ensures var r := ScanBack(text, cursor, end);
            && (r > cursor ==> BlankBefore(text, r)) && forall e :: r < e <= end ==> !BlankBefore(text, e)
    decreases end - cursor
  {
    if end > cursor && text[end - 1] != ' ' && text[end - 1] != '\n' {
      ScanBackIs(text, cursor, end - 1);
    }
  }

  lemma HardSplitIs(text: string, cursor: nat, hard: int)
    requires cursor <= |text|
    ensures ForcedCut(text, cursor, hard, HardSplit(text, cursor, hard))
  {
    if hard > 0 {
      ScanBackIs(text, cursor, cursor + Smaller(hard, |text| - cursor));
    }
  }

  /** The numbers of a step, written out. */
  lemma WindowIs(cfg: Config, rest: string, ow: nat)
    ensures var average := |rest| as real / (if WordCount(rest) > 1 then WordCount(rest) else 1) as real;
            var target := (if cfg.target - ow > 10 then cfg.target - ow else 10) as real;
            var room := (cfg.hardLimit - ow) as real;
            var most := if Times(target, 1.0 + cfg.tolerance) < room then Times(target, 1.0 + cfg.tolerance) else room;
            && AverageLength(rest) == average && EffectiveTarget(cfg, ow) as real == target
            && LowChars(cfg, ow, average) == Trunc(Times(Times(target, 1.0 - cfg.tolerance), average))
            && HighChars(cfg, ow, average) == Trunc(Times(most, average))
            && HardChars(cfg, ow, average) == Trunc(Times(room, average))
  {
    hide Times, Trunc, WordCount;
  }

  lemma CutIsAsked(cfg: Config, text: string, cursor: nat, prev: string)
    requires cursor < |text| && Step(cfg, text, cursor, prev).Cut?
    ensures CutAsAsked(cfg, text, cursor, WordCount(OverlapPrefix(cfg, prev)), Step(cfg, text, cursor, prev).end)
  {
    hide Times, Trunc, WordCount, OverlapPrefix, Step, NearestBreak, HasBreak, BestBreak, ForcedCut, HardSplit,
      EffectiveTarget, LowChars, HighChars, HardChars, AverageLength;
    var rest := text[cursor..];
    var ow := WordCount(OverlapPrefix(cfg, prev));
    var avg := AverageLength(rest);
    CutIs(cfg, text, cursor, prev);
    WindowIs(cfg, rest, ow);
    NearestBreakIs(text, cursor + Trunc(Times(EffectiveTarget(cfg, ow) as real, avg)), cursor + LowChars(cfg, ow, avg),
                   cursor + Smaller(HighChars(cfg, ow, avg), |rest|), MARKERS);
    HardSplitIs(text, cursor, HardChars(cfg, ow, avg));
  }

  /** The position up to which a text is skipped for a fraction of its words. */
  ghost predicate IsPosition(s: string, fraction: real, r: nat) {
    if fraction <= 0.0 then r == 0
    else if fraction >= 1.0 then r == |s|
    else r <= |s| && (WordCount(s) > 0 ==> IsShareOfWords(s, fraction, r))
  }

  lemma PositionIs(s: string, fraction: real)
    ensures IsPosition(s, fraction, CharForFraction(s, fraction))
  {
    hide IsShareOfWords, WordCount, AfterWords;
    if 0.0 < fraction < 1.0 && WordCount(s) > 0 {
      FractionStopsAtWord(s, fraction);
    }
  }

  /** The prefix a chunk repeats from the slice before: nothing without overlap; from the closest marker end
      near the start of the last `overlap` share of the words, or else that share of the words, at least one. */
  ghost predicate PrefixAsAsked(cfg: Config, prev: string, prefix: string) {
    if cfg.overlap <= 0.0 || prev == "" then prefix == ""
    else exists start: nat :: IsPosition(prev, 1.0 - cfg.overlap, start) && TailFrom(cfg, prev, start, prefix)
  }

  ghost predicate TailFrom(cfg: Config, prev: string, start: nat, prefix: string) {
    var slack := if |prev| as real * 0.10 >= 31.0 then (|prev| as real * 0.10).Floor else 30;
    var lo, hi := if start > slack then start - slack else 0, if start + slack < |prev| then start + slack else |prev|;
    var markers := ["***", "---", "\n\n", "\n", "."];
    if HasBreak(prev, markers, lo, hi) then
      exists snap :: 0 <= snap <= |prev| && BestBreak(prev, markers, lo, hi, start, snap) && prefix == Strip(prev[snap..]) + " "
    else
      var words := Words(prev);
      var kept := Trunc(Times(|words| as real, cfg.overlap));
      prefix == Join(if kept >= |words| then words
                     else if kept < 1 then words[|words| - 1..] else words[|words| - kept..]) + " "
  }

  lemma SnapPointIs(cfg: Config, prev: string)
    ensures var start := CharForFraction(prev, 1.0 - cfg.overlap);
            var slack := Slack(|prev|);
            var lo, hi := Larger(0, start - slack), Smaller(|prev|, start + slack);
            && (SnapPoint(cfg, prev).None? <==> !HasBreak(prev, MARKERS, lo, hi))
            && (SnapPoint(cfg, prev).Some? ==> BestBreak(prev, MARKERS, lo, hi, start, SnapPoint(cfg, prev).value))
  {
    hide HasBreak, BestBreak, NearestBreak, CharForFraction, Slack;
    var start := CharForFraction(prev, 1.0 - cfg.overlap);
    var slack := Slack(|prev|);
    NearestBreakIs(prev, start, Larger(0, start - slack), Smaller(|prev|, start + slack), MARKERS);
  }

  lemma SlackIs(length: nat)
    ensures Slack(length) == if length as real * 0.10 >= 31.0 then (length as real * 0.10).Floor else 30
  {
    var x := length as real * 0.10;
    assert x >= 31.0 <==> x.Floor >= 31;
  }

  /** The last share of the words, at least one and at most all. */
  lemma KeptWordsAre(words: seq<string>, overlap: real)
    requires words != []
    ensures var kept := Trunc(Times(|words| as real, overlap));
            words[FirstKept(|words|, overlap)..]
            == if kept >= |words| then words else if kept < 1 then words[|words| - 1..] else words[|words| - kept..]
  {
    hide Times, Trunc;
  }

  lemma TailIsAsked(cfg: Config, prev: string)
    requires cfg.overlap > 0.0 && prev != "" && WordCount(prev) > 0
    ensures TailFrom(cfg, prev, CharForFraction(prev, 1.0 - cfg.overlap), OverlapPrefix(cfg, prev))
  {
    hide HasBreak, BestBreak, SnapPoint, CharForFraction, Words, Join, Strip, Trunc, Times, FirstKept, Slack;
    SnapPointIs(cfg, prev);
    SlackIs(|prev|);
    KeptWordsAre(Words(prev), cfg.overlap);
  }

  lemma NoPrefix(cfg: Config, prev: string)
    requires cfg.overlap <= 0.0 || prev == ""
    ensures OverlapPrefix(cfg, prev) == ""
  {
    hide SnapPoint, Words, Join, Strip, FirstKept;
  }

  lemma PrefixIsAsked(cfg: Config, prev: string)
    requires prev != "" ==> WordCount(prev) > 0
    ensures PrefixAsAsked(cfg, prev, OverlapPrefix(cfg, prev))
  {
    hide TailFrom, CharForFraction, IsPosition, WordCount, OverlapPrefix;
    if cfg.overlap > 0.0 && prev != "" {
      PositionIs(prev, 1.0 - cfg.overlap);
      TailIsAsked(cfg, prev);
    } else {
      NoPrefix(cfg, prev);
    }
  }

  lemma StrippedHasWords(s: string)
    ensures Strip(s) != "" ==> WordCount(Strip(s)) > 0
  {}

  /** Every slice but the last ends where asked, and every prefix is the one asked for. */
  ghost predicate AsAsked(cfg: Config, text: string, pieces: seq<Piece>, prev: string)
    requires AllInside(pieces, text)
  {
    pieces == [] ||
    (&& PrefixAsAsked(cfg, prev, pieces[0].prefix)
     && (!pieces[0].last ==>
           pieces[0].lo < |text| && CutAsAsked(cfg, text, pieces[0].lo, WordCount(pieces[0].prefix), pieces[0].hi))
     && AsAsked(cfg, text, pieces[1..], Strip(text[pieces[0].lo..pieces[0].hi])))
  }

  lemma {:induction false} RunIsAsked(cfg: Config, text: string, cursor: nat, prev: string)
    requires cursor <= |text| && Fits(cfg, text, cursor, prev) && (prev != "" ==> WordCount(prev) > 0)
    requires AllInside(Run(cfg, text, cursor, prev), text)
    ensures AsAsked(cfg, text, Run(cfg, text, cursor, prev), prev)
    decreases |text| - cursor, prev != ""
  {
    hide Step, OverlapPrefix, Strip, Fits, Run, WordCount, CutAsAsked, PrefixAsAsked;
    if cursor == |text| {
      RunDone(cfg, text, prev);
    } else {
      PrefixIsAsked(cfg, prev);
      match Step(cfg, text, cursor, prev) {
        case Finish =>
          RunFinish(cfg, text, cursor, prev);
          var p := Piece(cursor, |text|, OverlapPrefix(cfg, prev), true);
          assert [p][1..] == [];
        case Cut(end) =>
          FitsNeedsRoom(cfg, text, cursor, prev);
          RoomyStep(cfg, text, cursor, prev);
          RunStep(cfg, text, cursor, prev, end);
          CutIsAsked(cfg, text, cursor, prev);
          var p := Piece(cursor, end, OverlapPrefix(cfg, prev), false);
          var rest := Run(cfg, text, end, Strip(text[cursor..end]));
          assert ([p] + rest)[1..] == rest;
          StrippedHasWords(text[cursor..end]);
          RunIsAsked(cfg, text, end, Strip(text[cursor..end]));
      }
    }
  }

  /** Where the chunking starts: at the beginning, or after a fraction of the words, at the next clean break
      within 300 characters if there is one. */
  ghost predicate StartAsAsked(cfg: Config, text: string, cursor: nat) {
    if cfg.startOffset <= 0.0 then cursor == 0
    else exists offset: nat :: IsPosition(text, cfg.startOffset, offset) && StartsNear(text, offset, cursor)
  }

  ghost predicate StartsNear(text: string, offset: nat, cursor: nat) {
    var hi := if offset + 300 < |text| then offset + 300 else |text|;
    if HasBreak(text, ["\n\n", "\n", "."], offset, hi) then BestBreak(text, ["\n\n", "\n", "."], offset, hi, offset, cursor)
    else cursor == offset
  }

  lemma StartIsAsked(cfg: Config, text: string)
    ensures StartAsAsked(cfg, text, StartCursor(cfg, text))
  {
    hide HasBreak, BestBreak, NearestBreak, IsPosition, CharForFraction;
    if cfg.startOffset > 0.0 {
      var offset := CharForFraction(text, cfg.startOffset);
      PositionIs(text, cfg.startOffset);
      NearestBreakIs(text, offset, offset, Smaller(offset + 300, |text|), ["\n\n", "\n", "."]);
      assert StartsNear(text, offset, StartCursor(cfg, text));
    }
  }

  /** str.replace, by str.find: what comes before the first occurrence stays, the occurrence is replaced, and
      so on behind it. */
  lemma {:induction false} ReplaceIs(s: string, from: string, to: string)
    requires from != ""
    ensures var i := Find(s, from, 0);
            Replace(s, from, to)
            == if i == -1 || i + |from| > |s| then s else s[..i] + to + Replace(s[i + |from|..], from, to)
  {
    hide Find, Replace, OccursAt;
    if |s| < |from| || s[..|from|] == from {
      ReplaceHere(s, from, to);
      assert s[..0] + to == to;
    } else {
      ReplaceIs(s[1..], from, to);
      ReplaceLater(s, from, to);
      FindShifts(s, from);
      FindInside(s[1..], from);
      var j := Find(s[1..], from, 0);
      if j == -1 {
        assert [s[0]] + s[1..] == s;
      } else {
        assert s[1..][j + |from|..] == s[j + 1 + |from|..];
        Glue(s, j, to, Replace(s[j + 1 + |from|..], from, to));
      }
    }
  }

  lemma Glue(s: string, j: nat, to: string, rest: string)
    requires j < |s|
    ensures [s[0]] + (s[1..][..j] + to + rest) == s[..j + 1] + to + rest
  {
    assert [s[0]] + s[1..][..j] == s[..j + 1];
    Reassociate([s[0]], s[1..][..j] + to, rest);
    Reassociate([s[0]], s[1..][..j], to);
  }

  lemma ReplaceHere(s: string, from: string, to: string)
    requires from != "" && (|s| < |from| || s[..|from|] == from)
    ensures if |s| < |from| then Find(s, from, 0) == -1 && Replace(s, from, to) == s
            else Find(s, from, 0) == 0 && Replace(s, from, to) == to + Replace(s[|from|..], from, to)
  {}

  lemma ReplaceLater(s: string, from: string, to: string)
    requires from != "" && |s| >= |from| && s[..|from|] != from
    ensures Replace(s, from, to) == [s[0]] + Replace(s[1..], from, to) && !OccursAt(s, from, 0)
  {}

  lemma FindInside(s: string, from: string)
    ensures Find(s, from, 0) == -1 || 0 <= Find(s, from, 0) <= |s| - |from|
  {
    FindIsFirst(s, from, 0);
  }

  lemma FindShifts(s: string, from: string)
    requires from != "" && s != "" && !OccursAt(s, from, 0)
    ensures var i := Find(s, from, 0);
            var j := Find(s[1..], from, 0);
            if j == -1 then i == -1 else i == j + 1
  {
    hide Find;
    FindIsFirst(s, from, 0);
    FindIsFirst(s[1..], from, 0);
    var i, j := Find(s, from, 0), Find(s[1..], from, 0);
    if i != -1 {
      OneOn(s, from, i);
    }
    if j != -1 {
      OneOn(s, from, j + 1);
    }
  }

  lemma OneOn(s: string, from: string, i: int)
    requires s != "" && i > 0
    ensures OccursAt(s, from, i) <==> OccursAt(s[1..], from, i - 1)
  {
    if 0 < i && i + |from| <= |s| {
      assert s[1..][i - 1..i - 1 + |from|] == s[i..i + |from|];
    }
  }

  /** The literal escapes that stand for line breaks, in this order. */
  lemma NormalisedIs(raw: string)
    ensures Normalised(raw)
         == var a := Replace(raw, ['\\', 'n', '\\', 'n'], ['\n', '\n']);
            var b := Replace(a, ['\\', 'n'], ['\n']);
            Replace(b, ['\\', 'r'], ['\r'])
  {}

  // --------------------------------------------------------------- the loop itself

  method HardSplitEnd(text: string, cursor: nat, hardChars: int) returns (end: int)
    requires cursor <= |text|
    ensures end == HardSplit(text, cursor, hardChars)
  {
    end := cursor + Smaller(hardChars, |text| - cursor);
    ghost var goal := ScanBack(text, cursor, end);
    while end > cursor && text[end - 1] != ' ' && text[end - 1] != '\n'
      invariant end <= |text| && ScanBack(text, cursor, end) == goal
    {
      end := end - 1;
    }
    if end == cursor {
      end := cursor + hardChars;
    }
  }

  /** Where the next cut falls once the rest is known not to fit. */
  method NextCut(cfg: Config, text: string, cursor: nat, ghost prev: string, prefix: string) returns (end: int)
    requires cursor < |text| && prefix == OverlapPrefix(cfg, prev) && Step(cfg, text, cursor, prev).Cut?
    ensures Step(cfg, text, cursor, prev) == Cut(end)
  {
    hide Step, OverlapPrefix, WordCount, AverageLength, LowChars, HighChars, HardChars, NearestBreak, HardSplit,
      EffectiveTarget, Times, Trunc;
    CutIs(cfg, text, cursor, prev);
    var rest := text[cursor..];
    var ow := WordCount(prefix);
    var avg := AverageLength(rest);
    var pos := NearestBreak(text, cursor + Trunc(Times(EffectiveTarget(cfg, ow) as real, avg)),
                            cursor + LowChars(cfg, ow, avg),
                            cursor + Smaller(HighChars(cfg, ow, avg), |rest|), MARKERS);
    assert pos == BreakFound(cfg, text, cursor, prev);
    if pos.Some? {
      end := pos.value;
    } else {
      end := HardSplitEnd(text, cursor, HardChars(cfg, ow, avg));
    }
  }

  lemma ChunksAppend(text: string, done: seq<Piece>, p: Piece)
    requires AllInside(done, text) && Inside(p, text)
    ensures AllInside(done + [p], text)
    ensures Chunks(text, done + [p])
         == Chunks(text, done) + if ChunkOf(text, p) == "" then [] else [ChunkOf(text, p)]
  {
    hide ChunkOf;
    if done == [] {
      assert done + [p] == [p] && [p][1..] == [];
    } else {
      assert (done + [p])[1..] == done[1..] + [p];
      ChunksAppend(text, done[1..], p);
    }
  }

  /** The whole loop, on the normalised text, from the start offset. */
  method ChunkAtBoundaries(cfg: Config, raw: string) returns (chunks: seq<string>)
    requires Fits(cfg, Normalised(raw), StartCursor(cfg, Normalised(raw)), "")
    ensures var text := Normalised(raw);
            var pieces := Run(cfg, text, StartCursor(cfg, text), "");
            && AllInside(pieces, text) && chunks == Chunks(text, pieces)
            && Tiles(pieces, text, StartCursor(cfg, text))
            && FreshText(text, pieces) == NonSpace(text[StartCursor(cfg, text)..])
            && RepeatsTails(pieces, text, "")
            && (forall i :: 0 <= i < |pieces| ==> WithinLimits(cfg, text, pieces[i]))
            && StartAsAsked(cfg, text, StartCursor(cfg, text)) && AsAsked(cfg, text, pieces, "")
    ensures forall i :: 0 <= i < |chunks| ==> Trimmed(chunks[i])
  {
    hide Step, OverlapPrefix, Strip, Fits, Run, WordCount, StartCursor, Normalised, ChunkOf, NonSpace, IsSuffix,
         WithinLimits, Tiles, FreshText, RepeatsTails, Roomy, StartAsAsked, AsAsked, Trimmed;
    var text := Normalised(raw);
    var cursor: nat := StartCursor(cfg, text);
    ghost var goal := Run(cfg, text, cursor, "");
    BlankStrips();
    RunIsSound(cfg, text, cursor, "", "");
    TilesKeepText(text, goal, cursor);
    StartIsAsked(cfg, text);
    RunIsAsked(cfg, text, cursor, "");
    chunks := [];
    ghost var pieces: seq<Piece> := [];
    var prev := "";
    while cursor < |text|
      invariant cursor <= |text| && Fits(cfg, text, cursor, prev)
      invariant goal == pieces + Run(cfg, text, cursor, prev)
      invariant AllInside(pieces, text) && chunks == Chunks(text, pieces)
      invariant forall i :: 0 <= i < |chunks| ==> Trimmed(chunks[i])
      decreases |text| - cursor, prev != ""
    {
      var rest := text[cursor..];
      var prefix := OverlapPrefix(cfg, prev);
      if WordCount(prefix + rest) <= cfg.hardLimit {
        FitsMeansFinish(cfg, text, cursor, prev);
        RunFinish(cfg, text, cursor, prev);
        var chunk := Strip(prefix + rest);
        ghost var p := Piece(cursor, |text|, prefix, true);
        LastChunk(text, p);
        StripTrims(prefix + rest);
        ChunksAppend(text, pieces, p);
        if chunk != "" {
          chunks := chunks + [chunk];
        }
        pieces := pieces + [p];
        assert pieces == goal;
        return;
      }
      TooLongMeansCut(cfg, text, cursor, prev);
      var end := NextCut(cfg, text, cursor, prev, prefix);
      FitsNeedsRoom(cfg, text, cursor, prev);
      RoomyStep(cfg, text, cursor, prev);
      RunStep(cfg, text, cursor, prev, end);
      var rawChunk := Strip(text[cursor..end]);
      var chunk := Strip(prefix + rawChunk);
      ghost var p := Piece(cursor, end, prefix, false);
      MiddleChunk(text, p);
      StripTrims(prefix + rawChunk);
      ChunksAppend(text, pieces, p);
      if chunk != "" {
        chunks := chunks + [chunk];
      }
      Reassociate(pieces, [p], Run(cfg, text, end, rawChunk));
      pieces := pieces + [p];
      prev := rawChunk;
      cursor := end;
    }
    RunDone(cfg, text, prev);
    assert pieces == goal;
  }

  /** Not empty, and no whitespace at either end. */
  ghost predicate Trimmed(chunk: string) {
    chunk != "" && !IsSpace(chunk[0]) && !IsSpace(chunk[|chunk| - 1])
  }

  lemma StripTrims(s: string)
    ensures Strip(s) != "" ==> Trimmed(Strip(s))
  {}

  lemma LastChunk(text: string, p: Piece)
    requires Inside(p, text) && p.last && p.hi == |text|
    ensures ChunkOf(text, p) == Strip(p.prefix + text[p.lo..])
  {
    assert text[p.lo..p.hi] == text[p.lo..];
  }

  lemma MiddleChunk(text: string, p: Piece)
    requires Inside(p, text) && !p.last
    ensures ChunkOf(text, p) == Strip(p.prefix + Strip(text[p.lo..p.hi]))
  {}

  lemma FitsMeansFinish(cfg: Config, text: string, cursor: nat, prev: string)
    requires cursor < |text| && WordCount(OverlapPrefix(cfg, prev) + text[cursor..]) <= cfg.hardLimit
    ensures Step(cfg, text, cursor, prev) == Finish
  {}

  lemma TooLongMeansCut(cfg: Config, text: string, cursor: nat, prev: string)
    requires cursor < |text| && WordCount(OverlapPrefix(cfg, prev) + text[cursor..]) > cfg.hardLimit
    ensures Step(cfg, text, cursor, prev).Cut?
  {
    hide OverlapPrefix, WordCount, NearestBreak, HardSplit;
  }

  lemma FitsNeedsRoom(cfg: Config, text: string, cursor: nat, prev: string)
    requires cursor < |text| && Fits(cfg, text, cursor, prev)
    requires Step(cfg, text, cursor, prev).Cut?
    ensures Roomy(cfg, text, cursor, prev)
  {
    hide Roomy, Step, Strip;
  }

  lemma BlankStrips()
    ensures Strip("") == ""
  {}
}
