/** Chunk table names: building them under Postgres's identifier limit, and reading them back. */
module TableNames {

  import opened Basics
  import Breaks

  const MAX_IDENTIFIER: nat := 63
  const MARKER: string := "_chunks_"
  /** Characters left for the post table and the suffix together. */
  const ROOM: nat := 55

  datatype Config = Config(primary: string, queue: string)

  /** One item of the suffix dictionary, in insertion order. */
  datatype Entry = Entry(suffix: string, taskType: string, cfg: Config)

  datatype Parsed = Parsed(postTable: string, taskType: string, cfg: Config)

  function Clip(s: string, n: nat): string {
    if |s| <= n then s else s[..n]
  }

  function Truncate(name: string): string {
    Clip(name, MAX_IDENTIFIER)
  }

  function LowerChar(c: char): char {
    if 'A' <= c <= 'Z' then (c as int + 32) as char else c
  }

  function Lower(s: string): (r: string)
    ensures |r| == |s| && forall i :: 0 <= i < |r| ==> r[i] == LowerChar(s[i])
  {
    seq(|s|, i requires 0 <= i < |s| => LowerChar(s[i]))
  }

  /** Lower case, with '/', '-' and '.' turned into '_'. */
  function Sanitize(model: string): (r: string)
    ensures |r| == |model|
    ensures forall i :: 0 <= i < |r| ==> r[i] != '/' && r[i] != '-' && r[i] != '.'
  {
    var low := Lower(model);
    seq(|low|, i requires 0 <= i < |low| => if low[i] == '/' || low[i] == '-' || low[i] == '.' then '_' else low[i])
  }

  function SuffixOf(taskType: string, model: string): string {
    taskType + "_" + Sanitize(model)
  }

  function NameOf(postTable: string, suffix: string): string {
    Truncate(postTable + MARKER + suffix)
  }

  function Build(postTable: string, taskType: string, model: string): string {
    NameOf(postTable, SuffixOf(Lower(taskType), model))
  }

  /** Dictionary assignment: a key keeps its place and takes the new value. */
  function Put(entries: seq<Entry>, e: Entry): (r: seq<Entry>)
    ensures e in r
    ensures forall x :: x in r ==> x in entries || x == e
    ensures forall x :: x in entries && x.suffix != e.suffix ==> x in r
  {
    if entries == [] then [e]
    else if entries[0].suffix == e.suffix then
      var r := [e] + entries[1..];
      assert r[0] == e;
      assert forall x :: x in entries[1..] ==> x in r;
      assert forall x :: x in entries ==> x == entries[0] || x in entries[1..];
      r
    else
      var r := [entries[0]] + Put(entries[1..], e);
      assert forall x :: x in entries ==> x == entries[0] || x in entries[1..];
      r
  }

  function SuffixMap(configs: seq<(string, Config)>): seq<Entry> {
    if configs == [] then []
    else
      var (taskType, cfg) := configs[|configs| - 1];
      Put(SuffixMap(configs[..|configs| - 1]), Entry(SuffixOf(taskType, cfg.primary), taskType, cfg))
  }

  function FirstMatch(entries: seq<Entry>, postTable: string, name: string): Option<Entry> {
    if entries == [] then None
    else if NameOf(postTable, entries[0].suffix) == name then Some(entries[0])
    else FirstMatch(entries[1..], postTable, name)
  }

  function Parse(name: string, entries: seq<Entry>): Option<Parsed> {
    var idx := Breaks.Find(name, MARKER, 0);
    if idx == -1 then None
    else
      var found := FirstMatch(entries, name[..idx], name);
      if found.None? then None else Some(Parsed(name[..idx], found.value.taskType, found.value.cfg))
  }

  // ------------------------------------------------------------- character by character

  lemma LowerCharIs(c: char)
    ensures if 'A' <= c <= 'Z' then LowerChar(c) == "abcdefghijklmnopqrstuvwxyz"[c as int - 'A' as int] else LowerChar(c) == c
  {
    var all := "abcdefghijklmnopqrstuvwxyz";
    if 'A' <= c <= 'Z' {
      assert all[c as int - 65] == (c as int + 32) as char;
    }
  }

  /** '/', '-' and '.' become '_', and everything else its lower case. */
  lemma SanitizeAt(model: string, i: nat)
    requires i < |model|
    ensures Sanitize(model)[i]
         == if model[i] == '/' || model[i] == '-' || model[i] == '.' then '_' else LowerChar(model[i])
  {
  }

  /** "{post table}_chunks_{type, in lower case}_{model, sanitised}", cut to 63 characters. */
  lemma BuildIs(postTable: string, taskType: string, model: string)
    ensures var full := postTable + "_chunks_" + Lower(taskType) + "_" + Sanitize(model);
            Build(postTable, taskType, model) == if |full| <= 63 then full else full[..63]
  {
    hide Lower, Sanitize;
    assert postTable + MARKER + (Lower(taskType) + "_" + Sanitize(model))
        == postTable + "_chunks_" + Lower(taskType) + "_" + Sanitize(model);
  }

  // ---------------------------------------------------------------- the suffix map

  lemma {:induction false} EntriesComeFromConfigs(configs: seq<(string, Config)>)
    ensures forall e :: e in SuffixMap(configs) ==>
              (e.taskType, e.cfg) in configs && e.suffix == SuffixOf(e.taskType, e.cfg.primary)
  {
    if configs != [] {
      var front := configs[..|configs| - 1];
      EntriesComeFromConfigs(front);
      assert forall c :: c in front ==> c in configs;
      var (taskType, cfg) := configs[|configs| - 1];
      assert (taskType, cfg) in configs;
      hide Put, SuffixOf;
    }
  }

  lemma {:induction false} FirstMatchIsFirst(entries: seq<Entry>, postTable: string, name: string)
    ensures var f := FirstMatch(entries, postTable, name);
            if f.None? then forall e :: e in entries ==> NameOf(postTable, e.suffix) != name
            else f.value in entries && NameOf(postTable, f.value.suffix) == name
  {
    if entries != [] {
      FirstMatchIsFirst(entries[1..], postTable, name);
      assert forall e :: e in entries ==> e == entries[0] || e in entries[1..];
    }
  }

  // ------------------------------------------------------- what parsing gives back

  /** Every successful parse names a configured type whose rebuilt table name is exactly the
      name parsed, and the post table is what stands before the first marker. */
  lemma ParsedRebuilds(name: string, configs: seq<(string, Config)>)
    requires Parse(name, SuffixMap(configs)).Some?
    ensures var r := Parse(name, SuffixMap(configs)).value;
            && (r.taskType, r.cfg) in configs
            && NameOf(r.postTable, SuffixOf(r.taskType, r.cfg.primary)) == name
            && (Lower(r.taskType) == r.taskType ==> Build(r.postTable, r.taskType, r.cfg.primary) == name)
            && |r.postTable| <= ROOM && MarkerFirst(r.postTable)
  {
    EntriesComeFromConfigs(configs);
    var idx := Breaks.Find(name, MARKER, 0);
    FirstMatchIsFirst(SuffixMap(configs), name[..idx], name);
    var r := Parse(name, SuffixMap(configs)).value;
    MarkerSurvives(r.postTable, SuffixOf(r.taskType, r.cfg.primary));
  }

  /** The name is that of a configured type for a post table that leaves room for the marker and has none
      of its own before it. */
  ghost predicate BuiltFor(name: string, configs: seq<(string, Config)>, postTable: string, e: Entry) {
    e in SuffixMap(configs) && |postTable| <= ROOM && MarkerFirst(postTable) && NameOf(postTable, e.suffix) == name
  }

  /** For any name at all: None is returned exactly when no post table and configured type give it. */
  lemma ParsesIff(name: string, configs: seq<(string, Config)>)
    ensures Parse(name, SuffixMap(configs)).Some? <==> exists postTable, e :: BuiltFor(name, configs, postTable, e)
  {
    hide SuffixMap, NameOf, MarkerFirst, Breaks.Find;
    var entries := SuffixMap(configs);
    if Parse(name, entries).Some? {
      var postTable := name[..Breaks.Find(name, MARKER, 0)];
      FirstMatchIsFirst(entries, postTable, name);
      var e := FirstMatch(entries, postTable, name).value;
      MarkerSurvives(postTable, e.suffix);
      assert BuiltFor(name, configs, postTable, e);
    }
    if postTable, e :| BuiltFor(name, configs, postTable, e) {
      MarkerFound(postTable, e.suffix);
      FirstMatchIsFirst(entries, postTable, name);
    }
  }

  // --------------------------------------------------------------- the round trip

  /** No marker starts before the end of the post table. */
  ghost predicate MarkerFirst(postTable: string) {
    Breaks.Find(postTable + MARKER, MARKER, 0) == |postTable|
  }

  lemma NameShape(postTable: string, suffix: string)
    requires |postTable| <= ROOM
    ensures NameOf(postTable, suffix) == postTable + MARKER + Clip(suffix, ROOM - |postTable|)
  {
  }

  lemma {:induction false} FindThrough(text: string, more: string, start: nat)
    requires Breaks.Find(text, MARKER, start) != -1
    ensures Breaks.Find(text + more, MARKER, start) == Breaks.Find(text, MARKER, start)
    decreases |text| - start
  {
    assert (text + more)[start..start + |MARKER|] == text[start..start + |MARKER|];
    if text[start..start + |MARKER|] != MARKER {
      FindThrough(text, more, start + 1);
    }
  }

  lemma MarkerFound(postTable: string, suffix: string)
    requires |postTable| <= ROOM && MarkerFirst(postTable)
    ensures Breaks.Find(NameOf(postTable, suffix), MARKER, 0) == |postTable|
    ensures NameOf(postTable, suffix)[..|postTable|] == postTable
  {
    NameShape(postTable, suffix);
    FindThrough(postTable + MARKER, Clip(suffix, ROOM - |postTable|), 0);
  }

  /** If the first marker of a name stands right behind its post table, the table is short
      enough for the marker to survive truncation and contains no earlier one. */
  lemma MarkerSurvives(postTable: string, suffix: string)
    requires Breaks.Find(NameOf(postTable, suffix), MARKER, 0) == |postTable|
    ensures |postTable| <= ROOM && MarkerFirst(postTable)
  {
    var name := NameOf(postTable, suffix);
    Breaks.FindIsFirst(name, MARKER, 0);
    assert |postTable| <= ROOM;
    NameShape(postTable, suffix);
    StemHasMarker(postTable);
    FindThrough(postTable + MARKER, Clip(suffix, ROOM - |postTable|), 0);
  }

  lemma StemHasMarker(postTable: string)
    ensures Breaks.Find(postTable + MARKER, MARKER, 0) != -1
  {
    hide Breaks.Find;
    var stem := postTable + MARKER;
    Breaks.FindIsFirst(stem, MARKER, 0);
    assert stem[|postTable|..|postTable| + |MARKER|] == MARKER;
    assert Breaks.OccursAt(stem, MARKER, |postTable|);
  }

  ghost predicate DistinctTypes(entries: seq<Entry>) {
    forall i, j :: 0 <= i < j < |entries| ==> entries[i].taskType != entries[j].taskType
  }

  /** What the suffix of a built name looks like after truncation. */
  function Tail(postTable: string, suffix: string): string {
    Clip(suffix, if |postTable| <= ROOM then ROOM - |postTable| else 0)
  }

  lemma SameNameSameTail(postTable: string, a: string, b: string)
    requires |postTable| <= ROOM
    ensures NameOf(postTable, a) == NameOf(postTable, b) <==> Tail(postTable, a) == Tail(postTable, b)
  {
    NameShape(postTable, a);
    NameShape(postTable, b);
    var stem := postTable + MARKER;
    assert NameOf(postTable, a)[|stem|..] == Tail(postTable, a);
    assert NameOf(postTable, b)[|stem|..] == Tail(postTable, b);
  }

  lemma {:induction false} FirstMatchAt(entries: seq<Entry>, postTable: string, suffix: string, i: nat)
    requires i < |entries| && DistinctTypes(entries) && |postTable| <= ROOM
    ensures var f := FirstMatch(entries, postTable, NameOf(postTable, suffix));
            f.Some? && f.value.taskType == entries[i].taskType && f.value.cfg == entries[i].cfg
            <==>
            && Tail(postTable, entries[i].suffix) == Tail(postTable, suffix)
            && forall j :: 0 <= j < i ==> Tail(postTable, entries[j].suffix) != Tail(postTable, suffix)
  {
    hide NameOf, Tail;
    var name := NameOf(postTable, suffix);
    SameNameSameTail(postTable, entries[0].suffix, suffix);
    var f := FirstMatch(entries, postTable, name);
    if Tail(postTable, entries[0].suffix) == Tail(postTable, suffix) {
      assert f == Some(entries[0]);
    } else if i == 0 {
      FirstMatchIsFirst(entries[1..], postTable, name);
    } else {
      FirstMatchAt(entries[1..], postTable, suffix, i - 1);
      assert forall j :: 0 < j < i ==> entries[j] == entries[1..][j - 1];
      assert forall j :: 0 <= j < i - 1 ==> entries[1..][j] == entries[j + 1];
    }
  }

  /** A built name parses back to what it was built from exactly when the marker survives
      truncation, comes first, and enough of the suffix survives to differ from those before it. */
  lemma RoundTripIff(postTable: string, entries: seq<Entry>, i: nat)
    requires i < |entries| && DistinctTypes(entries)
    ensures var e := entries[i];
            var built := SuffixOf(Lower(e.taskType), e.cfg.primary);
            Parse(Build(postTable, e.taskType, e.cfg.primary), entries) == Some(Parsed(postTable, e.taskType, e.cfg))
            <==>
            && |postTable| <= ROOM && MarkerFirst(postTable)
            && Tail(postTable, e.suffix) == Tail(postTable, built)
            && forall j :: 0 <= j < i ==> Tail(postTable, entries[j].suffix) != Tail(postTable, built)
  {
    var e := entries[i];
    var built := SuffixOf(Lower(e.taskType), e.cfg.primary);
    var name := NameOf(postTable, built);
    if |postTable| <= ROOM && MarkerFirst(postTable) {
      MarkerFound(postTable, built);
      FirstMatchAt(entries, postTable, built, i);
    } else if Breaks.Find(name, MARKER, 0) == |postTable| {
      MarkerSurvives(postTable, built);
      assert false;
    }
  }

  // ---------------------------------------------------- the four types in use today

  const CURRENT: seq<(string, Config)> := [
    ("body", Config("BAAI/bge-base-en-v1.5", "gpu.embed.bge-base-en-v1.5")),
    ("title", Config("BAAI/bge-small-en-v1.5", "gpu.embed.bge-small-en-v1.5")),
    ("summary_title", Config("Qwen/Qwen3-Embedding-4B", "gpu.embed.qwen3-4b")),
    ("analysis", Config("Qwen/Qwen3-Embedding-0.6B", "gpu.embed.qwen3-0.6b"))
  ]

  function EntryOf(config: (string, Config)): Entry {
    Entry(SuffixOf(config.0, config.1.primary), config.0, config.1)
  }

  ghost predicate Lowered(s: string) {
    forall i :: 0 <= i < |s| ==> LowerChar(s[i]) == s[i]
  }

  lemma LoweredIsLower(s: string)
    requires Lowered(s)
    ensures Lower(s) == s
  {
  }

  lemma {:induction false} PutNew(entries: seq<Entry>, e: Entry)
    requires forall x :: x in entries ==> x.suffix != e.suffix
    ensures Put(entries, e) == entries + [e]
  {
    if entries != [] {
      assert entries[0] in entries;
      assert forall x :: x in entries[1..] ==> x in entries;
      PutNew(entries[1..], e);
      assert Put(entries, e) == [entries[0]] + (entries[1..] + [e]);
    }
  }

  ghost predicate DistinctInitials(configs: seq<(string, Config)>) {
    && (forall i :: 0 <= i < |configs| ==> configs[i].0 != "" && Lowered(configs[i].0))
    && (forall i, j :: 0 <= i < j < |configs| ==> configs[i].0[0] != configs[j].0[0])
  }

  lemma OtherInitialOtherSuffix(a: (string, Config), b: (string, Config))
    requires a.0 != "" && b.0 != "" && a.0[0] != b.0[0]
    ensures EntryOf(a).suffix != EntryOf(b).suffix && a.0 != b.0
  {
    assert EntryOf(a).suffix[0] == a.0[0] && EntryOf(b).suffix[0] == b.0[0];
  }

  lemma {:induction false} InitialsKeepAll(configs: seq<(string, Config)>)
    requires DistinctInitials(configs)
    ensures |SuffixMap(configs)| == |configs|
    ensures forall i :: 0 <= i < |configs| ==> SuffixMap(configs)[i] == EntryOf(configs[i])
  {
    if configs != [] {
      hide Put, SuffixOf, Lowered;
      var front, last := configs[..|configs| - 1], configs[|configs| - 1];
      InitialsKeepAll(front);
      var entries := SuffixMap(front);
      forall x | x in entries ensures x.suffix != EntryOf(last).suffix {
        var i :| 0 <= i < |entries| && entries[i] == x;
        OtherInitialOtherSuffix(configs[i], last);
      }
      PutNew(entries, EntryOf(last));
    }
  }

  lemma InitialsDiffer(configs: seq<(string, Config)>)
    requires DistinctInitials(configs)
    ensures DistinctTypes(SuffixMap(configs))
  {
    hide SuffixMap, Lowered, SuffixOf;
    InitialsKeepAll(configs);
    var entries := SuffixMap(configs);
    forall j, k | 0 <= j < k < |entries| ensures entries[j].taskType != entries[k].taskType {
      OtherInitialOtherSuffix(configs[j], configs[k]);
    }
  }

  /** One surviving character keeps the initial. */
  lemma TailKeepsInitial(postTable: string, config: (string, Config))
    requires |postTable| < ROOM && config.0 != ""
    ensures Tail(postTable, EntryOf(config).suffix) != ""
    ensures Tail(postTable, EntryOf(config).suffix)[0] == config.0[0]
  {
    hide Sanitize;
  }

  lemma NothingSurvives(postTable: string, suffix: string)
    requires |postTable| == ROOM
    ensures Tail(postTable, suffix) == ""
  {
  }

  lemma TailsDiffer(postTable: string, configs: seq<(string, Config)>, j: nat, i: nat)
    requires DistinctInitials(configs) && j < i < |configs| && |postTable| < ROOM
    ensures Tail(postTable, EntryOf(configs[j]).suffix) != Tail(postTable, EntryOf(configs[i]).suffix)
  {
    hide Tail, EntryOf, Lowered;
    TailKeepsInitial(postTable, configs[j]);
    TailKeepsInitial(postTable, configs[i]);
  }

  /** Which tails come before that of type i: none equals it with a character to spare, all do without. */
  lemma EarlierTails(postTable: string, configs: seq<(string, Config)>, i: nat)
    requires DistinctInitials(configs) && i < |configs| && |postTable| <= ROOM
    ensures (forall j :: 0 <= j < i ==>
               Tail(postTable, EntryOf(configs[j]).suffix) != Tail(postTable, EntryOf(configs[i]).suffix))
            <==> i == 0 || |postTable| < ROOM
  {
    hide Tail, EntryOf, Lowered;
    if |postTable| < ROOM {
      forall j | 0 <= j < i
        ensures Tail(postTable, EntryOf(configs[j]).suffix) != Tail(postTable, EntryOf(configs[i]).suffix)
      {
        TailsDiffer(postTable, configs, j, i);
      }
    } else if i > 0 {
      NothingSurvives(postTable, EntryOf(configs[0]).suffix);
      NothingSurvives(postTable, EntryOf(configs[i]).suffix);
    }
  }

  /** With types that differ in their first letter one surviving suffix character is enough, and
      without one only the first type is read back. */
  lemma {:induction false} InitialsRoundTrip(postTable: string, configs: seq<(string, Config)>, i: nat)
    requires DistinctInitials(configs) && i < |configs|
    ensures Parse(Build(postTable, configs[i].0, configs[i].1.primary), SuffixMap(configs))
              == Some(Parsed(postTable, configs[i].0, configs[i].1))
            <==> MarkerFirst(postTable) && |postTable| <= if i == 0 then ROOM else ROOM - 1
  {
    hide SuffixMap, Tail, Parse, Build, MarkerFirst, SuffixOf;
    InitialsKeepAll(configs);
    InitialsDiffer(configs);
    LoweredIsLower(configs[i].0);
    RoundTripIff(postTable, SuffixMap(configs), i);
    if |postTable| <= ROOM {
      EarlierTails(postTable, configs, i);
    }
  }

  lemma CurrentInitials()
    ensures DistinctInitials(CURRENT)
    ensures forall i :: 0 <= i < |CURRENT| ==> (CURRENT[i].0 == "body" <==> i == 0)
  {
    var types := ["body", "title", "summary_title", "analysis"];
    assert |CURRENT| == 4;
    assert forall k :: 0 <= k < 4 ==> CURRENT[k].0 == types[k];
    assert forall k :: 0 <= k < 4 ==> Lowered(types[k]);
    assert types[0][0] == 'b' && types[1][0] == 't' && types[2][0] == 's' && types[3][0] == 'a';
  }

  /** Today's names: every post table of up to 54 characters round-trips for all four types, at
      55 only "body" does, and above that none. */
  lemma CurrentRoundTrip(postTable: string, i: nat)
    requires i < |CURRENT|
    ensures Parse(Build(postTable, CURRENT[i].0, CURRENT[i].1.primary), SuffixMap(CURRENT))
              == Some(Parsed(postTable, CURRENT[i].0, CURRENT[i].1))
            <==> MarkerFirst(postTable) && |postTable| <= if CURRENT[i].0 == "body" then 55 else 54
  {
    hide SuffixMap, Parse, Build, MarkerFirst;
    CurrentInitials();
    InitialsRoundTrip(postTable, CURRENT, i);
  }

  /** At 55 characters all types share one table. */
  lemma FullNamesCollide(postTable: string, taskType: string, model: string)
    requires |postTable| == ROOM
    ensures Build(postTable, taskType, model) == postTable + MARKER
  {
    NameShape(postTable, SuffixOf(Lower(taskType), model));
  }
}
