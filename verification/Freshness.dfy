/** Upserts of posts and folders by `updated_at`: a check, then a write guarded by the same test. */
module Freshness {

  import opened Basics

  /** `columns` are those of the SET clause; `kept` are the columns an update leaves alone
      (`added_at` and `embedded_at` of a post, none of a folder). */
  datatype Row<C, K> = Row(columns: C, updatedAt: int, kept: K)

  datatype Status = Inserted | Updated | Skipped

  type Table<C, K> = map<int, Row<C, K>>

  function UpdatedAt<C, K>(table: Table<C, K>, id: int): Option<int> {
    if id in table then Some(table[id].updatedAt) else None
  }

  predicate Refuses(prior: Option<int>, incoming: int) {
    prior.Some? && prior.value >= incoming
  }

  /** The guarded statement: insert, or update the SET columns of a strictly older row. */
  function GuardedWrite<C, K>(table: Table<C, K>, id: int, row: Row<C, K>): Table<C, K> {
    if id !in table then table[id := row]
    else if table[id].updatedAt < row.updatedAt then table[id := row.(kept := table[id].kept)]
    else table
  }

  class Repository<C, K> {
    var rows: Table<C, K>

    constructor ()
      ensures rows == map[]
    {
      rows := map[];
    }

    /** With no other writer in between, the status tells exactly what was stored. */
    method Upsert(id: int, row: Row<C, K>) returns (status: Status, prior: Option<int>)
      modifies this
      ensures prior == UpdatedAt(old(rows), id)
      ensures status == Inserted <==> id !in old(rows)
      ensures status == Updated <==> id in old(rows) && old(rows)[id].updatedAt < row.updatedAt
      ensures status == Inserted ==> rows == old(rows)[id := row]
      ensures status == Updated ==> rows == old(rows)[id := row.(kept := old(rows)[id].kept)]
      ensures status == Skipped ==> rows == old(rows)
    {
      prior := UpdatedAt(rows, id);
      if Refuses(prior, row.updatedAt) {
        return Skipped, prior;
      }
      rows := GuardedWrite(rows, id, row);
      status := if prior.None? then Inserted else Updated;
    }
  }

  // ---------------------------------------------------- interleaved checks and writes

  datatype Phase = Waiting | Checked(prior: Option<int>) | Done(status: Status, wrote: bool)

  datatype Upsert<C, K> = Upsert(id: int, row: Row<C, K>, phase: Phase)

  datatype State<C, K> = State(table: Table<C, K>, upserts: seq<Upsert<C, K>>)

  /** `Touch` is any write to the kept columns alone, such as recording `embedded_at`. */
  datatype Step<K> = Check(n: nat) | Write(n: nat) | Touch(id: int, kept: K)

  predicate Enabled<C, K>(s: State<C, K>, step: Step<K>) {
    match step
    case Check(n) => n < |s.upserts| && s.upserts[n].phase.Waiting?
    case Write(n) => n < |s.upserts| && s.upserts[n].phase.Checked?
    case Touch(id, _) => id in s.table
  }

  function SetPhase<C, K>(s: State<C, K>, n: nat, phase: Phase): State<C, K>
    requires n < |s.upserts|
  {
    s.(upserts := s.upserts[n := s.upserts[n].(phase := phase)])
  }

  function Next<C, K>(s: State<C, K>, step: Step<K>): State<C, K>
    requires Enabled(s, step)
  {
    match step
    case Check(n) =>
      var u := s.upserts[n];
      var prior := UpdatedAt(s.table, u.id);
      SetPhase(s, n, if Refuses(prior, u.row.updatedAt) then Done(Skipped, false) else Checked(prior))
    case Write(n) =>
      var u := s.upserts[n];
      SetPhase(s.(table := GuardedWrite(s.table, u.id, u.row)), n,
               Done(if u.phase.prior.None? then Inserted else Updated,
                    !Refuses(UpdatedAt(s.table, u.id), u.row.updatedAt)))
    case Touch(id, kept) => s.(table := s.table[id := s.table[id].(kept := kept)])
  }

  /** A write that is on record as having happened has stored the row, with the kept columns of the row before;
      one that is not has left the table alone. */
  lemma WroteIsTrue<C, K>(s: State<C, K>, n: nat)
    requires Enabled(s, Write(n))
    ensures var t := Next(s, Write(n));
            var u := s.upserts[n];
            && t.upserts[n].phase.Done?
            && (t.upserts[n].phase.wrote ==>
                  t.table == s.table[u.id := if u.id in s.table then u.row.(kept := s.table[u.id].kept) else u.row])
            && (!t.upserts[n].phase.wrote ==> t.table == s.table)
  {}

  ghost predicate Legal<C, K>(s: State<C, K>, steps: seq<Step<K>>)
    decreases |steps|
  {
    steps == [] || (Enabled(s, steps[0]) && Legal(Next(s, steps[0]), steps[1..]))
  }

  ghost function After<C, K>(s: State<C, K>, steps: seq<Step<K>>): State<C, K>
    requires Legal(s, steps)
    decreases |steps|
  {
    if steps == [] then s else After(Next(s, steps[0]), steps[1..])
  }

  predicate AllWaiting<C, K>(s: State<C, K>) {
    forall n :: 0 <= n < |s.upserts| ==> s.upserts[n].phase.Waiting?
  }

  predicate AllDone<C, K>(s: State<C, K>) {
    forall n :: 0 <= n < |s.upserts| ==> s.upserts[n].phase.Done?
  }

  /** Every row present before is still there and is no older. */
  ghost predicate NoOlder<C, K>(before: Table<C, K>, now: Table<C, K>) {
    forall id :: id in before ==> id in now && before[id].updatedAt <= now[id].updatedAt
  }

  /** The versions competing for a row: the one stored at the start and the incoming ones. */
  ghost predicate Competes<C, K>(start: State<C, K>, id: int, columns: C, updatedAt: int) {
    || (id in start.table && start.table[id].columns == columns && start.table[id].updatedAt == updatedAt)
    || (exists n :: 0 <= n < |start.upserts| && Offers(start.upserts[n], id, columns, updatedAt))
  }

  predicate Offers<C(==), K>(u: Upsert<C, K>, id: int, columns: C, updatedAt: int) {
    u.id == id && u.row.columns == columns && u.row.updatedAt == updatedAt
  }

  ghost predicate SameUpserts<C, K>(start: State<C, K>, s: State<C, K>) {
    && |start.upserts| == |s.upserts|
    && forall n :: 0 <= n < |s.upserts| ==>
         start.upserts[n].id == s.upserts[n].id && start.upserts[n].row == s.upserts[n].row
  }

  /** A finished upsert has been beaten or stored; one that reports "skipped" wrote nothing. */
  ghost predicate Settled<C, K>(table: Table<C, K>, u: Upsert<C, K>) {
    u.phase.Done? ==>
      && u.id in table && u.row.updatedAt <= table[u.id].updatedAt
      && (u.phase.status == Skipped ==> !u.phase.wrote)
  }

  ghost predicate Inv<C, K>(start: State<C, K>, s: State<C, K>) {
    && SameUpserts(start, s)
    && NoOlder(start.table, s.table)
    && (forall n :: 0 <= n < |s.upserts| ==> Settled(s.table, s.upserts[n]))
    && (forall id :: id in s.table ==> Competes(start, id, s.table[id].columns, s.table[id].updatedAt))
  }

  lemma StepNoOlder<C, K>(s: State<C, K>, step: Step<K>)
    requires Enabled(s, step)
    ensures NoOlder(s.table, Next(s, step).table)
  {
  }

  lemma StepSettles<C, K>(s: State<C, K>, step: Step<K>, n: nat)
    requires Enabled(s, step) && n < |s.upserts| && Settled(s.table, s.upserts[n])
    ensures Settled(Next(s, step).table, Next(s, step).upserts[n])
  {
    StepNoOlder(s, step);
  }

  lemma StepCompetes<C, K>(start: State<C, K>, s: State<C, K>, step: Step<K>, id: int)
    requires Inv(start, s) && Enabled(s, step) && id in Next(s, step).table
    ensures Competes(start, id, Next(s, step).table[id].columns, Next(s, step).table[id].updatedAt)
  {
    var t := Next(s, step);
    if step.Write? && s.upserts[step.n].id == id && t.table != s.table {
      var row := s.upserts[step.n].row;
      assert Offers(start.upserts[step.n], id, row.columns, row.updatedAt);
    }
  }

  lemma StepKeepsInv<C, K>(start: State<C, K>, s: State<C, K>, step: Step<K>)
    requires Inv(start, s) && Enabled(s, step)
    ensures Inv(start, Next(s, step))
  {
    hide Competes, Settled;
    var t := Next(s, step);
    StepNoOlder(s, step);
    forall n | 0 <= n < |t.upserts| ensures Settled(t.table, t.upserts[n]) {
      StepSettles(s, step, n);
    }
    forall id | id in t.table ensures Competes(start, id, t.table[id].columns, t.table[id].updatedAt) {
      StepCompetes(start, s, step, id);
    }
  }

  lemma {:induction false} RunKeepsInv<C, K>(start: State<C, K>, s: State<C, K>, steps: seq<Step<K>>)
    requires Inv(start, s) && Legal(s, steps)
    ensures Inv(start, After(s, steps))
    decreases |steps|
  {
    if steps != [] {
      hide Inv, Next, Enabled;
      StepKeepsInv(start, s, steps[0]);
      RunKeepsInv(start, Next(s, steps[0]), steps[1..]);
    }
  }

  /** Along any stretch of any run no row disappears and no stored `updated_at` goes back. */
  lemma {:induction false} StoredTimeNeverFalls<C, K>(s: State<C, K>, steps: seq<Step<K>>)
    requires Legal(s, steps)
    ensures NoOlder(s.table, After(s, steps).table)
    decreases |steps|
  {
    if steps != [] {
      hide Next, Enabled;
      StepNoOlder(s, steps[0]);
      StoredTimeNeverFalls(Next(s, steps[0]), steps[1..]);
    }
  }

  /** Last writer wins: however checks and writes interleave, once all upserts have finished
      each row is one of its competing versions and no competing version is newer. */
  lemma GreatestVersionWins<C, K>(start: State<C, K>, steps: seq<Step<K>>, id: int, columns: C, updatedAt: int)
    requires AllWaiting(start) && Legal(start, steps) && AllDone(After(start, steps))
    requires Competes(start, id, columns, updatedAt)
    ensures var end := After(start, steps).table;
            && id in end && updatedAt <= end[id].updatedAt
            && Competes(start, id, end[id].columns, end[id].updatedAt)
  {
    StartIsInv(start);
    RunKeepsInv(start, start, steps);
    var end := After(start, steps);
    if !(id in start.table && start.table[id].columns == columns && start.table[id].updatedAt == updatedAt) {
      var n :| 0 <= n < |start.upserts| && Offers(start.upserts[n], id, columns, updatedAt);
      assert Settled(end.table, end.upserts[n]);
    }
  }

  lemma StartIsInv<C, K>(start: State<C, K>)
    requires AllWaiting(start)
    ensures Inv(start, start)
  {
    forall id | id in start.table
      ensures Competes(start, id, start.table[id].columns, start.table[id].updatedAt)
    {
    }
  }

  /** No competing version of the row is newer. */
  ghost predicate Newest<C(!new), K>(start: State<C, K>, id: int, at: int) {
    forall columns: C, updatedAt :: Competes(start, id, columns, updatedAt) ==> updatedAt <= at
  }

  /** No two different versions of a row share its greatest `updated_at`; older ones may tie. */
  ghost predicate NoTies<C(!new), K>(start: State<C, K>) {
    forall id, a: C, b: C, at ::
      Competes(start, id, a, at) && Competes(start, id, b, at) && Newest(start, id, at) ==> a == b
  }

  /** The outcome is the same for every arrival order: two complete runs from one start
      agree on every SET column of every row. */
  lemma OrderDoesNotMatter<C(!new), K>(start: State<C, K>, one: seq<Step<K>>, two: seq<Step<K>>, id: int)
    requires AllWaiting(start) && NoTies(start)
    requires Legal(start, one) && AllDone(After(start, one))
    requires Legal(start, two) && AllDone(After(start, two))
    ensures var a := After(start, one).table;
            var b := After(start, two).table;
            && (id in a <==> id in b)
            && (id in a ==> a[id].columns == b[id].columns && a[id].updatedAt == b[id].updatedAt)
  {
    hide Legal, After, Competes, Newest;
    StartIsInv(start);
    RunKeepsInv(start, start, one);
    RunKeepsInv(start, start, two);
    var a := After(start, one).table;
    var b := After(start, two).table;
    if id in a {
      GreatestVersionWins(start, two, id, a[id].columns, a[id].updatedAt);
    }
    if id in b {
      GreatestVersionWins(start, one, id, b[id].columns, b[id].updatedAt);
      EndIsNewest(start, one, id);
    }
  }

  lemma EndIsNewest<C(!new), K>(start: State<C, K>, steps: seq<Step<K>>, id: int)
    requires AllWaiting(start) && Legal(start, steps) && AllDone(After(start, steps)) && id in After(start, steps).table
    ensures Newest(start, id, After(start, steps).table[id].updatedAt)
  {
    hide Competes;
    forall columns: C, updatedAt | Competes(start, id, columns, updatedAt)
      ensures updatedAt <= After(start, steps).table[id].updatedAt
    {
      GreatestVersionWins(start, steps, id, columns, updatedAt);
    }
  }

  /** "skipped" is reported only when the stored version is, and stays, at least as new. */
  lemma SkippedMeansBeaten<C, K>(start: State<C, K>, steps: seq<Step<K>>, n: nat)
    requires AllWaiting(start) && Legal(start, steps) && n < |After(start, steps).upserts|
    requires var u := After(start, steps).upserts[n]; u.phase.Done? && u.phase.status == Skipped
    ensures var end := After(start, steps);
            var u := end.upserts[n];
            u.id in end.table && end.table[u.id].updatedAt >= u.row.updatedAt && !u.phase.wrote
  {
    StartIsInv(start);
    RunKeepsInv(start, start, steps);
  }

  /** Upserts never change the kept columns of a row that exists. */
  lemma {:induction false} KeptColumnsStay<C, K>(s: State<C, K>, steps: seq<Step<K>>, id: int)
    requires Legal(s, steps) && id in s.table
    requires forall i :: 0 <= i < |steps| && steps[i].Touch? ==> steps[i].id != id
    ensures id in After(s, steps).table && After(s, steps).table[id].kept == s.table[id].kept
    decreases |steps|
  {
    if steps != [] {
      var t := Next(s, steps[0]);
      assert id in t.table && t.table[id].kept == s.table[id].kept;
      KeptColumnsStay(t, steps[1..], id);
    }
  }

  // ----------------------------------------------------- when a reported write took place

  /** The state before step i, and the end for i == |steps|. */
  ghost function At<C, K>(s: State<C, K>, steps: seq<Step<K>>, i: nat): State<C, K>
    requires Legal(s, steps) && i <= |steps|
    decreases |steps|
  {
    if i == 0 then s else At(Next(s, steps[0]), steps[1..], i - 1)
  }

  lemma {:induction false} AtNext<C, K>(s: State<C, K>, steps: seq<Step<K>>, i: nat)
    requires Legal(s, steps) && i < |steps|
    ensures Enabled(At(s, steps, i), steps[i]) && At(s, steps, i + 1) == Next(At(s, steps, i), steps[i])
    decreases |steps|
  {
    hide Next, Enabled;
    if i > 0 {
      AtNext(Next(s, steps[0]), steps[1..], i - 1);
    } else {
      assert At(Next(s, steps[0]), steps[1..], 0) == Next(s, steps[0]);
    }
  }

  lemma {:induction false} AtEnd<C, K>(s: State<C, K>, steps: seq<Step<K>>)
    requires Legal(s, steps)
    ensures At(s, steps, |steps|) == After(s, steps)
    decreases |steps|
  {
    if steps != [] {
      hide Next, Enabled;
      AtEnd(Next(s, steps[0]), steps[1..]);
    }
  }

  lemma {:induction false} AtKeepsUpserts<C, K>(s: State<C, K>, steps: seq<Step<K>>, i: nat)
    requires Legal(s, steps) && i <= |steps|
    ensures SameUpserts(s, At(s, steps, i))
    decreases i
  {
    if i > 0 {
      AtKeepsUpserts(s, steps, i - 1);
      AtNext(s, steps, i - 1);
    } else {
      assert At(s, steps, 0) == s;
    }
  }

  lemma {:induction false} DoneStays<C, K>(s: State<C, K>, steps: seq<Step<K>>, n: nat, i: nat, j: nat)
    requires Legal(s, steps) && i <= j <= |steps| && n < |At(s, steps, i).upserts| && At(s, steps, i).upserts[n].phase.Done?
    ensures n < |At(s, steps, j).upserts| && At(s, steps, j).upserts[n].phase == At(s, steps, i).upserts[n].phase
    decreases j
  {
    if i < j {
      DoneStays(s, steps, n, i, j - 1);
      AtNext(s, steps, j - 1);
    }
  }

  /** The step writes a version of upsert n's row that is at least as new as n's own. */
  predicate Beats<C, K>(upserts: seq<Upsert<C, K>>, step: Step<K>, n: nat)
    requires n < |upserts|
  {
    && step.Write? && step.n < |upserts| && upserts[step.n].id == upserts[n].id
    && upserts[step.n].row.updatedAt >= upserts[n].row.updatedAt
  }

  lemma StepRefuses<C, K>(start: State<C, K>, s: State<C, K>, step: Step<K>, n: nat)
    requires SameUpserts(start, s) && Enabled(s, step) && n < |start.upserts|
    ensures var u := start.upserts[n];
            Refuses(UpdatedAt(Next(s, step).table, u.id), u.row.updatedAt)
            <==> Refuses(UpdatedAt(s.table, u.id), u.row.updatedAt) || Beats(start.upserts, step, n)
  {
  }

  /** From a point at which n would still be stored, it is refused later exactly if beaten in between. */
  lemma {:induction false} RefusedIffBeaten<C, K>(s: State<C, K>, steps: seq<Step<K>>, n: nat, i: nat, j: nat)
    requires Legal(s, steps) && i <= j <= |steps| && n < |s.upserts|
    requires !Refuses(UpdatedAt(At(s, steps, i).table, s.upserts[n].id), s.upserts[n].row.updatedAt)
    ensures Refuses(UpdatedAt(At(s, steps, j).table, s.upserts[n].id), s.upserts[n].row.updatedAt)
            <==> exists m :: i <= m < j && Beats(s.upserts, steps[m], n)
    decreases j
  {
    if i < j {
      hide Refuses, Beats;
      RefusedIffBeaten(s, steps, n, i, j - 1);
      AtNext(s, steps, j - 1);
      AtKeepsUpserts(s, steps, j - 1);
      StepRefuses(s, At(s, steps, j - 1), steps[j - 1], n);
      assert (exists m :: i <= m < j && Beats(s.upserts, steps[m], n))
        <==> (exists m :: i <= m < j - 1 && Beats(s.upserts, steps[m], n)) || Beats(s.upserts, steps[j - 1], n);
    }
  }

  /** Over every run: an upsert that got past its check reports "inserted" or "updated"; nothing was
      stored if and only if a version of the row at least as new was written between its check and its
      write. */
  lemma StoredNothingIff<C, K>(s: State<C, K>, steps: seq<Step<K>>, n: nat, c: nat, w: nat)
    requires Legal(s, steps) && c < w < |steps| && n < |s.upserts|
    requires steps[c] == Check(n) && steps[w] == Write(n)
    ensures n < |After(s, steps).upserts| && After(s, steps).upserts[n].phase.Done?
    ensures var phase := After(s, steps).upserts[n].phase;
            && phase.status != Skipped
            && (!phase.wrote <==> exists m :: c < m < w && Beats(s.upserts, steps[m], n))
    ensures After(s, steps).upserts[n].phase.wrote ==>
              var table := At(s, steps, w + 1).table;
              var u := s.upserts[n];
              u.id in table && table[u.id].columns == u.row.columns && table[u.id].updatedAt == u.row.updatedAt
  {
    hide Legal, After, At, Beats, SameUpserts, Refuses;
    AtNext(s, steps, c);
    AtNext(s, steps, w);
    AtKeepsUpserts(s, steps, c);
    AtKeepsUpserts(s, steps, w);
    AtEnd(s, steps);
    CheckPassed(s, steps, n, c, w);
    RefusedIffBeaten(s, steps, n, c + 1, w);
    WriteSettles(s, At(s, steps, w), n);
    DoneStays(s, steps, n, w + 1, |steps|);
  }

  /** A check followed by the upsert's own write did not refuse. */
  lemma CheckPassed<C, K>(s: State<C, K>, steps: seq<Step<K>>, n: nat, c: nat, w: nat)
    requires Legal(s, steps) && c < w < |steps| && n < |s.upserts| && steps[c] == Check(n) && steps[w] == Write(n)
    ensures !Refuses(UpdatedAt(At(s, steps, c + 1).table, s.upserts[n].id), s.upserts[n].row.updatedAt)
  {
    AtNext(s, steps, c);
    AtNext(s, steps, w);
    AtKeepsUpserts(s, steps, c);
    hide Legal, At;
    if At(s, steps, c + 1).upserts[n].phase.Done? {
      DoneStays(s, steps, n, c + 1, w);
      assert false;
    }
  }

  lemma WriteSettles<C, K>(start: State<C, K>, s: State<C, K>, n: nat)
    requires SameUpserts(start, s) && n < |s.upserts| && s.upserts[n].phase.Checked?
    ensures var u := start.upserts[n];
            var t := Next(s, Write(n));
            && t.upserts[n].phase.Done? && t.upserts[n].phase.status != Skipped
            && (t.upserts[n].phase.wrote <==> !Refuses(UpdatedAt(s.table, u.id), u.row.updatedAt))
            && (t.upserts[n].phase.wrote ==>
                  u.id in t.table && t.table[u.id].columns == u.row.columns && t.table[u.id].updatedAt == u.row.updatedAt)
  {
  }

  /** With no other write to the row between check and write, the status is true. */
  lemma AloneStatusIsTrue<C, K>(s: State<C, K>, steps: seq<Step<K>>, n: nat, c: nat, w: nat)
    requires Legal(s, steps) && c < w < |steps| && n < |s.upserts|
    requires steps[c] == Check(n) && steps[w] == Write(n)
    requires forall m :: c < m < w && steps[m].Write? && steps[m].n < |s.upserts| ==>
               s.upserts[steps[m].n].id != s.upserts[n].id
    ensures n < |After(s, steps).upserts| && After(s, steps).upserts[n].phase.Done? && After(s, steps).upserts[n].phase.wrote
  {
    hide Legal, After, At;
    StoredNothingIff(s, steps, n, c, w);
  }

  /** Two upserts that both saw an empty table both report "inserted", though only the newer
      one's columns are stored. */
  lemma InsertedMayStoreNothing<C, K>(older: Row<C, K>, newer: Row<C, K>)
    requires older.updatedAt < newer.updatedAt
    ensures var start := State(map[], [Upsert(1, older, Waiting), Upsert(1, newer, Waiting)]);
            var steps := [Check(0), Check(1), Write(1), Write(0)];
            && Legal<C, K>(start, steps)
            && After<C, K>(start, steps).upserts[0].phase == Done(Inserted, false)
            && After<C, K>(start, steps).table[1] == newer
  {
    var start: State<C, K> := State(map[], [Upsert(1, older, Waiting), Upsert(1, newer, Waiting)]);
    var steps: seq<Step<K>> := [Check(0), Check(1), Write(1), Write(0)];
    var s1 := Next(start, Check(0));
    var s2 := Next(s1, Check(1));
    var s3 := Next(s2, Write(1));
    var s4 := Next(s3, Write(0));
    assert Legal(s3, steps[3..]) && After(s3, steps[3..]) == s4;
    assert Legal(s2, steps[2..]) && After(s2, steps[2..]) == s4;
    assert Legal(s1, steps[1..]) && After(s1, steps[1..]) == s4;
  }
}
