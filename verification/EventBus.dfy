/** The Postgres event bus: an append-only log read by polling consumers that commit their
    offset before each yield. */
module EventBus {

  /** An inserted row has its id at once and can be selected only when its transaction commits. */
  datatype Row = Row(topic: string, payload: string, visible: bool)

  datatype Key = Key(group: string, topic: string)

  const BATCH_SIZE: nat := 100

  /** Identity columns count from 1: id i is the row at index i - 1. */
  predicate Has(log: seq<Row>, topic: string, id: int) {
    0 < id <= |log| && log[id - 1].topic == topic && log[id - 1].visible
  }

  predicate Increasing(ids: seq<int>) {
    forall i, j :: 0 <= i < j < |ids| ==> ids[i] < ids[j]
  }

  /** What the polling query promises: rows of the topic above an id, in id order, up to a
      limit, and none left out below the last one returned. */
  ghost predicate IsNextBatch(log: seq<Row>, topic: string, after: int, limit: nat, ids: seq<int>) {
    && |ids| <= limit && Increasing(ids)
    && (forall id :: id in ids ==> after < id && Has(log, topic, id))
    && (forall id :: Has(log, topic, id) && after < id && (|ids| < limit || (ids != [] && id <= ids[|ids| - 1])) ==>
          id in ids)
  }

  lemma BatchCons(log: seq<Row>, topic: string, after: int, limit: nat, rest: seq<int>)
    requires limit > 0 && Has(log, topic, after + 1) && IsNextBatch(log, topic, after + 1, limit - 1, rest)
    ensures IsNextBatch(log, topic, after, limit, [after + 1] + rest)
  {
    hide Has;
    var ids := [after + 1] + rest;
    assert forall i :: 0 <= i < |rest| ==> rest[i] in rest;
    assert rest != [] ==> ids[|rest|] == rest[|rest| - 1];
  }

  lemma BatchSkip(log: seq<Row>, topic: string, after: int, limit: nat, ids: seq<int>)
    requires !Has(log, topic, after + 1) && IsNextBatch(log, topic, after + 1, limit, ids)
    ensures IsNextBatch(log, topic, after, limit, ids)
  {
    hide Has;
  }

  function Select(log: seq<Row>, topic: string, after: int, limit: nat): (r: seq<int>)
    ensures IsNextBatch(log, topic, after, limit, r)
    decreases |log| - after
  {
    if after >= |log| || limit == 0 then []
    else if Has(log, topic, after + 1) then
      var rest := Select(log, topic, after + 1, limit - 1);
      BatchCons(log, topic, after, limit, rest);
      [after + 1] + rest
    else
      var rest := Select(log, topic, after + 1, limit);
      BatchSkip(log, topic, after, limit, rest);
      rest
  }

  /** Resuming from the id of any event of a batch reads on exactly where that batch stood. */
  lemma {:induction false} ResumeReadsOn(log: seq<Row>, topic: string, after: int, limit: nat, n: nat)
    requires 0 < n <= |Select(log, topic, after, limit)|
    ensures Select(log, topic, Select(log, topic, after, limit)[n - 1], limit - n)
         == Select(log, topic, after, limit)[n..]
    decreases |log| - after
  {
    if Has(log, topic, after + 1) {
      if n > 1 {
        ResumeReadsOn(log, topic, after + 1, limit - 1, n - 1);
      }
    } else {
      ResumeReadsOn(log, topic, after + 1, limit, n);
    }
  }

  function PayloadOf(log: seq<Row>, id: int): string {
    if 0 < id <= |log| then log[id - 1].payload else ""
  }

  function Payloads(log: seq<Row>, ids: seq<int>): (p: seq<string>)
    ensures |p| == |ids| && forall i :: 0 <= i < |p| ==> p[i] == PayloadOf(log, ids[i])
  {
    seq(|ids|, i requires 0 <= i < |ids| => PayloadOf(log, ids[i]))
  }

  lemma PayloadsAre(log: seq<Row>, topic: string, after: int, ids: seq<int>)
    requires IsNextBatch(log, topic, after, BATCH_SIZE, ids)
    ensures forall i :: 0 <= i < |ids| ==> 0 < ids[i] <= |log| && PayloadOf(log, ids[i]) == log[ids[i] - 1].payload
  {
    forall i | 0 <= i < |ids| ensures 0 < ids[i] <= |log| && PayloadOf(log, ids[i]) == log[ids[i] - 1].payload {
      assert ids[i] in ids;
      assert Has(log, topic, ids[i]);
    }
  }

  function OffsetIn(offsets: map<Key, int>, k: Key): int {
    if k in offsets then offsets[k] else 0
  }

  class PostgresEventBus {
    var log: seq<Row>
    var offsets: map<Key, int>

    constructor ()
      ensures log == [] && offsets == map[]
    {
      log, offsets := [], map[];
    }

    method Publish(topic: string, payload: string)
      modifies this`log
      ensures log == old(log) + [Row(topic, payload, true)]
    {
      log := log + [Row(topic, payload, true)];
    }

    /** Creates the offset row when missing and reads the next batch. */
    method Poll(k: Key) returns (ids: seq<int>)
      modifies this`offsets
      ensures offsets == old(offsets)[k := OffsetIn(old(offsets), k)]
      ensures ids == Select(log, k.topic, OffsetIn(old(offsets), k), BATCH_SIZE)
      ensures offsets[k] == if k in old(offsets) then old(offsets)[k] else 0
    {
      offsets := offsets[k := OffsetIn(offsets, k)];
      ids := Select(log, k.topic, offsets[k], BATCH_SIZE);
    }

    /** One pass of the polling loop for a caller that leaves the generator once it has
        `wanted` events; the offset is committed before each yield. */
    method Consume(k: Key, wanted: nat) returns (ghost ids: seq<int>, got: seq<string>)
      modifies this`offsets
      ensures ids == Select(log, k.topic, OffsetIn(old(offsets), k), BATCH_SIZE)
      ensures |got| == if wanted < |ids| then wanted else |ids|
      ensures got == Payloads(log, ids[..|got|])
      ensures forall i :: 0 <= i < |got| ==> 0 < ids[i] <= |log| && got[i] == log[ids[i] - 1].payload
      ensures offsets == old(offsets)[k := if |got| == 0 then OffsetIn(old(offsets), k) else ids[|got| - 1]]
      ensures Select(log, k.topic, offsets[k], BATCH_SIZE - |got|) == ids[|got|..]
    {
      hide Select, IsNextBatch, PayloadOf;
      var rows := Poll(k);
      ids := rows;
      ghost var polled := offsets;
      got := [];
      var i := 0;
      while i < |rows| && i < wanted
        invariant 0 <= i <= |rows| && i <= wanted && i == |got|
        invariant got == Payloads(log, rows[..i])
        invariant offsets == polled[k := if i == 0 then polled[k] else rows[i - 1]]
      {
        offsets := offsets[k := rows[i]];
        assert rows[..i + 1] == rows[..i] + [rows[i]];
        got := got + [PayloadOf(log, rows[i])];
        i := i + 1;
      }
      if i > 0 {
        ResumeReadsOn(log, k.topic, polled[k], BATCH_SIZE, i);
      }
      PayloadsAre(log, k.topic, polled[k], rows);
    }
  }

  // ------------------------------------------------ every interleaving, with crashes

  /** Where a consumer stands in its loop. `Committed` is the gap between commit and yield. */
  datatype Hand = Down | Polling | Read(last: int) | Draining(rest: seq<int>) | Committed(id: int, rest: seq<int>)

  /** `offset` is the stored row; the rest of the record below `hand` is history. */
  datatype Consumer = Consumer(offset: int, hand: Hand, delivered: seq<int>, lost: set<int>,
                               late: set<int>, stops: nat)

  datatype State = State(log: seq<Row>, consumers: map<Key, Consumer>)

  datatype Step =
    | Publish(topic: string, payload: string)
    | Appear(id: int)
    | Start(k: Key)
    | ReadOffset(k: Key)
    | Fetch(k: Key)
    | Commit(k: Key)
    | Yield(k: Key)
    | Stop(k: Key)

  const NEW := Consumer(0, Down, [], {}, {}, 0)
  const FRESH := State([], map[])

  function Of(s: State, k: Key): Consumer {
    if k in s.consumers then s.consumers[k] else NEW
  }

  function Rest(h: Hand): seq<int> {
    if h.Draining? || h.Committed? then h.rest else []
  }

  /** The greatest id the consumer has settled on reading up to. */
  function High(c: Consumer): int {
    var rest := Rest(c.hand);
    if rest == [] then c.offset else rest[|rest| - 1]
  }

  predicate EnabledFor(c: Consumer, step: Step) {
    match step
    case Publish(_, _) => true
    case Appear(_) => true
    case Start(_) => c.hand.Down?
    case ReadOffset(_) => c.hand.Polling?
    case Fetch(_) => c.hand.Read?
    case Commit(_) => c.hand.Draining? && c.hand.rest != []
    case Yield(_) => c.hand.Committed?
    case Stop(_) => !c.hand.Down?
  }

  predicate Shared(step: Step) {
    step.Publish? || step.Appear?
  }

  predicate Enabled(s: State, step: Step) {
    if step.Publish? then true
    else if step.Appear? then 0 < step.id <= |s.log| && !s.log[step.id - 1].visible
    else EnabledFor(Of(s, step.k), step)
  }

  function Drain(rest: seq<int>): Hand {
    if rest == [] then Polling else Draining(rest)
  }

  /** A step of the consumer's own loop, against the log as it stands. */
  function Move(log: seq<Row>, topic: string, c: Consumer, step: Step): Consumer
    requires !Shared(step) && EnabledFor(c, step)
  {
    match step
    case Start(_) => c.(hand := Polling)
    case ReadOffset(_) => c.(hand := Read(c.offset))
    case Fetch(_) => c.(hand := Drain(Select(log, topic, c.hand.last, BATCH_SIZE)))
    case Commit(_) => c.(offset := c.hand.rest[0], hand := Committed(c.hand.rest[0], c.hand.rest[1..]))
    case Yield(_) => c.(delivered := c.delivered + [c.hand.id], hand := Drain(c.hand.rest))
    case Stop(_) =>
      c.(hand := Down, stops := c.stops + 1, lost := if c.hand.Committed? then c.lost + {c.hand.id} else c.lost)
  }

  /** A row that appears at or below what its consumer has settled on is recorded as late. */
  function Seen(c: Consumer, concerns: bool, id: int): Consumer {
    if concerns && id <= High(c) then c.(late := c.late + {id}) else c
  }

  function Next(s: State, step: Step): State
    requires Enabled(s, step)
  {
    if step.Publish? then s.(log := s.log + [Row(step.topic, step.payload, false)])
    else if step.Appear? then
      var row := s.log[step.id - 1];
      State(s.log[step.id - 1 := row.(visible := true)],
            map k | k in s.consumers :: Seen(s.consumers[k], k.topic == row.topic, step.id))
    else s.(consumers := s.consumers[step.k := Move(s.log, step.k.topic, Of(s, step.k), step)])
  }

  ghost predicate Legal(s: State, steps: seq<Step>)
    decreases |steps|
  {
    steps == [] || (Enabled(s, steps[0]) && Legal(Next(s, steps[0]), steps[1..]))
  }

  ghost function After(s: State, steps: seq<Step>): State
    requires Legal(s, steps)
    decreases |steps|
  {
    if steps == [] then s else After(Next(s, steps[0]), steps[1..])
  }

  // ----------------------------------------------------------------- the invariant

  /** What was handed out, in what order, and where it stands against the offset. */
  ghost predicate Orderly(log: seq<Row>, topic: string, c: Consumer) {
    && Increasing(c.delivered)
    && (forall id :: id in c.delivered ==> id <= c.offset && Has(log, topic, id))
    && (c.offset != 0 ==> Has(log, topic, c.offset))
    && (c.hand.Read? ==> c.hand.last == c.offset)
    && (c.hand.Committed? ==> c.hand.id == c.offset && c.offset != 0 && c.offset !in c.delivered && c.offset !in c.lost)
    && Increasing(Rest(c.hand))
    && (forall id :: id in Rest(c.hand) ==> c.offset < id && Has(log, topic, id))
    && (forall id :: id in c.lost ==> id <= c.offset && Has(log, topic, id) && id !in c.delivered)
    && |c.lost| <= c.stops
  }

  /** Every visible id passed over is accounted for. */
  ghost predicate Accounted(log: seq<Row>, topic: string, c: Consumer) {
    && (forall id :: Has(log, topic, id) && id <= c.offset ==>
          id in c.delivered || id in c.lost || id in c.late || (c.hand.Committed? && id == c.offset))
    && (forall id :: Has(log, topic, id) && c.offset < id <= High(c) ==> id in Rest(c.hand) || id in c.late)
  }

  ghost predicate Inv(s: State) {
    forall k :: k in s.consumers ==>
      Good(s.log, k.topic, s.consumers[k])
  }

  lemma IncreasingAppend(ids: seq<int>, id: int)
    requires Increasing(ids) && forall j :: j in ids ==> j < id
    ensures Increasing(ids + [id])
  {
    assert forall i :: 0 <= i < |ids| ==> ids[i] in ids;
  }

  lemma MoveKeepsOrderly(log: seq<Row>, topic: string, c: Consumer, step: Step)
    requires Orderly(log, topic, c) && !Shared(step) && EnabledFor(c, step)
    ensures Orderly(log, topic, Move(log, topic, c, step))
  {
    var d := Move(log, topic, c, step);
    if step.Commit? {
      assert c.hand.rest[0] in c.hand.rest;
      forall id | id in Rest(d.hand) ensures d.offset < id && Has(log, topic, id) {
        assert id in c.hand.rest;
      }
    } else if step.Yield? {
      IncreasingAppend(c.delivered, c.offset);
    }
  }

  lemma CommitTakesTheNext(log: seq<Row>, topic: string, c: Consumer, id: int)
    requires Orderly(log, topic, c) && Accounted(log, topic, c) && c.hand.Draining? && c.hand.rest != []
    requires Has(log, topic, id) && c.offset < id <= High(c)
    ensures c.hand.rest[0] <= High(c)
    ensures id < c.hand.rest[0] ==> id in c.late
    ensures c.hand.rest[0] < id ==> id in c.hand.rest[1..] || id in c.late
  {
    var rest := c.hand.rest;
    if id in rest {
      var i :| 0 <= i < |rest| && rest[i] == id;
      if i > 0 {
        assert rest[1..][i - 1] == id;
      }
    }
  }

  lemma CommitKeepsAccounted(log: seq<Row>, topic: string, c: Consumer)
    requires Orderly(log, topic, c) && Accounted(log, topic, c) && c.hand.Draining? && c.hand.rest != []
    ensures var rest := c.hand.rest;
            Accounted(log, topic, c.(offset := rest[0], hand := Committed(rest[0], rest[1..])))
  {
    var rest := c.hand.rest;
    var d := c.(offset := rest[0], hand := Committed(rest[0], rest[1..]));
    assert High(d) == High(c);
    assert rest[0] in rest;
    CommitTakesTheNext(log, topic, c, rest[0]);
    forall id | Has(log, topic, id) && c.offset < id <= High(c)
      ensures id < rest[0] ==> id in c.late
      ensures rest[0] < id ==> id in rest[1..] || id in c.late
    {
      CommitTakesTheNext(log, topic, c, id);
    }
  }

  lemma MoveKeepsAccounted(log: seq<Row>, topic: string, c: Consumer, step: Step)
    requires Orderly(log, topic, c) && Accounted(log, topic, c) && !Shared(step) && EnabledFor(c, step)
    ensures Accounted(log, topic, Move(log, topic, c, step))
  {
    if step.Commit? {
      CommitKeepsAccounted(log, topic, c);
    }
  }

  lemma RowStays(log: seq<Row>, more: seq<Row>, topic: string, c: Consumer)
    requires Orderly(log, topic, c)
    requires forall id :: Has(log, topic, id) ==> Has(more, topic, id)
    ensures Orderly(more, topic, c)
  {
  }

  lemma HighIsAhead(log: seq<Row>, topic: string, c: Consumer)
    requires Orderly(log, topic, c)
    ensures c.offset <= High(c) && (High(c) == 0 || Has(log, topic, High(c)))
  {
    var rest := Rest(c.hand);
    if rest != [] {
      assert rest[|rest| - 1] in rest;
    }
  }

  lemma AppearAccounted(log: seq<Row>, more: seq<Row>, topic: string, c: Consumer, d: Consumer, id: int)
    requires Accounted(log, topic, c) && c.offset <= High(c)
    requires forall j :: Has(more, topic, j) ==> Has(log, topic, j) || j == id
    requires d == c.(late := d.late) && c.late <= d.late
    requires Has(more, topic, id) && id <= High(c) ==> id in d.late
    ensures Accounted(more, topic, d)
  {
    hide Has;
    assert High(d) == High(c);
  }

  lemma AppearKeepsGood(log: seq<Row>, topic: string, c: Consumer, id: int)
    requires Good(log, topic, c) && 0 < id <= |log| && !log[id - 1].visible
    ensures Good(log[id - 1 := log[id - 1].(visible := true)], topic, Seen(c, topic == log[id - 1].topic, id))
  {
    hide Accounted;
    var row := log[id - 1];
    var more := log[id - 1 := row.(visible := true)];
    var d := Seen(c, topic == row.topic, id);
    assert forall j :: Has(more, topic, j) <==> Has(log, topic, j) || (j == id && topic == row.topic);
    HighIsAhead(log, topic, c);
    AppearAccounted(log, more, topic, c, d, id);
    RowStays(log, more, topic, c);
  }

  ghost predicate Good(log: seq<Row>, topic: string, c: Consumer) {
    Orderly(log, topic, c) && Accounted(log, topic, c)
  }

  lemma NewIsGood(log: seq<Row>, topic: string)
    ensures Good(log, topic, NEW)
  {
  }

  lemma PublishKeepsGood(log: seq<Row>, row: Row, topic: string, c: Consumer)
    requires Good(log, topic, c) && !row.visible
    ensures Good(log + [row], topic, c)
  {
    assert forall id :: Has(log + [row], topic, id) <==> Has(log, topic, id);
    RowStays(log, log + [row], topic, c);
  }

  lemma StepKeepsInv(s: State, step: Step)
    requires Inv(s) && Enabled(s, step)
    ensures Inv(Next(s, step))
  {
    var t := Next(s, step);
    forall k | k in t.consumers
      ensures Good(t.log, k.topic, t.consumers[k])
    {
      hide Orderly, Accounted, Has, Move, Seen, EnabledFor;
      if step.Publish? {
        PublishKeepsGood(s.log, Row(step.topic, step.payload, false), k.topic, s.consumers[k]);
      } else if step.Appear? {
        AppearKeepsGood(s.log, k.topic, s.consumers[k], step.id);
      } else if step.k == k {
        NewIsGood(s.log, k.topic);
        MoveKeepsOrderly(s.log, k.topic, Of(s, k), step);
        MoveKeepsAccounted(s.log, k.topic, Of(s, k), step);
      }
    }
  }

  lemma {:induction false} RunKeepsInv(s: State, steps: seq<Step>)
    requires Inv(s) && Legal(s, steps)
    ensures Inv(After(s, steps))
    decreases |steps|
  {
    if steps != [] {
      StepKeepsInv(s, steps[0]);
      RunKeepsInv(Next(s, steps[0]), steps[1..]);
    }
  }

  // -------------------------------------------------------------- what it amounts to

  /** Visible ids at or below the offset that were never handed out. */
  ghost predicate PassedOver(s: State, k: Key, id: int) {
    && Has(s.log, k.topic, id) && id <= Of(s, k).offset && id !in Of(s, k).delivered
    && !(Of(s, k).hand.Committed? && id == Of(s, k).offset)
  }

  /** At-most-once, in order: whatever interleaving led here, ids were handed out in strictly
      increasing order, and an event passed over was lost to a stop (one each at most) or became
      visible too late. */
  lemma AtMostOnceInOrder(steps: seq<Step>, k: Key)
    requires Legal(FRESH, steps)
    ensures var c := Of(After(FRESH, steps), k);
            && Increasing(c.delivered)
            && (forall id :: id in c.delivered ==> id <= c.offset && Has(After(FRESH, steps).log, k.topic, id))
            && |c.lost| <= c.stops
            && (forall id :: PassedOver(After(FRESH, steps), k, id) ==> id in c.lost || id in c.late)
            && (forall id :: id in c.lost ==> PassedOver(After(FRESH, steps), k, id))
  {
    RunKeepsInv(FRESH, steps);
  }

  /** A poll that finds nothing has left no visible event of the topic unaccounted for. */
  lemma EmptyPollMeansCaughtUp(steps: seq<Step>, k: Key, id: int)
    requires Legal(FRESH, steps)
    requires var s := After(FRESH, steps);
             Of(s, k).hand.Read? && Select(s.log, k.topic, Of(s, k).hand.last, BATCH_SIZE) == []
    requires Has(After(FRESH, steps).log, k.topic, id)
    ensures var c := Of(After(FRESH, steps), k);
            id in c.delivered || id in c.lost || id in c.late
  {
    RunKeepsInv(FRESH, steps);
  }

  /** Nothing is taken back: the offset is no smaller, what was handed out is a prefix of what
      is handed out now, and what was lost stays lost. */
  ghost predicate Advances(c: Consumer, d: Consumer) {
    && c.offset <= d.offset && c.lost <= d.lost
    && |c.delivered| <= |d.delivered| && c.delivered == d.delivered[..|c.delivered|]
  }

  lemma AdvancesFurther(c: Consumer, d: Consumer, e: Consumer)
    requires Advances(c, d) && Advances(d, e)
    ensures Advances(c, e)
  {
    assert e.delivered[..|c.delivered|] == d.delivered[..|c.delivered|];
  }

  lemma StepAdvances(s: State, step: Step, k: Key)
    requires Inv(s) && Enabled(s, step)
    ensures Advances(Of(s, k), Of(Next(s, step), k))
  {
    if step.Commit? && step.k == k {
      assert Of(s, k).hand.rest[0] in Rest(Of(s, k).hand);
    }
  }

  lemma {:induction false} RunOnlyAdvances(s: State, steps: seq<Step>, k: Key)
    requires Inv(s) && Legal(s, steps)
    ensures Advances(Of(s, k), Of(After(s, steps), k))
    decreases |steps|
  {
    if steps != [] {
      hide Inv, Next, Enabled, Advances, Of;
      var t := Next(s, steps[0]);
      StepKeepsInv(s, steps[0]);
      StepAdvances(s, steps[0], k);
      RunOnlyAdvances(t, steps[1..], k);
      AdvancesFurther(Of(s, k), Of(t, k), Of(After(t, steps[1..]), k));
    }
  }

  // ------------------------------------------------------------- no interference

  predicate Concerns(step: Step, k: Key) {
    Shared(step) || step.k == k
  }

  function Only(steps: seq<Step>, k: Key): seq<Step> {
    if steps == [] then []
    else if Concerns(steps[0], k) then [steps[0]] + Only(steps[1..], k)
    else Only(steps[1..], k)
  }

  ghost predicate SameFor(s: State, t: State, k: Key) {
    s.log == t.log && Of(s, k) == Of(t, k)
  }

  /** Taking every other group's and topic's consumer out of a run leaves a run in which this
      consumer does exactly the same. */
  lemma {:induction false} NoInterference(s: State, t: State, steps: seq<Step>, k: Key)
    requires SameFor(s, t, k) && Legal(s, steps)
    ensures Legal(t, Only(steps, k))
    ensures SameFor(After(s, steps), After(t, Only(steps, k)), k)
    decreases |steps|
  {
    if steps != [] {
      var step := steps[0];
      if Concerns(step, k) {
        assert Only(steps, k)[1..] == Only(steps[1..], k);
        SharedOrOwn(s, t, step, k);
        NoInterference(Next(s, step), Next(t, step), steps[1..], k);
      } else {
        NoInterference(Next(s, step), t, steps[1..], k);
      }
    }
  }

  lemma SharedOrOwn(s: State, t: State, step: Step, k: Key)
    requires SameFor(s, t, k) && Enabled(s, step) && Concerns(step, k)
    ensures Enabled(t, step) && SameFor(Next(s, step), Next(t, step), k)
  {
  }

  // -------------------------------------------------------------- in-order visibility

  ghost predicate NewestOf(log: seq<Row>, topic: string, id: int) {
    forall j :: Has(log, topic, j) ==> j < id
  }

  /** Rows of one topic become visible in id order. */
  ghost predicate InOrder(s: State, steps: seq<Step>)
    requires Legal(s, steps)
    decreases |steps|
  {
    steps == [] ||
    (&& (steps[0].Appear? ==> NewestOf(s.log, s.log[steps[0].id - 1].topic, steps[0].id))
     && InOrder(Next(s, steps[0]), steps[1..]))
  }

  ghost predicate NoneLate(s: State) {
    forall k :: k in s.consumers ==> s.consumers[k].late == {}
  }

  lemma InOrderStep(s: State, step: Step, k: Key)
    requires Inv(s) && NoneLate(s) && Enabled(s, step) && k in Next(s, step).consumers
    requires step.Appear? ==> NewestOf(s.log, s.log[step.id - 1].topic, step.id)
    ensures Next(s, step).consumers[k].late == {}
  {
    hide Accounted;
    if k in s.consumers {
      HighIsAhead(s.log, k.topic, s.consumers[k]);
    }
  }

  lemma {:induction false} InOrderNeverLate(s: State, steps: seq<Step>)
    requires Inv(s) && NoneLate(s) && Legal(s, steps) && InOrder(s, steps)
    ensures NoneLate(After(s, steps))
    decreases |steps|
  {
    if steps != [] {
      StepKeepsInv(s, steps[0]);
      var t := Next(s, steps[0]);
      forall k | k in t.consumers ensures t.consumers[k].late == {} {
        InOrderStep(s, steps[0], k);
      }
      hide Inv, Next, Enabled;
      InOrderNeverLate(t, steps[1..]);
    }
  }

  /** With rows appearing in id order, the events passed over are exactly those lost to a stop:
      without stops, everything visible up to the offset was handed out. */
  lemma InOrderLosesOnlyToStops(steps: seq<Step>, k: Key)
    requires Legal(FRESH, steps) && InOrder(FRESH, steps)
    ensures forall id :: PassedOver(After(FRESH, steps), k, id) <==> id in Of(After(FRESH, steps), k).lost
    ensures |Of(After(FRESH, steps), k).lost| <= Of(After(FRESH, steps), k).stops
  {
    RunKeepsInv(FRESH, steps);
    InOrderNeverLate(FRESH, steps);
  }

  /** The docstring promises redelivery after a crash; instead the event in hand is never
      handed out, however the run goes on. */
  lemma CrashLosesTheEventInHand(s: State, more: seq<Step>, k: Key)
    requires Inv(s) && Of(s, k).hand.Committed? && Legal(Next(s, Stop(k)), more)
    ensures PassedOver(After(Next(s, Stop(k)), more), k, Of(s, k).hand.id)
  {
    var t := Next(s, Stop(k));
    StepKeepsInv(s, Stop(k));
    RunKeepsInv(t, more);
    RunOnlyAdvances(t, more, k);
  }

  // --------------------------------------------------------------- one run with a crash

  function OneEvent(k: Key): seq<Row> {
    [Row(k.topic, "", true)]
  }

  function Alone(k: Key, offset: int, hand: Hand): State {
    State(OneEvent(k), map[k := Consumer(offset, hand, [], {}, {}, 0)])
  }

  lemma OneEventIsFound(k: Key)
    ensures Select(OneEvent(k), k.topic, 0, BATCH_SIZE) == [1]
  {
    assert Has(OneEvent(k), k.topic, 1);
    assert Select(OneEvent(k), k.topic, 1, BATCH_SIZE - 1) == [];
  }

  /** One event, published and seen by one consumer, whose offset is committed. */
  function ToCommit(k: Key): seq<Step> {
    [Publish(k.topic, ""), Appear(1), Start(k), ReadOffset(k), Fetch(k), Commit(k)]
  }

  lemma ReachesCommit(k: Key)
    ensures Legal(FRESH, ToCommit(k)) && After(FRESH, ToCommit(k)) == Alone(k, 1, Committed(1, []))
  {
    OneEventIsFound(k);
    var steps := ToCommit(k);
    var s1 := State([Row(k.topic, "", false)], map[]);
    var s2 := State(OneEvent(k), map[]);
    assert Next(FRESH, steps[0]) == s1;
    assert s1.log[0 := Row(k.topic, "", true)] == OneEvent(k);
    assert Next(s1, steps[1]) == s2;
    assert Next(s2, steps[2]) == Alone(k, 0, Polling);
    assert Next(Alone(k, 0, Polling), steps[3]) == Alone(k, 0, Read(0));
    assert Next(Alone(k, 0, Read(0)), steps[4]) == Alone(k, 0, Draining([1]));
    assert [1][1..] == [];
    assert Next(Alone(k, 0, Draining([1])), steps[5]) == Alone(k, 1, Committed(1, []));
    hide Next, Select, Alone;
    var end := Alone(k, 1, Committed(1, []));
    assert Legal(end, steps[6..]) && After(end, steps[6..]) == end;
    assert Legal(Alone(k, 0, Draining([1])), steps[5..]) && After(Alone(k, 0, Draining([1])), steps[5..]) == end;
    assert Legal(Alone(k, 0, Read(0)), steps[4..]) && After(Alone(k, 0, Read(0)), steps[4..]) == end;
    assert Legal(Alone(k, 0, Polling), steps[3..]) && After(Alone(k, 0, Polling), steps[3..]) == end;
    assert Legal(s2, steps[2..]) && After(s2, steps[2..]) == end;
    assert Legal(s1, steps[1..]) && After(s1, steps[1..]) == end;
  }

  /** A run from the start: the consumer stops between commit and yield, and however the run goes on the
      only event ever published is never handed out. */
  lemma CrashRun(k: Key)
    ensures Legal(FRESH, ToCommit(k)) && Enabled(After(FRESH, ToCommit(k)), Stop(k))
    ensures forall more :: Legal(Next(After(FRESH, ToCommit(k)), Stop(k)), more) ==>
              PassedOver(After(Next(After(FRESH, ToCommit(k)), Stop(k)), more), k, 1)
  {
    ReachesCommit(k);
    var s := After(FRESH, ToCommit(k));
    RunKeepsInv(FRESH, ToCommit(k));
    assert Of(s, k).hand == Committed(1, []);
    hide Legal, After, Next, Inv, PassedOver;
    forall more | Legal(Next(s, Stop(k)), more) ensures PassedOver(After(Next(s, Stop(k)), more), k, 1) {
      CrashLosesTheEventInHand(s, more, k);
    }
  }
}
