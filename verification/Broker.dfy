/** The message broker as one worker's channel sees it: queues, unacknowledged deliveries, and where
    settled messages go. */
module Broker {

  import opened Basics
  import Embedding

  /** What a message body parses to. */
  datatype Task = ChunkTask(task: Embedding.Task) | QueryTask(jobId: string) | RankTask(jobId: string) | OtherTask

  datatype Body = Empty | Malformed | Valid(task: Task)

  datatype Item = Item(queue: string, body: Body)

  datatype Delivery = Delivery(tag: nat, item: Item)

  /** The bodies waiting in one queue, oldest first. */
  function QueueOf(queued: seq<Item>, queue: string): seq<Body> {
    if queued == [] then []
    else (if queued[0].queue == queue then [queued[0].body] else []) + QueueOf(queued[1..], queue)
  }

  function Items(ds: seq<Delivery>): (r: seq<Item>)
    ensures |r| == |ds| && forall i :: 0 <= i < |r| ==> r[i] == ds[i].item
  {
    seq(|ds|, i requires 0 <= i < |ds| => ds[i].item)
  }

  /** The deliveries whose tag is not among the given ones. */
  function Keep(ds: seq<Delivery>, gone: set<nat>): seq<Delivery> {
    if ds == [] then []
    else (if ds[0].tag in gone then [] else [ds[0]]) + Keep(ds[1..], gone)
  }

  /** Tags grow along the sequence, as deliveries are made. */
  ghost predicate Ascending(ds: seq<Delivery>) {
    forall i, j :: 0 <= i < j < |ds| ==> ds[i].tag < ds[j].tag
  }

  ghost predicate AllBelow(ds: seq<Delivery>, tag: nat) {
    forall i :: 0 <= i < |ds| ==> ds[i].tag < tag
  }

  predicate Has(ds: seq<Delivery>, tag: nat) {
    exists i :: 0 <= i < |ds| && ds[i].tag == tag
  }

  lemma KeepCons(d: Delivery, rest: seq<Delivery>, gone: set<nat>)
    ensures Keep([d] + rest, gone) == Keep([d], gone) + Keep(rest, gone)
  {
    assert ([d] + rest)[1..] == rest && Keep([d][1..], gone) == [];
  }

  lemma {:induction false} KeepAppend(a: seq<Delivery>, b: seq<Delivery>, gone: set<nat>)
    ensures Keep(a + b, gone) == Keep(a, gone) + Keep(b, gone)
  {
    if a == [] {
      assert a + b == b;
    } else {
      hide Keep;
      var d, rest := a[0], a[1..];
      KeepAppend(rest, b, gone);
      KeepCons(d, rest, gone);
      KeepCons(d, rest + b, gone);
      assert a == [d] + rest && a + b == [d] + (rest + b);
      Reassociate(Keep([d], gone), Keep(rest, gone), Keep(b, gone));
    }
  }

  lemma {:induction false} KeepAll(ds: seq<Delivery>, gone: set<nat>)
    requires forall i :: 0 <= i < |ds| ==> ds[i].tag !in gone
    ensures Keep(ds, gone) == ds
  {
    if ds != [] {
      KeepAll(ds[1..], gone);
    }
  }

  lemma {:induction false} KeepNone(ds: seq<Delivery>, gone: set<nat>)
    requires forall i :: 0 <= i < |ds| ==> ds[i].tag in gone
    ensures Keep(ds, gone) == []
  {
    if ds != [] {
      KeepNone(ds[1..], gone);
    }
  }

  lemma {:induction false} KeepTwice(ds: seq<Delivery>, a: set<nat>, b: set<nat>)
    ensures Keep(Keep(ds, a), b) == Keep(ds, a + b)
  {
    if ds != [] {
      KeepTwice(ds[1..], a, b);
      if ds[0].tag in a {
        assert Keep(ds, a) == Keep(ds[1..], a);
      } else {
        assert Keep(ds, a)[1..] == Keep(ds[1..], a);
      }
    }
  }

  lemma {:induction false} KeepIsPart(ds: seq<Delivery>, gone: set<nat>)
    ensures forall d :: d in Keep(ds, gone) <==> d in ds && d.tag !in gone
  {
    if ds != [] {
      KeepIsPart(ds[1..], gone);
      assert forall d :: d in ds <==> d == ds[0] || d in ds[1..];
    }
  }

  lemma {:induction false} KeepAscending(ds: seq<Delivery>, gone: set<nat>)
    requires Ascending(ds)
    ensures Ascending(Keep(ds, gone))
  {
    if ds != [] {
      KeepAscending(ds[1..], gone);
      KeepIsPart(ds[1..], gone);
      var rest := Keep(ds[1..], gone);
      forall j | 0 <= j < |rest| ensures ds[0].tag < rest[j].tag {
        assert rest[j] in ds[1..];
      }
    }
  }

  /** Taking one delivery out of the middle. */
  lemma KeepMiddle(a: seq<Delivery>, d: Delivery, b: seq<Delivery>)
    requires Ascending(a + [d] + b)
    ensures Keep(a + [d] + b, {d.tag}) == a + b
  {
    var all := a + [d] + b;
    assert all[|a|] == d;
    forall i | 0 <= i < |a| ensures a[i].tag !in {d.tag} {
      assert all[i] == a[i];
    }
    forall i | 0 <= i < |b| ensures b[i].tag !in {d.tag} {
      assert all[|a| + 1 + i] == b[i];
    }
    KeepAppend(a + [d], b, {d.tag});
    KeepAppend(a, [d], {d.tag});
    KeepAll(a, {d.tag});
    KeepAll(b, {d.tag});
    KeepNone([d], {d.tag});
  }

  lemma ItemsAppend(a: seq<Delivery>, b: seq<Delivery>)
    ensures Items(a + b) == Items(a) + Items(b)
  {
  }

  lemma QueueCons(item: Item, rest: seq<Item>, queue: string)
    ensures QueueOf([item] + rest, queue) == QueueOf([item], queue) + QueueOf(rest, queue)
    ensures QueueOf([item], queue) == if item.queue == queue then [item.body] else []
  {
    assert ([item] + rest)[1..] == rest && QueueOf([item][1..], queue) == [];
  }

  lemma {:induction false} QueueAppend(a: seq<Item>, b: seq<Item>, queue: string)
    ensures QueueOf(a + b, queue) == QueueOf(a, queue) + QueueOf(b, queue)
  {
    if a == [] {
      assert a + b == b;
    } else {
      hide QueueOf;
      var item, rest := a[0], a[1..];
      QueueAppend(rest, b, queue);
      QueueCons(item, rest, queue);
      QueueCons(item, rest + b, queue);
      assert a == [item] + rest && a + b == [item] + (rest + b);
      Reassociate(QueueOf([item], queue), QueueOf(rest, queue), QueueOf(b, queue));
    }
  }

  /** Position of the oldest item of a queue. */
  function First(queued: seq<Item>, queue: string): (i: nat)
    ensures i <= |queued|
    ensures i < |queued| ==> queued[i].queue == queue
    ensures forall j :: 0 <= j < i ==> queued[j].queue != queue
  {
    if queued == [] || queued[0].queue == queue then 0 else 1 + First(queued[1..], queue)
  }

  lemma {:induction false} NoneQueued(queued: seq<Item>, queue: string)
    requires forall j :: 0 <= j < |queued| ==> queued[j].queue != queue
    ensures QueueOf(queued, queue) == []
  {
    if queued != [] {
      NoneQueued(queued[1..], queue);
    }
  }

  lemma TakeFirst(queued: seq<Item>, queue: string)
    ensures var i := First(queued, queue);
            if i == |queued| then QueueOf(queued, queue) == []
            else
              && QueueOf(queued, queue) == [queued[i].body] + QueueOf(queued[..i] + queued[i + 1..], queue)
              && forall q :: q != queue ==> QueueOf(queued[..i] + queued[i + 1..], q) == QueueOf(queued, q)
  {
    var i := First(queued, queue);
    NoneQueued(queued[..i], queue);
    hide QueueOf;
    if i == |queued| {
      assert queued[..i] == queued;
    } else {
      var front, item, back := queued[..i], queued[i], queued[i + 1..];
      assert queued == front + ([item] + back);
      forall q ensures QueueOf(queued, q) == QueueOf(front, q) + (QueueOf([item], q) + QueueOf(back, q)) {
        QueueAppend(front, [item] + back, q);
        QueueCons(item, back, q);
      }
      forall q ensures QueueOf(front + back, q) == QueueOf(front, q) + QueueOf(back, q) {
        QueueAppend(front, back, q);
      }
      forall q ensures QueueOf([item], q) == if q == queue then [item.body] else [] {
        QueueCons(item, [], q);
      }
      assert QueueOf(queued, queue) == [item.body] + QueueOf(front + back, queue);
    }
  }

  ghost function Everything(queued: seq<Item>, unacked: seq<Delivery>, acked: multiset<Item>, dead: multiset<Item>)
    : multiset<Item>
  {
    multiset(queued) + multiset(Items(unacked)) + acked + dead
  }

  lemma MoveToUnacked(queued: seq<Item>, i: nat, unacked: seq<Delivery>, tag: nat, acked: multiset<Item>, dead: multiset<Item>)
    requires i < |queued|
    ensures Everything(queued[..i] + queued[i + 1..], unacked + [Delivery(tag, queued[i])], acked, dead)
         == Everything(queued, unacked, acked, dead)
  {
    ItemsAppend(unacked, [Delivery(tag, queued[i])]);
    assert Items([Delivery(tag, queued[i])]) == [queued[i]];
    assert queued == queued[..i] + [queued[i]] + queued[i + 1..];
  }

  lemma TakeOut(a: seq<Delivery>, d: Delivery, b: seq<Delivery>)
    ensures multiset(Items(a + [d] + b)) == multiset(Items(a + b)) + multiset{d.item}
  {
    ItemsAppend(a + [d], b);
    ItemsAppend(a, [d]);
    ItemsAppend(a, b);
    assert Items([d]) == [d.item];
  }

  lemma RemoveOne(ds: seq<Delivery>, i: nat)
    requires Ascending(ds) && i < |ds|
    ensures var rest := ds[..i] + ds[i + 1..];
            && rest == Keep(ds, {ds[i].tag}) && Ascending(rest)
            && multiset(Items(ds)) == multiset(Items(rest)) + multiset{ds[i].item}
            && forall j :: 0 <= j < |rest| ==> rest[j] in ds && rest[j].tag != ds[i].tag
  {
    assert ds == ds[..i] + [ds[i]] + ds[i + 1..];
    KeepMiddle(ds[..i], ds[i], ds[i + 1..]);
    TakeOut(ds[..i], ds[i], ds[i + 1..]);
  }

  lemma StillBelow(ds: seq<Delivery>, rest: seq<Delivery>, tag: nat)
    requires AllBelow(ds, tag) && forall j :: 0 <= j < |rest| ==> rest[j] in ds
    ensures AllBelow(rest, tag)
  {
  }

  lemma SettledTotal(queued: seq<Item>, ds: seq<Delivery>, rest: seq<Delivery>, acked: multiset<Item>,
                     dead: multiset<Item>, item: Item)
    requires multiset(Items(ds)) == multiset(Items(rest)) + multiset{item}
    ensures Everything(queued, rest, acked + multiset{item}, dead) == Everything(queued, ds, acked, dead)
    ensures Everything(queued, rest, acked, dead + multiset{item}) == Everything(queued, ds, acked, dead)
  {
  }

  // ------------------------------------------------------ one operation after another, on values

  datatype View = View(queued: seq<Item>, unacked: seq<Delivery>, acked: multiset<Item>, dead: multiset<Item>, nextTag: nat)

  /** Everything that can happen on a channel, one broker operation at a time. */
  datatype Operation = Publishing(item: Item) | Getting(queue: string) | Settling(tag: nat, ok: bool) | Losing

  ghost predicate ValidView(v: View) {
    Ascending(v.unacked) && AllBelow(v.unacked, v.nextTag)
  }

  ghost function TotalOf(v: View): multiset<Item> {
    Everything(v.queued, v.unacked, v.acked, v.dead)
  }

  function IndexOf(ds: seq<Delivery>, tag: nat): (i: nat)
    requires Has(ds, tag)
    ensures i < |ds| && ds[i].tag == tag
  {
    if ds[0].tag == tag then 0
    else
      assert Has(ds[1..], tag) by {
        var j :| 0 <= j < |ds| && ds[j].tag == tag;
        assert ds[1..][j - 1].tag == tag;
      }
      1 + IndexOf(ds[1..], tag)
  }

  /** The connection is gone: everything unacknowledged is queued again and tags start over. */
  function Lost(v: View): View {
    View(Items(v.unacked) + v.queued, [], v.acked, v.dead, 0)
  }

  /** Settling a tag that is not outstanding closes the channel. */
  function Apply(v: View, op: Operation): View {
    match op
    case Publishing(item) => v.(queued := v.queued + [item])
    case Getting(queue) =>
      var i := First(v.queued, queue);
      if i == |v.queued| then v
      else v.(queued := v.queued[..i] + v.queued[i + 1..],
              unacked := v.unacked + [Delivery(v.nextTag, v.queued[i])], nextTag := v.nextTag + 1)
    case Settling(tag, ok) =>
      if !Has(v.unacked, tag) then Lost(v)
      else
        var item := v.unacked[IndexOf(v.unacked, tag)].item;
        v.(unacked := Keep(v.unacked, {tag}), acked := if ok then v.acked + multiset{item} else v.acked,
           dead := if ok then v.dead else v.dead + multiset{item})
    case Losing => Lost(v)
  }

  function ApplyAll(v: View, ops: seq<Operation>): View {
    if ops == [] then v else Apply(ApplyAll(v, ops[..|ops| - 1]), ops[|ops| - 1])
  }

  /** What an operation adds to the messages in the system. */
  function Added(op: Operation): multiset<Item> {
    if op.Publishing? then multiset{op.item} else multiset{}
  }

  function PublishedBy(ops: seq<Operation>): multiset<Item> {
    if ops == [] then multiset{} else PublishedBy(ops[..|ops| - 1]) + Added(ops[|ops| - 1])
  }

  lemma SettleConserves(v: View, tag: nat, ok: bool)
    requires ValidView(v) && Has(v.unacked, tag)
    ensures ValidView(Apply(v, Settling(tag, ok))) && TotalOf(Apply(v, Settling(tag, ok))) == TotalOf(v)
    ensures !Has(Apply(v, Settling(tag, ok)).unacked, tag)
  {
    hide Keep, Items, Everything, Ascending;
    var i := IndexOf(v.unacked, tag);
    RemoveOne(v.unacked, i);
    var rest := v.unacked[..i] + v.unacked[i + 1..];
    StillBelow(v.unacked, rest, v.nextTag);
    SettledTotal(v.queued, v.unacked, rest, v.acked, v.dead, v.unacked[i].item);
  }

  lemma GetConserves(v: View, queue: string)
    requires ValidView(v)
    ensures ValidView(Apply(v, Getting(queue))) && TotalOf(Apply(v, Getting(queue))) == TotalOf(v)
  {
    hide Everything, First;
    var i := First(v.queued, queue);
    if i < |v.queued| {
      MoveToUnacked(v.queued, i, v.unacked, v.nextTag, v.acked, v.dead);
      OneMoreTag(v.unacked, v.nextTag, v.queued[i]);
    }
  }

  lemma OneMoreTag(ds: seq<Delivery>, tag: nat, item: Item)
    requires Ascending(ds) && AllBelow(ds, tag)
    ensures Ascending(ds + [Delivery(tag, item)]) && AllBelow(ds + [Delivery(tag, item)], tag + 1)
  {
  }

  lemma ApplyConserves(v: View, op: Operation)
    requires ValidView(v)
    ensures ValidView(Apply(v, op)) && TotalOf(Apply(v, op)) == TotalOf(v) + Added(op)
  {
    match op
    case Getting(queue) => GetConserves(v, queue);
    case Settling(tag, ok) =>
      if Has(v.unacked, tag) {
        SettleConserves(v, tag, ok);
      }
    case _ =>
  }

  /** Over every sequence of operations, with the connection lost wherever one likes, queued +
      outstanding + acknowledged + dead-lettered messages are those there were plus those published. */
  lemma {:induction false} RunConserves(v: View, ops: seq<Operation>)
    requires ValidView(v)
    ensures ValidView(ApplyAll(v, ops)) && TotalOf(ApplyAll(v, ops)) == TotalOf(v) + PublishedBy(ops)
  {
    if ops != [] {
      hide Apply, TotalOf, ValidView;
      var n := |ops| - 1;
      RunConserves(v, ops[..n]);
      ApplyConserves(ApplyAll(v, ops[..n]), ops[n]);
    }
  }

  /** The connection is not lost during the operations, by a fault or by a wrong tag. */
  ghost predicate Stays(v: View, ops: seq<Operation>) {
    forall i :: 0 <= i < |ops| ==>
      !ops[i].Losing? && (ops[i].Settling? ==> Has(ApplyAll(v, ops[..i]).unacked, ops[i].tag))
  }

  lemma ApplyNeverReusesTag(v: View, op: Operation, tag: nat)
    requires ValidView(v) && tag < v.nextTag && !Has(v.unacked, tag)
    requires !op.Losing? && (op.Settling? ==> Has(v.unacked, op.tag))
    ensures tag < Apply(v, op).nextTag && !Has(Apply(v, op).unacked, tag)
  {
    if op.Settling? {
      KeepIsPart(v.unacked, {op.tag});
      forall i | 0 <= i < |Apply(v, op).unacked| ensures Apply(v, op).unacked[i].tag != tag {
        assert Apply(v, op).unacked[i] in v.unacked;
      }
    }
  }

  /** No tag is settled twice: a tag that is not outstanding is never outstanding again on this
      connection. */
  lemma {:induction false} TagNeverComesBack(v: View, ops: seq<Operation>, tag: nat)
    requires ValidView(v) && tag < v.nextTag && !Has(v.unacked, tag) && Stays(v, ops)
    ensures tag < ApplyAll(v, ops).nextTag && !Has(ApplyAll(v, ops).unacked, tag)
  {
    if ops != [] {
      hide Apply, Has, ValidView;
      var n := |ops| - 1;
      assert forall i :: 0 <= i < n ==> ops[..n][..i] == ops[..i];
      TagNeverComesBack(v, ops[..n], tag);
      RunConserves(v, ops[..n]);
      ApplyNeverReusesTag(ApplyAll(v, ops[..n]), ops[n], tag);
    }
  }

  // ------------------------------------------------------- what a client performs by itself

  /** The operations lead from v to w; none publishes, and none settles a tag that is not outstanding. */
  ghost predicate Performs(v: View, ops: seq<Operation>, w: View) {
    w == ApplyAll(v, ops) && Stays(v, ops) && forall i :: 0 <= i < |ops| ==> !ops[i].Publishing?
  }

  lemma PerformsNothing(v: View)
    ensures Performs(v, [], v)
  {
  }

  lemma PerformsOneMore(v: View, ops: seq<Operation>, w: View, op: Operation)
    requires Performs(v, ops, w) && (op.Getting? || (op.Settling? && Has(w.unacked, op.tag)))
    ensures Performs(v, ops + [op], Apply(w, op))
  {
    hide Apply, Has;
    var all := ops + [op];
    assert all[..|ops|] == ops;
    forall i | 0 <= i < |all| && all[i].Settling? ensures Has(ApplyAll(v, all[..i]).unacked, all[i].tag) {
      if i < |ops| {
        assert all[..i] == ops[..i];
      }
    }
  }

  lemma {:induction false} PerformsThen(v: View, a: seq<Operation>, w: View, b: seq<Operation>, x: View)
    requires Performs(v, a, w) && Performs(w, b, x)
    ensures Performs(v, a + b, x)
  {
    hide Apply, Has;
    if b == [] {
      assert a + b == a;
    } else {
      var n := |b| - 1;
      assert forall i :: 0 <= i < n ==> b[..n][..i] == b[..i];
      PerformsThen(v, a, w, b[..n], ApplyAll(w, b[..n]));
      assert a + b == (a + b[..n]) + [b[n]];
      PerformsOneMore(v, a + b[..n], ApplyAll(w, b[..n]), b[n]);
    }
  }

  lemma {:induction false} NothingPublished(ops: seq<Operation>)
    requires forall i :: 0 <= i < |ops| ==> !ops[i].Publishing?
    ensures PublishedBy(ops) == multiset{}
  {
    if ops != [] {
      NothingPublished(ops[..|ops| - 1]);
    }
  }

  /** After any number of these operations, and if the connection is then lost, nothing is lost or doubled. */
  lemma PrefixConserves(v: View, ops: seq<Operation>, w: View, k: nat)
    requires ValidView(v) && Performs(v, ops, w) && k <= |ops|
    ensures var u := ApplyAll(v, ops[..k]);
            && ValidView(u) && TotalOf(u) == TotalOf(v)
            && ValidView(Lost(u)) && TotalOf(Lost(u)) == TotalOf(v)
  {
    hide TotalOf, ValidView;
    RunConserves(v, ops[..k]);
    NothingPublished(ops[..k]);
    ApplyConserves(ApplyAll(v, ops[..k]), Losing);
  }

  lemma PerformsConserves(v: View, ops: seq<Operation>, w: View)
    requires ValidView(v) && Performs(v, ops, w)
    ensures ValidView(w) && TotalOf(w) == TotalOf(v)
  {
    hide TotalOf, ValidView;
    PrefixConserves(v, ops, w, |ops|);
    assert ops[..|ops|] == ops;
  }

  class Channel {
    var queued: seq<Item>
    var unacked: seq<Delivery>
    var acked: multiset<Item>
    var dead: multiset<Item>
    var nextTag: nat

    ghost function State(): View
      reads this
    {
      View(queued, unacked, acked, dead, nextTag)
    }

    ghost predicate Valid()
      reads this
    {
      ValidView(State())
    }

    ghost function Total(): multiset<Item>
      reads this
    {
      TotalOf(State())
    }

    constructor ()
      ensures Valid() && State() == View([], [], multiset{}, multiset{}, 0)
    {
      queued, unacked, acked, dead, nextTag := [], [], multiset{}, multiset{}, 0;
    }

    method Publish(item: Item)
      requires Valid()
      modifies this`queued
      ensures Valid() && State() == Apply(old(State()), Publishing(item))
      ensures Total() == old(Total()) + multiset{item}
    {
      queued := queued + [item];
    }

    /** basic_get without auto-ack. */
    method Get(queue: string) returns (d: Option<Delivery>)
      requires Valid()
      modifies this`queued, this`unacked, this`nextTag
      ensures Valid() && Total() == old(Total()) && State() == Apply(old(State()), Getting(queue))
      ensures d.None? <==> QueueOf(old(queued), queue) == []
      ensures d.None? ==> State() == old(State())
      ensures d.Some? ==>
                && d.value.tag == old(nextTag) && d.value.item.queue == queue
                && QueueOf(old(queued), queue) == [d.value.item.body] + QueueOf(queued, queue)
                && (forall q :: q != queue ==> QueueOf(queued, q) == QueueOf(old(queued), q))
                && |queued| < |old(queued)|
                && unacked == old(unacked) + [d.value] && nextTag == old(nextTag) + 1
    {
      hide QueueOf, Everything;
      GetConserves(State(), queue);
      var i := First(queued, queue);
      TakeFirst(queued, queue);
      if i == |queued| {
        return None;
      }
      d := Some(Delivery(nextTag, queued[i]));
      queued := queued[..i] + queued[i + 1..];
      unacked := unacked + [d.value];
      nextTag := nextTag + 1;
    }

    /** basic_ack, or basic_nack without requeue. A tag that is not outstanding, such as one settled
        before, is a protocol error. */
    method Settle(tag: nat, ok: bool)
      requires Valid() && Has(unacked, tag)
      modifies this`unacked, this`acked, this`dead
      ensures Valid() && Total() == old(Total()) && State() == Apply(old(State()), Settling(tag, ok))
      ensures unacked == Keep(old(unacked), {tag}) && !Has(unacked, tag)
      ensures var item := old(unacked)[IndexOf(old(unacked), tag)].item;
              && acked == old(acked) + (if ok then multiset{item} else multiset{})
              && dead == old(dead) + (if ok then multiset{} else multiset{item})
    {
      SettleConserves(State(), tag, ok);
      hide Everything, Ascending, AllBelow, Keep;
      var item := unacked[IndexOf(unacked, tag)].item;
      unacked := Keep(unacked, {tag});
      if ok {
        acked := acked + multiset{item};
      } else {
        dead := dead + multiset{item};
      }
    }

    /** The connection is gone, by a kill or otherwise. */
    method Reconnect()
      requires Valid()
      modifies this`queued, this`unacked, this`nextTag
      ensures Valid() && Total() == old(Total()) && State() == Lost(old(State()))
      ensures queued == Items(old(unacked)) + old(queued) && unacked == []
    {
      ApplyConserves(State(), Losing);
      hide Everything;
      queued := Items(unacked) + queued;
      unacked, nextTag := [], 0;
    }
  }

  method Perform(channel: Channel, op: Operation)
    requires channel.Valid()
    modifies channel
    ensures channel.Valid() && channel.State() == Apply(old(channel.State()), op)
  {
    hide TotalOf, ValidView, Keep, QueueOf, First, Items;
    match op
    case Publishing(item) => channel.Publish(item);
    case Getting(queue) => var _ := channel.Get(queue);
    case Losing => channel.Reconnect();
    case Settling(tag, ok) =>
      if Has(channel.unacked, tag) {
        channel.Settle(tag, ok);
      } else {
        channel.Reconnect();
      }
  }

  lemma ApplyNext(v: View, ops: seq<Operation>, n: nat)
    requires n < |ops|
    ensures ApplyAll(v, ops[..n + 1]) == Apply(ApplyAll(v, ops[..n]), ops[n])
  {
    assert ops[..n + 1][..n] == ops[..n];
  }

  /** Performs any operations; wherever between two of them the connection is lost, no message is lost
      or doubled. */
  method AnyRun(channel: Channel, ops: seq<Operation>)
    requires channel.Valid()
    modifies channel
    ensures channel.Valid() && channel.State() == ApplyAll(old(channel.State()), ops)
    ensures channel.Total() == old(channel.Total()) + PublishedBy(ops)
  {
    ghost var before := channel.State();
    assert ApplyAll(before, ops[..0]) == before;
    hide Apply, ApplyAll, TotalOf, ValidView, PublishedBy;
    RunConserves(before, ops);
    for n := 0 to |ops|
      invariant channel.Valid() && channel.State() == ApplyAll(before, ops[..n])
    {
      Perform(channel, ops[n]);
      ApplyNext(before, ops, n);
    }
    assert ops[..|ops|] == ops;
  }
}
