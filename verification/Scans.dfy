/** What one scan of the worker's queues amounts to, and that it accounts for every message. */
module Scans {

  import opened Basics
  import Broker
  import W = Worker

  type Delivery = Broker.Delivery

  // -------------------------------------------------------------- positions of a batch

  /** The tags of the given positions of a batch. */
  ghost function TagsAt(batch: seq<Delivery>, ps: seq<nat>): set<nat> {
    set i | 0 <= i < |ps| && ps[i] < |batch| :: batch[ps[i]].tag
  }

  lemma TagsGrow(batch: seq<Delivery>, ps: seq<nat>, n: nat)
    requires n < |ps| && ps[n] < |batch|
    ensures TagsAt(batch, ps[..n + 1]) == TagsAt(batch, ps[..n]) + {batch[ps[n]].tag}
  {
    var next := ps[..n + 1];
    assert forall i :: 0 <= i < n ==> next[i] == ps[..n][i];
    assert next[n] == ps[n];
    forall t | t in TagsAt(batch, next) ensures t in TagsAt(batch, ps[..n]) + {batch[ps[n]].tag} {
      var i :| 0 <= i < |next| && next[i] < |batch| && t == batch[next[i]].tag;
      if i < n {
        assert ps[..n][i] == next[i];
      }
    }
    forall t | t in TagsAt(batch, ps[..n]) + {batch[ps[n]].tag} ensures t in TagsAt(batch, next) {
      if t != batch[ps[n]].tag {
        var i :| 0 <= i < n && ps[..n][i] < |batch| && t == batch[ps[..n][i]].tag;
        assert next[i] == ps[..n][i];
      }
    }
  }

  /** A delivery of the batch that is neither in `gone` nor before it in `ps` is still outstanding. */
  lemma StillOutstanding(unacked: seq<Delivery>, base: seq<Delivery>, batch: seq<Delivery>, gone: set<nat>, p: nat)
    requires unacked == Broker.Keep(base + batch, gone) && p < |batch| && batch[p].tag !in gone
    ensures Broker.Has(unacked, batch[p].tag)
  {
    Broker.KeepIsPart(base + batch, gone);
    assert (base + batch)[|base| + p] == batch[p];
    assert batch[p] in unacked;
  }

  lemma TagNotSettled(base: seq<Delivery>, batch: seq<Delivery>, ps: seq<nat>, p: nat)
    requires Broker.Ascending(base + batch) && p < |batch| && p !in ps
    ensures batch[p].tag !in TagsAt(batch, ps)
  {
    forall i | 0 <= i < |ps| && ps[i] < |batch| ensures batch[ps[i]].tag != batch[p].tag {
      assert ps[i] in ps;
      assert (base + batch)[|base| + p] == batch[p] && (base + batch)[|base| + ps[i]] == batch[ps[i]];
    }
  }

  lemma DistinctBefore(ps: seq<nat>, n: nat)
    requires Distinct(ps) && n < |ps|
    ensures ps[n] !in ps[..n]
  {
  }

  /** The messages at the given positions of a batch. */
  ghost function ItemsAt(batch: seq<Delivery>, ps: seq<nat>): multiset<Broker.Item> {
    if ps == [] then multiset{}
    else
      var n := |ps| - 1;
      ItemsAt(batch, ps[..n]) + if ps[n] < |batch| then multiset{batch[ps[n]].item} else multiset{}
  }

  lemma NoItems(batch: seq<Delivery>)
    ensures ItemsAt(batch, []) == multiset{}
  {
  }

  lemma ItemsGrow(batch: seq<Delivery>, ps: seq<nat>, n: nat)
    requires n < |ps| && ps[n] < |batch|
    ensures ItemsAt(batch, ps[..n + 1]) == ItemsAt(batch, ps[..n]) + multiset{batch[ps[n]].item}
  {
    assert ps[..n + 1][..n] == ps[..n];
  }

  /** A tag that is outstanding belongs to the delivery it was made for. */
  lemma ItsOwnItem(unacked: seq<Delivery>, base: seq<Delivery>, batch: seq<Delivery>, gone: set<nat>, p: nat)
    requires Broker.Ascending(base + batch) && unacked == Broker.Keep(base + batch, gone)
    requires p < |batch| && Broker.Has(unacked, batch[p].tag)
    ensures unacked[Broker.IndexOf(unacked, batch[p].tag)].item == batch[p].item
  {
    var all := base + batch;
    Broker.KeepIsPart(all, gone);
    var d := unacked[Broker.IndexOf(unacked, batch[p].tag)];
    assert d in all;
    var i :| 0 <= i < |all| && all[i] == d;
    assert all[|base| + p] == batch[p];
  }

  lemma NoTags(batch: seq<Delivery>)
    ensures TagsAt(batch, []) == {}
  {
  }

  // ------------------------------------------------------------- the relation of a scan

  /** Queues in priority order with their models, how many messages to poll for a model, and whether
      there is a rerank handler. */
  datatype Setup = Setup(modelQueues: seq<(string, string)>, pollSize: string -> nat, hasReranker: bool)

  datatype View = View(model: Option<string>, channel: Broker.View)

  ghost function BodiesIn(setup: Setup, queued: seq<Broker.Item>, i: nat): seq<Broker.Body>
    requires i < |setup.modelQueues|
  {
    Broker.QueueOf(queued, setup.modelQueues[i].1)
  }

  /** The tasks of the valid messages a poll of queue i yields. */
  ghost function Waiting(setup: Setup, queued: seq<Broker.Item>, i: nat): seq<W.Task>
    requires i < |setup.modelQueues|
  {
    W.Batch(BodiesIn(setup, queued, i), setup.pollSize(setup.modelQueues[i].0))
  }

  /** What a poll of queue i leaves in it. */
  ghost function Remaining(setup: Setup, queued: seq<Broker.Item>, i: nat): seq<Broker.Body>
    requires i < |setup.modelQueues|
  {
    var bodies := BodiesIn(setup, queued, i);
    bodies[W.Pulled(bodies, setup.pollSize(setup.modelQueues[i].0))..]
  }

  /** The first n queues were polled and nothing else. */
  ghost predicate PolledUpTo(setup: Setup, before: seq<Broker.Item>, after: seq<Broker.Item>, n: nat)
    requires n <= |setup.modelQueues|
  {
    && (forall j :: 0 <= j < n ==> BodiesIn(setup, after, j) == Remaining(setup, before, j))
    && (forall q :: Unpolled(setup, q, n) ==> Broker.QueueOf(after, q) == Broker.QueueOf(before, q))
  }

  ghost predicate Unpolled(setup: Setup, q: string, n: nat)
    requires n <= |setup.modelQueues|
  {
    forall j :: 0 <= j < n ==> setup.modelQueues[j].1 != q
  }

  /** The messages of a poll that do not parse, empty ones included. */
  function Rejected(queue: string, bodies: seq<Broker.Body>, max: nat): multiset<Broker.Item> {
    if bodies == [] || max == 0 then multiset{}
    else
      (if bodies[0].Valid? then multiset{} else multiset{Broker.Item(queue, bodies[0])})
      + Rejected(queue, bodies[1..], if bodies[0].Empty? then max else max - 1)
  }

  /** Those of the first n queues. */
  ghost function RejectedUpTo(setup: Setup, queued: seq<Broker.Item>, n: nat): multiset<Broker.Item>
    requires n <= |setup.modelQueues|
  {
    if n == 0 then multiset{} else RejectedUpTo(setup, queued, n - 1) + RejectedFrom(setup, queued, n - 1)
  }

  ghost function RejectedFrom(setup: Setup, queued: seq<Broker.Item>, i: nat): multiset<Broker.Item>
    requires i < |setup.modelQueues|
  {
    Rejected(setup.modelQueues[i].1, BodiesIn(setup, queued, i), setup.pollSize(setup.modelQueues[i].0))
  }

  /** Valid messages of one queue, in the order of their tags. */
  ghost predicate Delivered(queue: string, batch: seq<Delivery>) {
    && (forall k :: 0 <= k < |batch| ==> batch[k].item.body.Valid? && batch[k].item.queue == queue)
    && Broker.Ascending(batch)
  }

  ghost predicate DistinctQueues(setup: Setup) {
    forall i, j :: 0 <= i < j < |setup.modelQueues| ==> setup.modelQueues[i].1 != setup.modelQueues[j].1
  }

  /** No queue yielded a valid message: all were polled, and what they yielded was dead-lettered. */
  ghost predicate FoundNothing(setup: Setup, before: View, after: View) {
    && after.model == before.model
    && after.channel.unacked == before.channel.unacked && after.channel.acked == before.channel.acked
    && after.channel.dead == before.channel.dead + RejectedUpTo(setup, before.channel.queued, |setup.modelQueues|)
    && (forall j :: 0 <= j < |setup.modelQueues| ==> Waiting(setup, before.channel.queued, j) == [])
    && PolledUpTo(setup, before.channel.queued, after.channel.queued, |setup.modelQueues|)
  }

  /** Queue i is the first that yielded a valid message; its batch went to its own model, and exactly the
      positions of the outcome were settled as the outcome says. What else was polled is dead-lettered. */
  ghost predicate ServedQueue(setup: Setup, o: W.Oracle, before: View, after: View, i: nat, batch: seq<Delivery>,
                              out: W.Outcome) {
    && i < |setup.modelQueues|
    && (forall j :: 0 <= j < i ==> Waiting(setup, before.channel.queued, j) == [])
    && Waiting(setup, before.channel.queued, i) == W.TasksOf(batch) != []
    && Delivered(setup.modelQueues[i].1, batch)
    && PolledUpTo(setup, before.channel.queued, after.channel.queued, i + 1)
    && var name := setup.modelQueues[i].0;
       var warm := before.model == Some(name);
       var dead := before.channel.dead + RejectedUpTo(setup, before.channel.queued, i + 1);
       && out == W.BatchOutcome(W.TasksOf(batch), warm, setup.hasReranker, o)
       && after.model == (if warm || o.loads then Some(name) else None)
       && match out
          case Raises =>
            && after.channel.unacked == before.channel.unacked + batch && after.channel.acked == before.channel.acked
            && after.channel.dead == dead
          case Settles(ok, failed) =>
            && after.channel.unacked
               == before.channel.unacked + Broker.Keep(batch, TagsAt(batch, ok) + TagsAt(batch, failed))
            && after.channel.acked == before.channel.acked + ItemsAt(batch, ok)
            && after.channel.dead == dead + ItemsAt(batch, failed)
  }

  ghost predicate Scanned(setup: Setup, o: W.Oracle, before: View, after: View, served: Option<nat>, batch: seq<Delivery>,
                          out: W.Outcome) {
    if served.None? then FoundNothing(setup, before, after)
    else ServedQueue(setup, o, before, after, served.value, batch, out)
  }

  lemma NothingPolled(setup: Setup, queued: seq<Broker.Item>)
    ensures PolledUpTo(setup, queued, queued, 0)
  {
  }

  lemma NotYetPolled(setup: Setup, before: seq<Broker.Item>, now: seq<Broker.Item>, i: nat)
    requires i < |setup.modelQueues| && PolledUpTo(setup, before, now, i)
    requires DistinctQueues(setup)
    ensures BodiesIn(setup, now, i) == BodiesIn(setup, before, i)
  {
    hide Broker.QueueOf, W.Pulled;
    assert Unpolled(setup, setup.modelQueues[i].1, i);
  }

  lemma OneMorePolled(setup: Setup, before: seq<Broker.Item>, now: seq<Broker.Item>, after: seq<Broker.Item>, i: nat)
    requires i < |setup.modelQueues| && PolledUpTo(setup, before, now, i)
    requires DistinctQueues(setup)
    requires BodiesIn(setup, after, i) == Remaining(setup, before, i)
    requires forall q :: q != setup.modelQueues[i].1 ==> Broker.QueueOf(after, q) == Broker.QueueOf(now, q)
    ensures PolledUpTo(setup, before, after, i + 1)
  {
    hide Broker.QueueOf, W.Pulled;
    forall q | Unpolled(setup, q, i + 1) ensures Broker.QueueOf(after, q) == Broker.QueueOf(before, q) {
      assert Unpolled(setup, q, i);
    }
  }

  // ---------------------------------------------------- every message is accounted for

  /** The messages of one queue. */
  function Cell(queue: string, bodies: seq<Broker.Body>): multiset<Broker.Item> {
    if bodies == [] then multiset{} else multiset{Broker.Item(queue, bodies[0])} + Cell(queue, bodies[1..])
  }

  function Accepted(queue: string, tasks: seq<W.Task>): seq<Broker.Item> {
    seq(|tasks|, i requires 0 <= i < |tasks| => Broker.Item(queue, Broker.Valid(tasks[i])))
  }

  lemma AcceptedCons(queue: string, t: W.Task, rest: seq<W.Task>)
    ensures multiset(Accepted(queue, [t] + rest)) == multiset{Broker.Item(queue, Broker.Valid(t))} + multiset(Accepted(queue, rest))
  {
    assert Accepted(queue, [t] + rest) == [Broker.Item(queue, Broker.Valid(t))] + Accepted(queue, rest);
  }

  /** A poll takes messages off the front of its queue: some do not parse, the others are its batch. */
  lemma {:induction false} PollSplits(queue: string, bodies: seq<Broker.Body>, max: nat)
    ensures Cell(queue, bodies)
         == Cell(queue, bodies[W.Pulled(bodies, max)..]) + Rejected(queue, bodies, max)
            + multiset(Accepted(queue, W.Batch(bodies, max)))
  {
    if bodies == [] || max == 0 {
      assert bodies[0..] == bodies;
    } else {
      var rest, left := bodies[1..], if bodies[0].Empty? then max else max - 1;
      PollSplits(queue, rest, left);
      assert bodies[1 + W.Pulled(rest, left)..] == rest[W.Pulled(rest, left)..];
      if bodies[0].Valid? {
        AcceptedCons(queue, bodies[0].task, W.Batch(rest, left));
      }
    }
  }

  lemma {:induction false} OnlyOwnQueue(queue: string, bodies: seq<Broker.Body>, max: nat, x: Broker.Item)
    requires x.queue != queue
    ensures Rejected(queue, bodies, max)[x] == 0
  {
    if bodies != [] && max > 0 {
      OnlyOwnQueue(queue, bodies[1..], if bodies[0].Empty? then max else max - 1, x);
    }
  }

  /** A message is queued as often as it is in its own queue. */
  lemma {:induction false} InItsCell(queued: seq<Broker.Item>, x: Broker.Item)
    ensures multiset(queued)[x] == Cell(x.queue, Broker.QueueOf(queued, x.queue))[x]
  {
    if queued == [] {
      assert Broker.QueueOf(queued, x.queue) == [];
    } else {
      var first, rest := queued[0], queued[1..];
      InItsCell(rest, x);
      assert queued == [first] + rest;
      assert multiset(queued) == multiset{first} + multiset(rest);
      Broker.QueueCons(first, rest, x.queue);
      if first.queue == x.queue {
        CellCons(x.queue, first.body, Broker.QueueOf(rest, x.queue));
        assert first == Broker.Item(x.queue, first.body);
      } else {
        assert [] + Broker.QueueOf(rest, x.queue) == Broker.QueueOf(rest, x.queue);
      }
    }
  }

  lemma CellCons(queue: string, body: Broker.Body, rest: seq<Broker.Body>)
    ensures Cell(queue, [body] + rest) == multiset{Broker.Item(queue, body)} + Cell(queue, rest)
  {
    assert ([body] + rest)[1..] == rest;
  }

  lemma {:induction false} NotPolledNotRejected(setup: Setup, queued: seq<Broker.Item>, n: nat, x: Broker.Item)
    requires n <= |setup.modelQueues| && Unpolled(setup, x.queue, n)
    ensures RejectedUpTo(setup, queued, n)[x] == 0
  {
    hide Rejected;
    if n > 0 {
      assert Unpolled(setup, x.queue, n - 1);
      NotPolledNotRejected(setup, queued, n - 1, x);
      OnlyOwnQueue(setup.modelQueues[n - 1].1, BodiesIn(setup, queued, n - 1), setup.pollSize(setup.modelQueues[n - 1].0), x);
    }
  }

  lemma {:induction false} RejectedByItsQueue(setup: Setup, queued: seq<Broker.Item>, n: nat, j: nat, x: Broker.Item)
    requires DistinctQueues(setup) && j < n <= |setup.modelQueues| && x.queue == setup.modelQueues[j].1
    ensures RejectedUpTo(setup, queued, n)[x] == RejectedFrom(setup, queued, j)[x]
    decreases n
  {
    hide Rejected;
    if j < n - 1 {
      RejectedByItsQueue(setup, queued, n - 1, j, x);
      OnlyOwnQueue(setup.modelQueues[n - 1].1, BodiesIn(setup, queued, n - 1), setup.pollSize(setup.modelQueues[n - 1].0), x);
    } else {
      NotPolledNotRejected(setup, queued, j, x);
    }
  }

  /** The batch of the first n queues: the last may have yielded valid messages, the others did not. */
  ghost predicate Yielded(setup: Setup, queued: seq<Broker.Item>, n: nat, batch: seq<Delivery>)
    requires n <= |setup.modelQueues|
  {
    && (forall j :: 0 <= j < n - 1 ==> Waiting(setup, queued, j) == [])
    && if n == 0 then batch == []
       else Delivered(setup.modelQueues[n - 1].1, batch) && W.TasksOf(batch) == Waiting(setup, queued, n - 1)
  }

  lemma BatchItems(queue: string, batch: seq<Delivery>)
    requires Delivered(queue, batch)
    ensures Broker.Items(batch) == Accepted(queue, W.TasksOf(batch))
  {
    hide W.TasksOf;
    AllValid(batch);
  }

  /** How often a message was polled in its own queue, and what became of it. */
  lemma TakenFromItsQueue(setup: Setup, before: seq<Broker.Item>, n: nat, batch: seq<Delivery>, j: nat, x: Broker.Item)
    requires n <= |setup.modelQueues| && j < n && x.queue == setup.modelQueues[j].1 && DistinctQueues(setup)
    requires Yielded(setup, before, n, batch)
    ensures multiset(before)[x]
         == Cell(x.queue, Remaining(setup, before, j))[x] + RejectedFrom(setup, before, j)[x] + multiset(Broker.Items(batch))[x]
  {
    hide Cell, Rejected, Broker.QueueOf, W.Batch, W.Pulled, W.TasksOf;
    InItsCell(before, x);
    PollSplits(x.queue, BodiesIn(setup, before, j), setup.pollSize(setup.modelQueues[j].0));
    BatchItems(setup.modelQueues[n - 1].1, batch);
    if j < n - 1 {
      assert Waiting(setup, before, j) == [];
      if x in Broker.Items(batch) {
        assert false;
      }
    }
  }

  lemma CountsAgree(setup: Setup, before: seq<Broker.Item>, after: seq<Broker.Item>, n: nat, batch: seq<Delivery>, x: Broker.Item)
    requires DistinctQueues(setup) && n <= |setup.modelQueues|
    requires PolledUpTo(setup, before, after, n) && Yielded(setup, before, n, batch)
    ensures multiset(before)[x]
         == multiset(after)[x] + RejectedUpTo(setup, before, n)[x] + multiset(Broker.Items(batch))[x]
  {
    hide Cell, Rejected, Broker.QueueOf, W.Batch, W.Pulled, W.TasksOf, RejectedFrom, RejectedUpTo;
    InItsCell(after, x);
    if Unpolled(setup, x.queue, n) {
      InItsCell(before, x);
      NotPolledNotRejected(setup, before, n, x);
      if x in Broker.Items(batch) {
        assert false;
      }
    } else {
      var j :| 0 <= j < n && setup.modelQueues[j].1 == x.queue;
      RejectedByItsQueue(setup, before, n, j, x);
      TakenFromItsQueue(setup, before, n, batch, j, x);
      assert BodiesIn(setup, after, j) == Remaining(setup, before, j);
    }
  }

  /** What was queued is still queued, rejected, or in the batch. */
  lemma PollingAccounts(setup: Setup, before: seq<Broker.Item>, after: seq<Broker.Item>, n: nat, batch: seq<Delivery>)
    requires DistinctQueues(setup) && n <= |setup.modelQueues|
    requires PolledUpTo(setup, before, after, n) && Yielded(setup, before, n, batch)
    ensures multiset(before) == multiset(after) + RejectedUpTo(setup, before, n) + multiset(Broker.Items(batch))
  {
    hide PolledUpTo, Yielded, RejectedUpTo;
    forall x ensures multiset(before)[x]
                  == (multiset(after) + RejectedUpTo(setup, before, n) + multiset(Broker.Items(batch)))[x] {
      CountsAgree(setup, before, after, n, batch, x);
    }
  }

  lemma SettlingOne(batch: seq<Delivery>, gone: set<nat>, p: nat)
    requires Broker.Ascending(batch) && p < |batch| && batch[p].tag !in gone
    ensures multiset(Broker.Items(Broker.Keep(batch, gone)))
         == multiset(Broker.Items(Broker.Keep(batch, gone + {batch[p].tag}))) + multiset{batch[p].item}
  {
    hide Broker.Keep, Broker.Items, Broker.Has, Broker.Ascending;
    assert [] + batch == batch;
    var now := Broker.Keep(batch, gone);
    StillOutstanding(now, [], batch, gone, p);
    ItsOwnItem(now, [], batch, gone, p);
    Broker.KeepAscending(batch, gone);
    Broker.RemoveOne(now, Broker.IndexOf(now, batch[p].tag));
    Broker.KeepTwice(batch, gone, {batch[p].tag});
  }

  /** Settling the given positions takes exactly their messages out. */
  lemma {:induction false} SettlingSplits(batch: seq<Delivery>, gone: set<nat>, ps: seq<nat>)
    requires Broker.Ascending(batch) && Distinct(ps) && forall p :: p in ps ==> p < |batch| && batch[p].tag !in gone
    ensures multiset(Broker.Items(Broker.Keep(batch, gone)))
         == multiset(Broker.Items(Broker.Keep(batch, gone + TagsAt(batch, ps)))) + ItemsAt(batch, ps)
  {
    hide Broker.Keep, Broker.Items, TagsAt, Broker.Ascending, ItemsAt;
    if ps == [] {
      NoTags(batch);
      NoItems(batch);
      assert gone + {} == gone;
    } else {
      var n := |ps| - 1;
      var first, p := ps[..n], ps[n];
      assert p in ps && ps[..n + 1] == ps && [] + batch == batch && forall q :: q in first ==> q in ps;
      SettlingSplits(batch, gone, first);
      DistinctBefore(ps, n);
      TagNotSettled([], batch, first, p);
      SettlingOne(batch, gone + TagsAt(batch, first), p);
      TagsGrow(batch, ps, n);
      ItemsGrow(batch, ps, n);
      assert (gone + TagsAt(batch, first)) + {batch[p].tag} == gone + TagsAt(batch, ps);
    }
  }

  lemma NotYetGone(batch: seq<Delivery>, ok: seq<nat>, failed: seq<nat>)
    requires Broker.Ascending(batch) && forall p :: p in failed ==> p < |batch| && p !in ok
    ensures forall p :: p in failed ==> batch[p].tag !in TagsAt(batch, ok)
  {
    hide Broker.Ascending;
    assert [] + batch == batch;
    forall p | p in failed ensures batch[p].tag !in TagsAt(batch, ok) {
      TagNotSettled([], batch, ok, p);
    }
  }

  /** The messages of a batch are acknowledged, dead-lettered or still outstanding. */
  lemma BatchAccounts(batch: seq<Delivery>, ok: seq<nat>, failed: seq<nat>)
    requires Broker.Ascending(batch) && W.Proper(W.Settles(ok, failed), |batch|)
    ensures multiset(Broker.Items(batch))
         == multiset(Broker.Items(Broker.Keep(batch, TagsAt(batch, ok) + TagsAt(batch, failed))))
            + ItemsAt(batch, ok) + ItemsAt(batch, failed)
  {
    hide Broker.Ascending, TagsAt, ItemsAt;
    Broker.KeepAll(batch, {});
    SettlingSplits(batch, {}, ok);
    NotYetGone(batch, ok, failed);
    assert {} + TagsAt(batch, ok) == TagsAt(batch, ok);
    SettlingSplits(batch, TagsAt(batch, ok), failed);
  }

  /** If the total is unchanged and the batch is all that is held, the rest of what was polled is dead. */
  lemma RestIsRejected(setup: Setup, before: Broker.View, after: Broker.View, n: nat, batch: seq<Delivery>)
    requires DistinctQueues(setup) && n <= |setup.modelQueues|
    requires PolledUpTo(setup, before.queued, after.queued, n) && Yielded(setup, before.queued, n, batch)
    requires Broker.TotalOf(after) == Broker.TotalOf(before)
    requires after.unacked == before.unacked + batch && after.acked == before.acked
    ensures after.dead == before.dead + RejectedUpTo(setup, before.queued, n)
  {
    hide PolledUpTo, Yielded, RejectedUpTo, Broker.Items;
    PollingAccounts(setup, before.queued, after.queued, n, batch);
    Broker.ItemsAppend(before.unacked, batch);
    Cancel(multiset(before.queued), multiset(after.queued), RejectedUpTo(setup, before.queued, n),
           multiset(Broker.Items(batch)), multiset(Broker.Items(before.unacked)), before.acked, before.dead, after.dead);
  }

  lemma Cancel(queued: multiset<Broker.Item>, left: multiset<Broker.Item>, rejected: multiset<Broker.Item>,
               batch: multiset<Broker.Item>, out: multiset<Broker.Item>, acked: multiset<Broker.Item>,
               dead: multiset<Broker.Item>, deadAfter: multiset<Broker.Item>)
    requires queued == left + rejected + batch
    requires left + (out + batch) + acked + deadAfter == queued + out + acked + dead
    ensures deadAfter == dead + rejected
  {
    forall x ensures deadAfter[x] == (dead + rejected)[x] {
      assert (left + (out + batch) + acked + deadAfter)[x] == (queued + out + acked + dead)[x];
    }
  }

  lemma NothingServed(setup: Setup, before: View, after: View)
    requires DistinctQueues(setup) && FoundNothing(setup, before, after)
    ensures Broker.TotalOf(after.channel) == Broker.TotalOf(before.channel)
  {
    hide PolledUpTo, RejectedUpTo, Waiting, Broker.Items;
    NothingYielded(setup, before.channel.queued);
    PollingAccounts(setup, before.channel.queued, after.channel.queued, |setup.modelQueues|, []);
  }

  lemma NothingYielded(setup: Setup, queued: seq<Broker.Item>)
    requires forall j :: 0 <= j < |setup.modelQueues| ==> Waiting(setup, queued, j) == []
    ensures Yielded(setup, queued, |setup.modelQueues|, []) && multiset(Broker.Items([])) == multiset{}
  {
  }

  /** The four places a message can be in, before and after a batch is settled. */
  lemma Balance(queued: multiset<Broker.Item>, left: multiset<Broker.Item>, rejected: multiset<Broker.Item>,
                batch: multiset<Broker.Item>, out: multiset<Broker.Item>, held: multiset<Broker.Item>,
                acked: multiset<Broker.Item>, dead: multiset<Broker.Item>, ok: multiset<Broker.Item>,
                failed: multiset<Broker.Item>)
    requires queued == left + rejected + batch && batch == held + ok + failed
    ensures left + (out + held) + (acked + ok) + (dead + rejected + failed) == queued + out + acked + dead
  {
  }

  lemma QueueServed(setup: Setup, o: W.Oracle, before: View, after: View, i: nat, batch: seq<Delivery>, result: W.Outcome)
    requires DistinctQueues(setup) && ServedQueue(setup, o, before, after, i, batch, result)
    ensures Broker.TotalOf(after.channel) == Broker.TotalOf(before.channel)
  {
    hide PolledUpTo, RejectedUpTo, Waiting, Broker.Items, W.TasksOf, W.BatchOutcome, TagsAt, ItemsAt, Broker.Keep, W.Proper,
      Broker.Ascending;
    var b, a := before.channel, after.channel;
    PollingAccounts(setup, b.queued, a.queued, i + 1, batch);
    var rejected := RejectedUpTo(setup, b.queued, i + 1);
    var items := multiset(Broker.Items(batch));
    match result
    case Raises =>
      Broker.ItemsAppend(b.unacked, batch);
      Balance(multiset(b.queued), multiset(a.queued), rejected, items, multiset(Broker.Items(b.unacked)), items,
              b.acked, b.dead, multiset{}, multiset{});
    case Settles(ok, failed) =>
      var held := Broker.Keep(batch, TagsAt(batch, ok) + TagsAt(batch, failed));
      W.BatchIsProper(W.TasksOf(batch), before.model == Some(setup.modelQueues[i].0), setup.hasReranker, o);
      AllValid(batch);
      BatchAccounts(batch, ok, failed);
      Broker.ItemsAppend(b.unacked, held);
      Balance(multiset(b.queued), multiset(a.queued), rejected, items, multiset(Broker.Items(b.unacked)),
              multiset(Broker.Items(held)), b.acked, b.dead, ItemsAt(batch, ok), ItemsAt(batch, failed));
  }

  /** The parts a scan pins down, queue by queue and position by position, leave no message out and count
      none twice. */
  lemma ScannedAccounts(setup: Setup, o: W.Oracle, before: View, after: View, served: Option<nat>, batch: seq<Delivery>,
                        out: W.Outcome)
    requires DistinctQueues(setup) && Scanned(setup, o, before, after, served, batch, out)
    ensures Broker.TotalOf(after.channel) == Broker.TotalOf(before.channel)
  {
    hide FoundNothing, ServedQueue, Broker.TotalOf;
    if served.None? {
      NothingServed(setup, before, after);
    } else {
      QueueServed(setup, o, before, after, served.value, batch, out);
    }
  }

  lemma {:induction false} AllValid(batch: seq<Delivery>)
    requires forall i :: 0 <= i < |batch| ==> batch[i].item.body.Valid?
    ensures |W.TasksOf(batch)| == |batch|
    ensures forall i :: 0 <= i < |batch| ==> W.TasksOf(batch)[i] == batch[i].item.body.task
  {
    if batch != [] {
      AllValid(batch[..|batch| - 1]);
    }
  }

  // ------------------------------------------------- the operations a scan consists of

  function Settlings(batch: seq<Delivery>, ps: seq<nat>, ok: bool): seq<Broker.Operation>
    requires forall i :: 0 <= i < |ps| ==> ps[i] < |batch|
  {
    seq(|ps|, i requires 0 <= i < |ps| => Broker.Settling(batch[ps[i]].tag, ok))
  }

  /** The acknowledgements and rejections at the end of a batch. */
  function SettleOps(batch: seq<Delivery>, out: W.Outcome): seq<Broker.Operation>
    requires W.Proper(out, |batch|)
  {
    match out
    case Raises => []
    case Settles(ok, failed) =>
      assert forall i :: 0 <= i < |ok| ==> ok[i] in ok;
      assert forall i :: 0 <= i < |failed| ==> failed[i] in failed;
      Settlings(batch, ok, true) + Settlings(batch, failed, false)
  }

  /** A whole scan: the relation above, performed one broker operation at a time, polling first. */
  ghost predicate Performed(setup: Setup, o: W.Oracle, before: View, after: View, served: Option<nat>,
                            batch: seq<Delivery>, out: W.Outcome, polls: seq<Broker.Operation>) {
    && Scanned(setup, o, before, after, served, batch, out) && W.Proper(out, |batch|)
    && Broker.Performs(before.channel, polls + SettleOps(batch, out), after.channel)
  }

  // ------------------------------------------------------ what becomes of each delivery

  /** The messages at the chosen positions below n. */
  ghost function ItemsOf(batch: seq<Delivery>, chosen: set<nat>, n: nat): multiset<Broker.Item>
    requires n <= |batch|
  {
    if n == 0 then multiset{}
    else ItemsOf(batch, chosen, n - 1) + if n - 1 in chosen then multiset{batch[n - 1].item} else multiset{}
  }

  lemma NothingBelow(batch: seq<Delivery>, chosen: set<nat>)
    ensures ItemsOf(batch, chosen, 0) == multiset{}
  {}

  lemma CountNext(batch: seq<Delivery>, chosen: set<nat>, n: nat, x: Broker.Item)
    requires 0 < n <= |batch|
    ensures ItemsOf(batch, chosen, n)[x]
         == ItemsOf(batch, chosen, n - 1)[x] + if n - 1 in chosen && batch[n - 1].item == x then 1 else 0
  {}

  lemma {:induction false} CountWithout(batch: seq<Delivery>, chosen: set<nat>, p: nat, n: nat, x: Broker.Item)
    requires n <= |batch| && p in chosen
    ensures ItemsOf(batch, chosen, n)[x]
         == ItemsOf(batch, chosen - {p}, n)[x] + if p < n && batch[p].item == x then 1 else 0
  {
    hide ItemsOf;
    if n == 0 {
      NothingBelow(batch, chosen);
      NothingBelow(batch, chosen - {p});
    } else {
      CountWithout(batch, chosen, p, n - 1, x);
      CountNext(batch, chosen, n, x);
      CountNext(batch, chosen - {p}, n, x);
    }
  }

  lemma ItemsWithout(batch: seq<Delivery>, chosen: set<nat>, p: nat)
    requires p < |batch| && p in chosen
    ensures ItemsOf(batch, chosen, |batch|) == ItemsOf(batch, chosen - {p}, |batch|) + multiset{batch[p].item}
  {
    hide ItemsOf;
    forall x ensures ItemsOf(batch, chosen, |batch|)[x]
                  == (ItemsOf(batch, chosen - {p}, |batch|) + multiset{batch[p].item})[x] {
      CountWithout(batch, chosen, p, |batch|, x);
    }
  }

  lemma {:induction false} NoneChosen(batch: seq<Delivery>, n: nat)
    requires n <= |batch|
    ensures ItemsOf(batch, {}, n) == multiset{}
  {
    if n > 0 {
      NoneChosen(batch, n - 1);
    }
  }

  /** The order in which positions are settled does not matter for what is settled. */
  lemma {:induction false} ItemsAtAre(batch: seq<Delivery>, ps: seq<nat>, chosen: set<nat>)
    requires Distinct(ps) && (forall p :: p in ps ==> p < |batch|) && forall p :: p in ps <==> p in chosen
    ensures ItemsAt(batch, ps) == ItemsOf(batch, chosen, |batch|)
  {
    if ps == [] {
      assert chosen == {};
      NoneChosen(batch, |batch|);
    } else {
      var n := |ps| - 1;
      var p := ps[n];
      assert p in ps && forall q :: q in ps <==> q in ps[..n] || q == p;
      DistinctBefore(ps, n);
      ItemsAtAre(batch, ps[..n], chosen - {p});
      ItemsWithout(batch, chosen, p);
    }
  }

  ghost function Good(tasks: seq<W.Task>, warm: bool, o: W.Oracle): set<nat> {
    set p: nat | p < |tasks| && W.Acknowledged(tasks, warm, o, p)
  }

  ghost function Bad(tasks: seq<W.Task>, warm: bool, o: W.Oracle): set<nat> {
    set p: nat | p < |tasks| && W.DeadLettered(tasks, warm, o, p)
  }

  /** Delivery by delivery: acknowledged are those whose handler succeeded, dead-lettered those whose
      handler failed and what does not parse, and the others stay outstanding; after an exception all do. */
  ghost predicate Settled(setup: Setup, o: W.Oracle, before: View, after: View, i: nat, batch: seq<Delivery>) {
    && i < |setup.modelQueues| && W.TasksOf(batch) != [] && |W.TasksOf(batch)| == |batch|
    && var tasks, warm := W.TasksOf(batch), before.model == Some(setup.modelQueues[i].0);
       var dead := before.channel.dead + RejectedUpTo(setup, before.channel.queued, i + 1);
       if W.Throws(tasks, warm, setup.hasReranker, o) then
         && after.channel.acked == before.channel.acked && after.channel.dead == dead
         && after.channel.unacked == before.channel.unacked + batch
       else
         && after.channel.acked == before.channel.acked + ItemsOf(batch, Good(tasks, warm, o), |batch|)
         && after.channel.dead == dead + ItemsOf(batch, Bad(tasks, warm, o), |batch|)
         && before.channel.unacked <= after.channel.unacked
         && (forall p: nat :: p < |batch| ==>
               (batch[p] in after.channel.unacked[|before.channel.unacked|..]
                <==> !W.Acknowledged(tasks, warm, o, p) && !W.DeadLettered(tasks, warm, o, p)))
  }

  lemma TagSettledIff(batch: seq<Delivery>, ps: seq<nat>, p: nat)
    requires Broker.Ascending(batch) && p < |batch|
    ensures batch[p].tag in TagsAt(batch, ps) <==> p in ps
  {
    assert [] + batch == batch;
    if p !in ps {
      TagNotSettled([], batch, ps, p);
    } else {
      var i :| 0 <= i < |ps| && ps[i] == p;
      assert batch[ps[i]].tag in TagsAt(batch, ps);
    }
  }

  lemma StaysOutstanding(batch: seq<Delivery>, ok: seq<nat>, failed: seq<nat>, p: nat)
    requires Broker.Ascending(batch) && p < |batch|
    ensures batch[p] in Broker.Keep(batch, TagsAt(batch, ok) + TagsAt(batch, failed)) <==> p !in ok && p !in failed
  {
    hide TagsAt, Broker.Keep, Broker.Ascending;
    Broker.KeepIsPart(batch, TagsAt(batch, ok) + TagsAt(batch, failed));
    TagSettledIff(batch, ok, p);
    TagSettledIff(batch, failed, p);
  }

  lemma ServedIsSettled(setup: Setup, o: W.Oracle, before: View, after: View, i: nat, batch: seq<Delivery>, out: W.Outcome)
    requires ServedQueue(setup, o, before, after, i, batch, out)
    ensures Settled(setup, o, before, after, i, batch)
  {
    hide PolledUpTo, RejectedUpTo, Waiting, W.TasksOf, W.BatchOutcome, TagsAt, ItemsAt, Broker.Keep, Broker.Ascending,
      W.Acknowledged, W.DeadLettered, W.Throws, ItemsOf;
    var tasks, warm := W.TasksOf(batch), before.model == Some(setup.modelQueues[i].0);
    AllValid(batch);
    W.BatchOutcomeIs(tasks, warm, setup.hasReranker, o);
    W.BatchIsProper(tasks, warm, setup.hasReranker, o);
    if out.Settles? {
      ItemsAtAre(batch, out.ok, Good(tasks, warm, o));
      ItemsAtAre(batch, out.failed, Bad(tasks, warm, o));
      var kept := Broker.Keep(batch, TagsAt(batch, out.ok) + TagsAt(batch, out.failed));
      assert after.channel.unacked[|before.channel.unacked|..] == kept;
      forall p: nat | p < |batch|
        ensures batch[p] in kept <==> !W.Acknowledged(tasks, warm, o, p) && !W.DeadLettered(tasks, warm, o, p)
      {
        StaysOutstanding(batch, out.ok, out.failed, p);
      }
    }
  }
}
