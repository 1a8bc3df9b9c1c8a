/** The worker's loop over a broker channel. */
module GpuWorker {

  import opened Basics
  import Broker
  import W = Worker
  import opened Scans

  // -------------------------------------------------------------- facts about a poll

  lemma {:induction false} TasksAppend(ds: seq<Delivery>, d: Delivery)
    ensures W.TasksOf(ds + [d]) == W.TasksOf(ds) + if d.item.body.Valid? then [d.item.body.task] else []
    ensures W.ValidOnes(ds + [d]) == W.ValidOnes(ds) + if d.item.body.Valid? then [d] else []
  {
    assert (ds + [d])[..|ds|] == ds;
  }

  lemma NothingPulled()
    ensures W.TasksOf([]) == [] && W.ValidOnes([]) == [] && forall bodies :: W.Batch(bodies, 0) == [] && W.Pulled(bodies, 0) == 0
  {
  }

  lemma NothingLeft(bodies: seq<Broker.Body>, max: nat)
    requires bodies == []
    ensures W.Batch(bodies, max) == [] && W.Pulled(bodies, max) == 0
  {
  }

  lemma PullOne(body: Broker.Body, rest: seq<Broker.Body>, room: nat)
    requires room > 0
    ensures var left := if body.Empty? then room else room - 1;
            && W.Pulled([body] + rest, room) == 1 + W.Pulled(rest, left)
            && W.Batch([body] + rest, room) == (if body.Valid? then [body.task] else []) + W.Batch(rest, left)
  {
    assert ([body] + rest)[1..] == rest;
  }

  // ----------------------------------------------------------------------- the loop

  /** Dead-letters one outstanding delivery. */
  method Reject(channel: Broker.Channel, d: Delivery, ghost before: seq<Delivery>, ghost behind: seq<Delivery>)
    requires channel.Valid() && channel.unacked == before + [d] + behind
    modifies channel`unacked, channel`acked, channel`dead
    ensures channel.Valid() && channel.Total() == old(channel.Total()) && channel.unacked == before + behind
    ensures channel.acked == old(channel.acked) && Broker.Has(old(channel.unacked), d.tag)
    ensures channel.State() == Broker.Apply(old(channel.State()), Broker.Settling(d.tag, false))
  {
    hide Broker.Keep, Broker.TotalOf, Broker.AllBelow;
    Broker.KeepMiddle(before, d, behind);
    assert channel.unacked[|before|] == d;
    channel.Settle(d.tag, false);
  }

  method PollQueue(channel: Broker.Channel, queue: string, max: nat)
    returns (raw: seq<Delivery>, ops: seq<Broker.Operation>)
    requires channel.Valid()
    modifies channel
    ensures channel.Valid() && Broker.Performs(old(channel.State()), ops, channel.State())
    ensures forall k :: 0 <= k < |raw| ==> raw[k].item.queue == queue
    ensures channel.unacked == old(channel.unacked) + raw && |raw| <= max && channel.acked == old(channel.acked)
    ensures W.TasksOf(raw) == W.Batch(Broker.QueueOf(old(channel.queued), queue), max)
    ensures var bodies := Broker.QueueOf(old(channel.queued), queue);
            Broker.QueueOf(channel.queued, queue) == bodies[W.Pulled(bodies, max)..]
    ensures forall q :: q != queue ==> Broker.QueueOf(channel.queued, q) == Broker.QueueOf(old(channel.queued), q)
  {
    hide Broker.Keep, Broker.Everything, Broker.QueueOf, Broker.Ascending, Broker.AllBelow, W.Pulled, W.Batch, W.TasksOf,
      Broker.Performs, Broker.Apply, Broker.Has;
    NothingPulled();
    raw, ops := [], [];
    ghost var start := channel.State();
    Broker.PerformsNothing(start);
    ghost var bodies, base := Broker.QueueOf(channel.queued, queue), channel.unacked;
    ghost var taken: seq<Broker.Body>, rest := [], bodies;
    while |raw| < max
      invariant channel.Valid() && Broker.Performs(start, ops, channel.State())
      invariant forall k :: 0 <= k < |raw| ==> raw[k].item.queue == queue
      invariant channel.unacked == base + raw && |raw| <= max && channel.acked == old(channel.acked)
      invariant Broker.QueueOf(channel.queued, queue) == rest && bodies == taken + rest
      invariant W.Pulled(bodies, max) == |taken| + W.Pulled(rest, max - |raw|)
      invariant W.Batch(bodies, max) == W.TasksOf(raw) + W.Batch(rest, max - |raw|)
      invariant forall q :: q != queue ==> Broker.QueueOf(channel.queued, q) == Broker.QueueOf(old(channel.queued), q)
      decreases |channel.queued|
    {
      Broker.PerformsOneMore(start, ops, channel.State(), Broker.Getting(queue));
      var d := channel.Get(queue);
      ops := ops + [Broker.Getting(queue)];
      if d.None? {
        NothingLeft(rest, max - |raw|);
        break;
      }
      var body := d.value.item.body;
      ghost var now := Broker.QueueOf(channel.queued, queue);
      PullOne(body, now, max - |raw|);
      Reassociate(taken, [body], now);
      taken, rest := taken + [body], now;
      if body.Empty? {
        assert channel.unacked == (base + raw) + [d.value] + [];
        ghost var got := channel.State();
        Reject(channel, d.value, base + raw, []);
        Broker.PerformsOneMore(start, ops, got, Broker.Settling(d.value.tag, false));
        ops := ops + [Broker.Settling(d.value.tag, false)];
        assert (base + raw) + [] == base + raw;
      } else {
        TasksAppend(raw, d.value);
        Reassociate(W.TasksOf(raw), if body.Valid? then [body.task] else [], W.Batch(now, max - |raw| - 1));
        raw := raw + [d.value];
      }
    }
    assert rest == bodies[|taken|..];
  }

  method ParseBatch(channel: Broker.Channel, raw: seq<Delivery>, ghost base: seq<Delivery>)
    returns (batch: seq<Delivery>, ops: seq<Broker.Operation>)
    requires channel.Valid() && channel.unacked == base + raw
    modifies channel`unacked, channel`acked, channel`dead
    ensures channel.Valid() && Broker.Performs(old(channel.State()), ops, channel.State())
    ensures batch == W.ValidOnes(raw) && channel.unacked == base + batch && channel.acked == old(channel.acked)
  {
    hide Broker.ValidView, Broker.TotalOf, W.ValidOnes, W.TasksOf, Broker.Performs, Broker.Apply, Broker.Has;
    batch, ops := [], [];
    ghost var start := channel.State();
    Broker.PerformsNothing(start);
    assert raw[..0] == [] && base + [] + raw[0..] == base + raw;
    NothingPulled();
    for i := 0 to |raw|
      invariant channel.Valid() && Broker.Performs(start, ops, channel.State())
      invariant batch == W.ValidOnes(raw[..i]) && channel.unacked == (base + batch) + raw[i..]
      invariant channel.acked == old(channel.acked)
    {
      var d := raw[i];
      assert raw[..i + 1] == raw[..i] + [d] && raw[i..] == [d] + raw[i + 1..];
      TasksAppend(raw[..i], d);
      Reassociate(base + batch, [d], raw[i + 1..]);
      if d.item.body.Valid? {
        Reassociate(base, batch, [d]);
        batch := batch + [d];
      } else {
        ghost var now := channel.State();
        Reject(channel, d, base + batch, raw[i + 1..]);
        Broker.PerformsOneMore(start, ops, now, Broker.Settling(d.tag, false));
        ops := ops + [Broker.Settling(d.tag, false)];
      }
    }
    assert raw[..|raw|] == raw && raw[|raw|..] == [] && (base + batch) + [] == base + batch;
  }

  /** Settles one outstanding delivery. */
  method SettleOne(channel: Broker.Channel, d: Delivery, ok: bool)
    requires channel.Valid() && Broker.Has(channel.unacked, d.tag)
    requires channel.unacked[Broker.IndexOf(channel.unacked, d.tag)].item == d.item
    modifies channel`unacked, channel`acked, channel`dead
    ensures channel.Valid() && channel.State() == Broker.Apply(old(channel.State()), Broker.Settling(d.tag, ok))
    ensures channel.unacked == Broker.Keep(old(channel.unacked), {d.tag})
    ensures channel.acked == old(channel.acked) + (if ok then multiset{d.item} else multiset{})
    ensures channel.dead == old(channel.dead) + (if ok then multiset{} else multiset{d.item})
  {
    hide Broker.Keep, Broker.TotalOf, Broker.ValidView;
    channel.Settle(d.tag, ok);
  }

  /** Acknowledges or dead-letters the given positions of a batch, one after the other. */
  method SettleAll(channel: Broker.Channel, batch: seq<Delivery>, ps: seq<nat>, ok: bool,
                   ghost base: seq<Delivery>, ghost done: seq<nat>)
    requires channel.Valid() && Broker.Ascending(base + batch)
    requires channel.unacked == Broker.Keep(base + batch, TagsAt(batch, done))
    requires Distinct(ps) && (forall p :: p in ps ==> p !in done) && forall i :: 0 <= i < |ps| ==> ps[i] < |batch|
    modifies channel`unacked, channel`acked, channel`dead
    ensures channel.Valid() && Broker.Performs(old(channel.State()), Settlings(batch, ps, ok), channel.State())
    ensures channel.unacked == Broker.Keep(base + batch, TagsAt(batch, done) + TagsAt(batch, ps))
    ensures channel.acked == old(channel.acked) + (if ok then ItemsAt(batch, ps) else multiset{})
    ensures channel.dead == old(channel.dead) + (if ok then multiset{} else ItemsAt(batch, ps))
  {
    hide Broker.Keep, Broker.Everything, Broker.AllBelow, Broker.Ascending, TagsAt, Broker.Has, ItemsAt, Broker.Performs,
      Broker.Apply;
    ghost var start, ops := channel.State(), Settlings(batch, ps, ok);
    Broker.PerformsNothing(start);
    assert ops[..0] == [];
    NoItems(batch);
    assert ps[..0] == [];
    assert TagsAt(batch, ps[..0]) == {} by {
      NoTags(batch);
    }
    ghost var before := TagsAt(batch, done);
    assert before + {} == before;
    for i := 0 to |ps|
      invariant channel.Valid() && Broker.Performs(start, ops[..i], channel.State())
      invariant channel.unacked == Broker.Keep(base + batch, before + TagsAt(batch, ps[..i]))
      invariant channel.acked == old(channel.acked) + (if ok then ItemsAt(batch, ps[..i]) else multiset{})
      invariant channel.dead == old(channel.dead) + (if ok then multiset{} else ItemsAt(batch, ps[..i]))
    {
      var p := ps[i];
      assert p in ps;
      DistinctBefore(ps, i);
      TagNotSettled(base, batch, done, p);
      TagNotSettled(base, batch, ps[..i], p);
      StillOutstanding(channel.unacked, base, batch, before + TagsAt(batch, ps[..i]), p);
      ItsOwnItem(channel.unacked, base, batch, before + TagsAt(batch, ps[..i]), p);
      ItemsGrow(batch, ps, i);
      Broker.PerformsOneMore(start, ops[..i], channel.State(), Broker.Settling(batch[p].tag, ok));
      assert ops[..i + 1] == ops[..i] + [Broker.Settling(batch[p].tag, ok)];
      SettleOne(channel, batch[p], ok);
      Broker.KeepTwice(base + batch, before + TagsAt(batch, ps[..i]), {batch[p].tag});
      TagsGrow(batch, ps, i);
      assert before + TagsAt(batch, ps[..i]) + {batch[p].tag} == before + TagsAt(batch, ps[..i + 1]);
    }
    assert ps[..|ps|] == ps && ops[..|ops|] == ops;
  }

  /** Warm model, queues in priority order, and what one scan of them does. */
  class GpuEmbedWorker {
    const channel: Broker.Channel
    const setup: Setup
    var model: Option<string>
    var currentModelName: Option<string>

    constructor (channel: Broker.Channel, setup: Setup)
      ensures this.channel == channel && this.setup == setup && model == None && currentModelName == None
    {
      this.channel, this.setup := channel, setup;
      model, currentModelName := None, None;
    }

    ghost function State(): View
      reads this, channel
    {
      View(model, channel.State())
    }

    /** A model is resident exactly under the name it was loaded for, and no queue is listed twice. */
    ghost predicate Valid()
      reads this, channel
    {
      channel.Valid() && model == currentModelName && DistinctQueues(setup)
    }

    method UnloadModel()
      requires model == currentModelName
      modifies this`model, this`currentModelName
      ensures model == None && currentModelName == None
    {
      if model.None? {
        return;
      }
      model, currentModelName := None, None;
    }

    /** On failure the previous model is gone already. */
    method EnsureModel(name: string, loads: bool) returns (ok: bool)
      requires model == currentModelName
      modifies this`model, this`currentModelName
      ensures model == currentModelName
      ensures ok <==> old(model) == Some(name) || loads
      ensures model == if ok then Some(name) else None
    {
      if currentModelName == Some(name) {
        return true;
      }
      UnloadModel();
      if !loads {
        return false;
      }
      model := Some(name);
      currentModelName := Some(name);
      ok := true;
    }

    /** The batch is handed to the model of its own queue. */
    method ProcessBatch(tasks: seq<W.Task>, name: string, o: W.Oracle) returns (out: W.Outcome)
      requires tasks != [] && model == Some(name)
      ensures out == W.ProcessOutcome(tasks, setup.hasReranker, o)
    {
      if tasks[0].RankTask? {
        out := ProcessRerankBatch(tasks, o);
      } else {
        out := ProcessEmbedBatch(tasks, o);
      }
    }

    /** Queries first, one by one; then all chunk tasks in one call of the handler. */
    method ProcessEmbedBatch(tasks: seq<W.Task>, o: W.Oracle) returns (out: W.Outcome)
      ensures out == W.EmbedOutcome(tasks, o)
    {
      hide W.Answered, W.Where, W.ChunkResult;
      if o.raises {
        return W.Raises;
      }
      var queries, chunks := W.Where(tasks, |tasks|, false), W.Where(tasks, |tasks|, true);
      var ok: seq<nat>, failed: seq<nat> := [], [];
      NoneAsked(o.succeeds);
      assert queries[..0] == [];
      for i := 0 to |queries|
        invariant ok == W.Answered(queries[..i], o.succeeds, true)
        invariant failed == W.Answered(queries[..i], o.succeeds, false)
      {
        AnsweredStep(queries, i, o.succeeds);
        if o.succeeds(queries[i]) {
          ok := ok + [queries[i]];
        } else {
          failed := failed + [queries[i]];
        }
      }
      assert queries[..|queries|] == queries;
      var (okTasks, failTasks) := W.ChunkResult(tasks, o);
      W.ChunkResultInRange(tasks, o);
      out := W.Settles(ok + W.Through(chunks, okTasks), failed + W.Through(chunks, failTasks));
    }

    method ProcessRerankBatch(tasks: seq<W.Task>, o: W.Oracle) returns (out: W.Outcome)
      ensures out == W.RankOutcome(tasks, setup.hasReranker, o)
    {
      if o.raises || !setup.hasReranker {
        return W.Raises;
      }
      hide W.Judged;
      var ok: seq<nat>, failed: seq<nat> := [], [];
      NoneAnswered(o.succeeds);
      for p := 0 to |tasks|
        invariant forall i :: 0 <= i < p ==> tasks[i].RankTask?
        invariant ok == W.Judged(p, o.succeeds, true) && failed == W.Judged(p, o.succeeds, false)
      {
        if !tasks[p].RankTask? {
          return W.Raises;
        }
        AnsweredNext(p, o.succeeds);
        if o.succeeds(p) {
          ok := ok + [p];
        } else {
          failed := failed + [p];
        }
      }
      out := W.Settles(ok, failed);
    }

    /** Polls one queue and parses what it yields. `start` is what was queued when the scan began. */
    method TryQueue(i: nat, ghost start: seq<Broker.Item>) returns (batch: seq<Delivery>, ops: seq<Broker.Operation>)
      requires Valid() && i < |setup.modelQueues| && PolledUpTo(setup, start, channel.queued, i)
      modifies channel
      ensures Valid() && Broker.Performs(old(channel.State()), ops, channel.State())
      ensures channel.unacked == old(channel.unacked) + batch && channel.acked == old(channel.acked)
      ensures W.TasksOf(batch) == Waiting(setup, start, i) && Delivered(setup.modelQueues[i].1, batch)
      ensures PolledUpTo(setup, start, channel.queued, i + 1)
    {
      hide Broker.TotalOf, Broker.ValidView, Broker.QueueOf, PolledUpTo, W.Batch, W.Pulled, W.TasksOf, W.ValidOnes,
        Broker.Performs, Broker.ApplyAll;
      var (name, queue) := setup.modelQueues[i];
      ghost var base, first := channel.unacked, channel.State();
      NotYetPolled(setup, start, first.queued, i);
      var raw, polling := PollQueue(channel, queue, setup.pollSize(name));
      ghost var polled := channel.State();
      OneMorePolled(setup, start, first.queued, channel.queued, i);
      var parsing;
      batch, parsing := ParseBatch(channel, raw, base);
      ops := polling + parsing;
      Broker.PerformsThen(first, polling, polled, parsing, channel.State());
      ValidOnesAgain(raw);
      ValidOnesDelivered(queue, base, raw, channel.State());
    }

    /** One scan. The first queue whose poll yields a valid message is served with its own model; a
        lower queue is looked at only after every higher one yielded none. Of the served batch exactly
        the positions in the outcome are settled, and every message is still accounted for. */
    method Scan(o: W.Oracle)
      returns (served: Option<nat>, batch: seq<Delivery>, out: W.Outcome, polls: seq<Broker.Operation>)
      requires Valid()
      modifies this`model, this`currentModelName, channel
      ensures Valid() && Performed(setup, o, old(State()), State(), served, batch, out, polls)
      ensures served.Some? ==> Settled(setup, o, old(State()), State(), served.value, batch)
    {
      hide Broker.TotalOf, Broker.ValidView, Broker.QueueOf, PolledUpTo, Waiting, W.BatchOutcome, W.TasksOf,
        TagsAt, ItemsAt, Broker.Keep, Broker.Performs, Broker.ApplyAll, RejectedUpTo, Broker.Ascending, DistinctQueues, Settlings,
        Settled;
      batch, out, polls := [], W.Raises, [];
      ghost var start := channel.State();
      NothingPolled(setup, start.queued);
      Broker.PerformsNothing(start);
      for i := 0 to |setup.modelQueues|
        invariant Valid() && Broker.Performs(start, polls, channel.State())
        invariant model == old(model) && channel.unacked == start.unacked && channel.acked == start.acked
        invariant forall j :: 0 <= j < i ==> Waiting(setup, start.queued, j) == []
        invariant PolledUpTo(setup, start.queued, channel.queued, i)
      {
        ghost var before := channel.State();
        var parsed, ops := TryQueue(i, start.queued);
        Broker.PerformsThen(start, polls, before, ops, channel.State());
        polls := polls + ops;
        if parsed == [] {
          NoTasks();
          continue;
        }
        AllValid(parsed);
        Dropped(setup, start, polls, channel.State(), i + 1, parsed);
        ghost var polled := channel.State();
        out := ServeBatch(setup.modelQueues[i].0, parsed, o, start.unacked);
        batch := parsed;
        Broker.PerformsThen(start, polls, polled, SettleOps(batch, out), channel.State());
        ServedIsSettled(setup, o, old(State()), State(), i, batch, out);
        return Some(i), batch, out, polls;
      }
      NothingYielded(setup, start.queued);
      assert start.unacked + [] == start.unacked && polls + [] == polls;
      Dropped(setup, start, polls, channel.State(), |setup.modelQueues|, []);
      served := None;
    }

    /** Loads the model if need be, runs the batch, and settles what the outcome names. */
    method ServeBatch(name: string, batch: seq<Delivery>, o: W.Oracle, ghost base: seq<Delivery>) returns (out: W.Outcome)
      requires Valid() && batch != [] && channel.unacked == base + batch
      requires forall i :: 0 <= i < |batch| ==> batch[i].item.body.Valid?
      requires W.TasksOf(batch) != []
      modifies this`model, this`currentModelName, channel`unacked, channel`acked, channel`dead
      ensures Valid() && W.Proper(out, |batch|)
      ensures Broker.Performs(old(channel.State()), SettleOps(batch, out), channel.State())
      ensures out == W.BatchOutcome(W.TasksOf(batch), old(model) == Some(name), setup.hasReranker, o)
      ensures model == (if old(model) == Some(name) || o.loads then Some(name) else None)
      ensures out.Raises? ==> channel.State() == old(channel.State())
      ensures out.Settles? ==>
                && channel.unacked == base + Broker.Keep(batch, TagsAt(batch, out.ok) + TagsAt(batch, out.failed))
                && channel.acked == old(channel.acked) + ItemsAt(batch, out.ok)
                && channel.dead == old(channel.dead) + ItemsAt(batch, out.failed)
    {
      hide Broker.Keep, TagsAt, W.TasksOf, ItemsAt, Broker.Performs, Broker.ApplyAll, Broker.TotalOf, DistinctQueues,
        W.ProcessOutcome, W.Proper;
      var tasks := W.TasksOf(batch);
      AllValid(batch);
      var loaded := EnsureModel(name, o.loads);
      if !loaded {
        out := W.Settles([], Upto(|tasks|));
      } else {
        out := ProcessBatch(tasks, name, o);
      }
      W.BatchIsProper(tasks, old(model) == Some(name), setup.hasReranker, o);
      SettleOutcome(channel, batch, out, base);
    }
  }

  /** Acknowledges what went well and dead-letters what failed; after an exception nothing is settled. */
  method SettleOutcome(channel: Broker.Channel, batch: seq<Delivery>, out: W.Outcome, ghost base: seq<Delivery>)
    requires channel.Valid() && channel.unacked == base + batch && W.Proper(out, |batch|)
    modifies channel`unacked, channel`acked, channel`dead
    ensures channel.Valid() && Broker.Performs(old(channel.State()), SettleOps(batch, out), channel.State())
    ensures out.Raises? ==> channel.State() == old(channel.State())
    ensures out.Settles? ==>
              && channel.unacked == base + Broker.Keep(batch, TagsAt(batch, out.ok) + TagsAt(batch, out.failed))
              && channel.acked == old(channel.acked) + ItemsAt(batch, out.ok)
              && channel.dead == old(channel.dead) + ItemsAt(batch, out.failed)
  {
    hide Broker.Keep, TagsAt, ItemsAt, Broker.Performs, Settlings;
    ghost var start := channel.State();
    Broker.PerformsNothing(start);
    if out.Settles? {
      assert forall i :: 0 <= i < |out.ok| ==> out.ok[i] in out.ok;
      assert forall i :: 0 <= i < |out.failed| ==> out.failed[i] in out.failed;
      NothingSettledYet(base, batch);
      SettleAll(channel, batch, out.ok, true, base, []);
      ghost var half := channel.State();
      assert TagsAt(batch, []) + TagsAt(batch, out.ok) == TagsAt(batch, out.ok) by {
        NoTags(batch);
      }
      SettleAll(channel, batch, out.failed, false, base, out.ok);
      OnlyBatchGoes(base, batch, out.ok, out.failed);
      Broker.PerformsThen(start, Settlings(batch, out.ok, true), half, Settlings(batch, out.failed, false), channel.State());
    }
  }

  lemma NoTasks()
    ensures W.TasksOf([]) == []
  {
  }

  /** What the polls took and did not keep was dead-lettered. */
  lemma Dropped(setup: Setup, start: Broker.View, polls: seq<Broker.Operation>, now: Broker.View, n: nat, batch: seq<Delivery>)
    requires DistinctQueues(setup) && n <= |setup.modelQueues| && Broker.ValidView(start) && Broker.Performs(start, polls, now)
    requires PolledUpTo(setup, start.queued, now.queued, n) && Yielded(setup, start.queued, n, batch)
    requires now.unacked == start.unacked + batch && now.acked == start.acked
    ensures now.dead == start.dead + RejectedUpTo(setup, start.queued, n)
  {
    hide *;
    Broker.PerformsConserves(start, polls, now);
    RestIsRejected(setup, start, now, n, batch);
  }

  lemma {:induction false} ValidOnesFrom(raw: seq<Delivery>)
    ensures forall d :: d in W.ValidOnes(raw) ==> d in raw
  {
    if raw != [] {
      ValidOnesFrom(raw[..|raw| - 1]);
    }
  }

  lemma ValidOnesDelivered(queue: string, base: seq<Delivery>, raw: seq<Delivery>, now: Broker.View)
    requires forall k :: 0 <= k < |raw| ==> raw[k].item.queue == queue
    requires Broker.ValidView(now) && now.unacked == base + W.ValidOnes(raw)
    ensures Delivered(queue, W.ValidOnes(raw))
  {
    hide W.ValidOnes;
    var batch := W.ValidOnes(raw);
    ValidOnesFrom(raw);
    forall k | 0 <= k < |batch| ensures batch[k].item.queue == queue {
      assert batch[k] in raw;
    }
    forall i, j | 0 <= i < j < |batch| ensures batch[i].tag < batch[j].tag {
      assert now.unacked[|base| + i] == batch[i] && now.unacked[|base| + j] == batch[j];
    }
  }

  lemma NoneAsked(succeeds: nat -> bool)
    ensures W.Answered([], succeeds, true) == [] && W.Answered([], succeeds, false) == []
  {
  }

  lemma AnsweredStep(ps: seq<nat>, n: nat, succeeds: nat -> bool)
    requires n < |ps|
    ensures W.Answered(ps[..n + 1], succeeds, true)
         == W.Answered(ps[..n], succeeds, true) + if succeeds(ps[n]) then [ps[n]] else []
    ensures W.Answered(ps[..n + 1], succeeds, false)
         == W.Answered(ps[..n], succeeds, false) + if succeeds(ps[n]) then [] else [ps[n]]
  {
    assert ps[..n + 1][..n] == ps[..n];
  }

  lemma NoneAnswered(succeeds: nat -> bool)
    ensures W.Judged(0, succeeds, true) == [] && W.Judged(0, succeeds, false) == []
  {
  }

  lemma AnsweredNext(p: nat, succeeds: nat -> bool)
    ensures W.Judged(p + 1, succeeds, true) == W.Judged(p, succeeds, true) + if succeeds(p) then [p] else []
    ensures W.Judged(p + 1, succeeds, false) == W.Judged(p, succeeds, false) + if succeeds(p) then [] else [p]
  {
    assert Upto(p + 1)[..p] == Upto(p);
  }

  lemma {:induction false} ValidOnesAgain(raw: seq<Delivery>)
    ensures W.TasksOf(W.ValidOnes(raw)) == W.TasksOf(raw)
  {
    if raw != [] {
      var n := |raw| - 1;
      ValidOnesAgain(raw[..n]);
      if raw[n].item.body.Valid? {
        TasksAppend(W.ValidOnes(raw[..n]), raw[n]);
      } else {
        assert W.ValidOnes(raw) == W.ValidOnes(raw[..n]);
      }
    }
  }

  lemma NothingSettledYet(base: seq<Delivery>, batch: seq<Delivery>)
    ensures Broker.Keep(base + batch, TagsAt(batch, [])) == base + batch
  {
    NoTags(batch);
    Broker.KeepAll(base + batch, {});
  }

  /** Settling positions of the batch leaves what was outstanding before untouched. */
  lemma OnlyBatchGoes(base: seq<Delivery>, batch: seq<Delivery>, ok: seq<nat>, failed: seq<nat>)
    requires Broker.Ascending(base + batch)
    ensures var gone := TagsAt(batch, ok) + TagsAt(batch, failed);
            Broker.Keep(base + batch, gone) == base + Broker.Keep(batch, gone)
  {
    var gone := TagsAt(batch, ok) + TagsAt(batch, failed);
    forall i | 0 <= i < |base| ensures base[i].tag !in gone {
      assert (base + batch)[i] == base[i];
      forall p | 0 <= p < |batch| ensures batch[p].tag != base[i].tag {
        assert (base + batch)[|base| + p] == batch[p];
      }
    }
    Broker.KeepAppend(base, batch, gone);
    Broker.KeepAll(base, gone);
  }

  // ----------------------------------------------------------------------- whole runs

  /** Something happens: a scan; a scan cut short after k broker operations, by the death of the process or
      by the loss of the connection; an idle timeout; a new message; or such a loss or death between scans. */
  datatype Action =
    | Scanning(o: W.Oracle)
    | Cut(o: W.Oracle, k: nat, dies: bool)
    | IdleTimeout
    | Publishing(item: Broker.Item)
    | Drop
    | Death

  /** What was outstanding is queued again. A process that lives on keeps its model; one that comes back
      has none. */
  function Reconnected(v: View): View {
    v.(channel := Broker.Lost(v.channel))
  }

  function Restarted(v: View): View {
    View(None, Broker.Lost(v.channel))
  }

  /** A scan that raises ends the loop and closes the connection, as a death does. */
  ghost predicate ScanAction(setup: Setup, o: W.Oracle, before: View, after: View) {
    exists mid, served, batch, out, polls :: Performed(setup, o, before, mid, served, batch, out, polls)
      && after == if served.Some? && out.Raises? then Restarted(mid) else mid
  }

  /** The connection is lost after k operations, or after all if there are fewer. The model is loaded after
      the polls and before the settling. */
  function CutOff(before: View, model: Option<string>, polls: seq<Broker.Operation>, settles: seq<Broker.Operation>,
                  k: nat, dies: bool): View
  {
    var ops := polls + settles;
    var there := View(if k < |polls| then before.model else model,
                      Broker.ApplyAll(before.channel, ops[..if k < |ops| then k else |ops|]));
    if dies then Restarted(there) else Reconnected(there)
  }

  /** The scan got through k of its operations. */
  ghost predicate CutAction(setup: Setup, o: W.Oracle, k: nat, dies: bool, before: View, after: View) {
    exists mid, served, batch, out, polls :: Performed(setup, o, before, mid, served, batch, out, polls)
      && after == CutOff(before, mid.model, polls, SettleOps(batch, out), k, dies)
  }

  /** The step relation of the worker. */
  ghost predicate Did(setup: Setup, before: View, action: Action, after: View) {
    match action
    case Scanning(o) => ScanAction(setup, o, before, after)
    case Cut(o, k, dies) => CutAction(setup, o, k, dies, before, after)
    case IdleTimeout => after == before.(model := None)
    case Publishing(item) => after == before.(channel := Broker.Apply(before.channel, Broker.Publishing(item)))
    case Drop => after == Reconnected(before)
    case Death => after == Restarted(before)
  }

  /** What an action adds to the messages in the system. */
  function Adding(action: Action): Broker.Operation {
    if action.Publishing? then Broker.Publishing(action.item) else Broker.Losing
  }

  function Addings(actions: seq<Action>): (r: seq<Broker.Operation>)
    ensures |r| == |actions| && forall i :: 0 <= i < |r| ==> r[i] == Adding(actions[i])
  {
    seq(|actions|, i requires 0 <= i < |actions| => Adding(actions[i]))
  }

  ghost predicate IsTrace(setup: Setup, trace: seq<View>, actions: seq<Action>) {
    && |trace| == |actions| + 1
    && forall n :: 0 <= n < |actions| ==> Did(setup, trace[n], actions[n], trace[n + 1])
  }

  lemma LossConserves(v: Broker.View)
    requires Broker.ValidView(v)
    ensures Broker.ValidView(Broker.Lost(v)) && Broker.TotalOf(Broker.Lost(v)) == Broker.TotalOf(v)
  {
    Broker.ApplyConserves(v, Broker.Losing);
  }

  lemma ScanConserves(setup: Setup, o: W.Oracle, before: View, after: View)
    requires DistinctQueues(setup) && Broker.ValidView(before.channel) && ScanAction(setup, o, before, after)
    ensures Broker.ValidView(after.channel) && Broker.TotalOf(after.channel) == Broker.TotalOf(before.channel)
  {
    hide Broker.TotalOf, Broker.ValidView, Scanned, Broker.Performs, Broker.Lost, SettleOps;
    var mid, served, batch, out, polls :| Performed(setup, o, before, mid, served, batch, out, polls)
      && after == if served.Some? && out.Raises? then Restarted(mid) else mid;
    ScannedAccounts(setup, o, before, mid, served, batch, out);
    Broker.PerformsConserves(before.channel, polls + SettleOps(batch, out), mid.channel);
    LossConserves(mid.channel);
  }

  lemma CutConserves(setup: Setup, o: W.Oracle, k: nat, dies: bool, before: View, after: View)
    requires Broker.ValidView(before.channel) && CutAction(setup, o, k, dies, before, after)
    ensures Broker.ValidView(after.channel) && Broker.TotalOf(after.channel) == Broker.TotalOf(before.channel)
  {
    hide Broker.TotalOf, Broker.ValidView, Scanned, Broker.Performs, Broker.Lost, SettleOps, Broker.ApplyAll;
    var mid, served, batch, out, polls :| Performed(setup, o, before, mid, served, batch, out, polls)
      && after == CutOff(before, mid.model, polls, SettleOps(batch, out), k, dies);
    var ops := polls + SettleOps(batch, out);
    Broker.PrefixConserves(before.channel, ops, mid.channel, if k < |ops| then k else |ops|);
  }

  lemma DidConserves(setup: Setup, before: View, action: Action, after: View)
    requires DistinctQueues(setup) && Broker.ValidView(before.channel) && Did(setup, before, action, after)
    ensures Broker.ValidView(after.channel)
    ensures Broker.TotalOf(after.channel) == Broker.TotalOf(before.channel) + Broker.Added(Adding(action))
  {
    hide Broker.TotalOf, Broker.ValidView, ScanAction, CutAction, Broker.Apply, Broker.Lost;
    match action
    case Scanning(o) => ScanConserves(setup, o, before, after);
    case Cut(o, k, dies) => CutConserves(setup, o, k, dies, before, after);
    case Publishing(item) => Broker.ApplyConserves(before.channel, Broker.Publishing(item));
    case IdleTimeout =>
    case Drop => LossConserves(before.channel);
    case Death => LossConserves(before.channel);
  }

  /** Over any run of scans, whole or cut short anywhere, idle timeouts, publications, lost connections and
      deaths, every message ever published is queued, outstanding, acknowledged or dead-lettered, and
      counted once. */
  lemma {:induction false} TraceConserves(setup: Setup, trace: seq<View>, actions: seq<Action>)
    requires DistinctQueues(setup) && IsTrace(setup, trace, actions) && Broker.ValidView(trace[0].channel)
    ensures Broker.ValidView(trace[|actions|].channel)
    ensures Broker.TotalOf(trace[|actions|].channel) == Broker.TotalOf(trace[0].channel) + Broker.PublishedBy(Addings(actions))
  {
    hide Broker.TotalOf, Did, Broker.ValidView;
    if actions != [] {
      var n := |actions| - 1;
      TraceConserves(setup, trace[..n + 1], actions[..n]);
      DidConserves(setup, trace[n], actions[n], trace[n + 1]);
      assert Addings(actions)[..n] == Addings(actions[..n]);
    }
  }

  /** A worker in the same state on a channel of its own. */
  method Copy(worker: GpuEmbedWorker) returns (copy: GpuEmbedWorker)
    requires worker.Valid()
    ensures fresh(copy) && fresh(copy.channel) && copy.setup == worker.setup
    ensures copy.Valid() && copy.State() == worker.State()
  {
    var channel := new Broker.Channel();
    channel.queued, channel.unacked, channel.acked := worker.channel.queued, worker.channel.unacked, worker.channel.acked;
    channel.dead, channel.nextTag := worker.channel.dead, worker.channel.nextTag;
    copy := new GpuEmbedWorker(channel, worker.setup);
    copy.model, copy.currentModelName := worker.model, worker.currentModelName;
  }

  /** A scan that is cut short: the operations it would perform are found on a copy, and the worker's own
      channel sees the first k of them. */
  method CutShort(worker: GpuEmbedWorker, o: W.Oracle, k: nat, dies: bool)
    requires worker.Valid()
    modifies worker`model, worker`currentModelName, worker.channel
    ensures worker.Valid() && CutAction(worker.setup, o, k, dies, old(worker.State()), worker.State())
  {
    hide Broker.TotalOf, Broker.ValidView, Broker.Items, DistinctQueues, Broker.ApplyAll, Broker.Performs, Scanned, W.Proper;
    ghost var before := worker.State();
    var copy := Copy(worker);
    var served, batch, out, polls := copy.Scan(o);
    var ops := polls + SettleOps(batch, out);
    Broker.AnyRun(worker.channel, ops[..if k < |ops| then k else |ops|]);
    if k >= |polls| {
      worker.model, worker.currentModelName := copy.model, copy.currentModelName;
    }
    if dies {
      Restart(worker);
    } else {
      worker.channel.Reconnect();
    }
    assert Performed(worker.setup, o, before, copy.State(), served, batch, out, polls);
  }

  method Act(worker: GpuEmbedWorker, action: Action)
    requires worker.Valid()
    modifies worker`model, worker`currentModelName, worker.channel
    ensures worker.Valid() && Did(worker.setup, old(worker.State()), action, worker.State())
  {
    hide Broker.TotalOf, Broker.ValidView, Performed, Broker.Items, DistinctQueues;
    ghost var before := worker.State();
    match action
    case Scanning(o) =>
      var served, batch, out, polls := worker.Scan(o);
      ghost var mid := worker.State();
      if served.Some? && out.Raises? {
        Restart(worker);
      }
      assert Performed(worker.setup, o, before, mid, served, batch, out, polls);
    case Cut(o, k, dies) => CutShort(worker, o, k, dies);
    case IdleTimeout => worker.UnloadModel();
    case Publishing(item) => worker.channel.Publish(item);
    case Drop => worker.channel.Reconnect();
    case Death => Restart(worker);
  }

  method Restart(worker: GpuEmbedWorker)
    requires worker.Valid()
    modifies worker`model, worker`currentModelName, worker.channel
    ensures worker.Valid() && worker.State() == Restarted(old(worker.State()))
  {
    worker.channel.Reconnect();
    worker.model, worker.currentModelName := None, None;
  }

  /** Performs the actions: each takes the worker from one state of the trace to the next. */
  method Run(worker: GpuEmbedWorker, actions: seq<Action>) returns (ghost trace: seq<View>)
    requires worker.Valid()
    modifies worker`model, worker`currentModelName, worker.channel
    ensures worker.Valid() && IsTrace(worker.setup, trace, actions)
    ensures trace[0] == old(worker.State()) && trace[|actions|] == worker.State()
    ensures worker.channel.Total() == old(worker.channel.Total()) + Broker.PublishedBy(Addings(actions))
  {
    hide Did, Broker.TotalOf, Broker.ValidView, Broker.PublishedBy, DistinctQueues;
    trace := [worker.State()];
    for n := 0 to |actions|
      invariant worker.Valid() && |trace| == n + 1 && trace[0] == old(worker.State()) && trace[n] == worker.State()
      invariant forall i :: 0 <= i < n ==> Did(worker.setup, trace[i], actions[i], trace[i + 1])
    {
      Act(worker, actions[n]);
      trace := trace + [worker.State()];
    }
    TraceConserves(worker.setup, trace, actions);
  }
}
