/** Every interleaving of syncs, dispatches and chunk handling, with lost work recorded:
    what is missing is pending or was lost, so a quiet system misses nothing. */
module RechunkRuns {

  import opened Basics
  import opened Rechunk

  /** A handler between fetching the post and the acknowledgement of its task; `seen` are the hashes it
      read, and `inserted` tells whether it has stored its windows. */
  datatype Work = Work(key: Key, text: string, seen: Option<set<string>>, inserted: bool)

  datatype State = State(posts: map<int, Post>, events: multiset<Event>, tasks: multiset<Key>,
                         working: multiset<Work>, stored: map<Key, set<string>>, lost: set<Key>)

  const EMPTY := State(map[], multiset{}, multiset{}, multiset{}, map[], {})

  datatype Step =
    | Sync(post: Post, published: bool)          // published is false when the event bus raises
    | Dispatch(event: Event, dropped: set<Kind>) // kinds whose task was not published before a failure
    | Fetch(key: Key)
    | ReadHashes(work: Work)
    | Insert(work: Work)
    | Acknowledge(work: Work)
    | Redeliver(work: Work)                      // the worker died: its unacknowledged task returns
    | DeadLetter(work: Work)                     // the handler raised

  function At(stored: map<Key, set<string>>, key: Key): set<string> {
    if key in stored then stored[key] else {}
  }

  function Keys(id: int, kinds: set<Kind>): set<Key> {
    set k | k in kinds :: (id, k)
  }

  predicate Enabled(s: State, step: Step) {
    match step
    case Sync(_, _) => true
    case Dispatch(e, dropped) => e in s.events && dropped <= Dispatched(e)
    case Fetch(key) => key in s.tasks
    case ReadHashes(w) => w in s.working && w.seen.None? && !w.inserted
    case Insert(w) => w in s.working && w.seen.Some? && !w.inserted
    case Acknowledge(w) => w in s.working && w.inserted
    case Redeliver(w) => w in s.working
    case DeadLetter(w) => w in s.working
  }

  /** A post is stored and announced; if the announcement fails, its kinds are on record as lost. */
  function Synchronised(s: State, post: Post, published: bool): State {
    if UpsertStatus(s.posts, post) == Skipped then s
    else
      var e := EventFor(s.posts, post);
      var keys := Keys(post.id, Dispatched(e));
      if published then s.(posts := s.posts[post.id := post], events := s.events + multiset{e}, lost := s.lost - keys)
      else s.(posts := s.posts[post.id := post], lost := s.lost + keys)
  }

  /** A task whose post is gone or has no text is done at once; otherwise its handler holds the text. */
  function Fetched(c: Chunking, s: State, key: Key): (t: State)
    ensures t.posts == s.posts && t.stored == s.stored && t.lost == s.lost
  {
    var t := s.(tasks := s.tasks - multiset{key});
    if key.0 !in s.posts then t
    else
      var text := ResolveText(c.strip, key.1, s.posts[key.0]);
      if text == "" then t else t.(working := s.working + multiset{Work(key, text, None, false)})
  }

  function Next(c: Chunking, s: State, step: Step): State
    requires Enabled(s, step)
  {
    match step
    case Sync(post, published) => Synchronised(s, post, published)
    case Dispatch(e, dropped) =>
      s.(events := s.events - multiset{e},
         tasks := s.tasks + multiset(Keys(e.id, Dispatched(e) - dropped)),
         lost := s.lost + Keys(e.id, dropped))
    case Fetch(key) => Fetched(c, s, key)
    case ReadHashes(w) =>
      s.(working := s.working - multiset{w} + multiset{w.(seen := Some(At(s.stored, w.key)))})
    case Insert(w) =>
      s.(working := s.working - multiset{w} + multiset{w.(inserted := true)},
         stored := s.stored[w.key := At(s.stored, w.key) + (WindowSet(c, w.key.1, w.text) - w.seen.value)])
    case Acknowledge(w) => s.(working := s.working - multiset{w})
    case Redeliver(w) =>
      s.(working := s.working - multiset{w}, tasks := s.tasks + multiset{w.key})
    case DeadLetter(w) =>
      s.(working := s.working - multiset{w}, lost := s.lost + {w.key})
  }

  /** A sync step is one round of the sync route's loop; a post that cannot be stored is no step. */
  lemma SyncIsOneRound(c: Chunking, s: State, post: Post, fault: Fault, log: seq<Event>, statuses: seq<Status>)
    requires !fault.StoreRaises? && multiset(log) == s.events
    ensures var round := SyncOne(Synced(s.posts, log, statuses), post, fault);
            var t := Next(c, s, Sync(post, fault.NoFault?));
            t.posts == round.posts && t.events == multiset(round.events)
  {
    hide Dispatched;
  }

  ghost predicate Announced(s: State, key: Key) {
    exists e :: e in s.events && e.id == key.0 && key.1 in Dispatched(e)
  }

  ghost predicate BeingHandled(s: State, key: Key, text: string) {
    exists w :: w in s.working && w.key == key && w.text == text && !w.inserted
  }

  /** Work that will bring the key up to the given text is still on its way. */
  ghost predicate Pending(s: State, key: Key, text: string) {
    Announced(s, key) || key in s.tasks || BeingHandled(s, key, text)
  }

  ghost predicate Covered(c: Chunking, s: State, key: Key)
    requires key.0 in s.posts
  {
    var post := s.posts[key.0];
    !Promised(key.1, post)
    || Wanted(c, key.1, post) <= At(s.stored, key)
    || Pending(s, key, ResolveText(c.strip, key.1, post))
    || key in s.lost
  }

  ghost predicate Inv(c: Chunking, s: State) {
    && (forall id :: id in s.posts ==> s.posts[id].id == id)
    && (forall key: Key :: key.0 in s.posts ==> Covered(c, s, key))
    && (forall w :: w in s.working && w.seen.Some? ==> w.seen.value <= At(s.stored, w.key))
  }

  // --------------------------------------------------------------- one step at a time

  lemma SyncCovers(c: Chunking, s: State, post: Post, published: bool, key: Key)
    requires Inv(c, s) && key.0 in Next(c, s, Sync(post, published)).posts
    ensures Covered(c, Next(c, s, Sync(post, published)), key)
  {
    var t := Next(c, s, Sync(post, published));
    if UpsertStatus(s.posts, post) != Skipped {
      var e := EventFor(s.posts, post);
      if key.0 == post.id && Promised(key.1, post) {
        var existing := Existing(s.posts, post.id);
        if existing.None? || !Promised(key.1, existing.value)
           || ResolveText(c.strip, key.1, existing.value) != ResolveText(c.strip, key.1, post) {
          ChangeIsDispatched(c, post, existing, key.1);
          assert published ==> e in t.events;
          assert key == (post.id, key.1);
        } else {
          UnchangedStaysCovered(c, s, post, published, key);
        }
      } else if key.0 != post.id {
        OthersStayCovered(c, s, post, published, key);
      }
    }
  }

  /** The text is the same, so whatever covered the key before still does. */
  lemma UnchangedStaysCovered(c: Chunking, s: State, post: Post, published: bool, key: Key)
    requires Inv(c, s) && UpsertStatus(s.posts, post) != Skipped && key.0 == post.id && post.id in s.posts
    requires Promised(key.1, post) && Promised(key.1, s.posts[post.id])
    requires ResolveText(c.strip, key.1, s.posts[post.id]) == ResolveText(c.strip, key.1, post)
    ensures Covered(c, Next(c, s, Sync(post, published)), key)
  {
    var t := Next(c, s, Sync(post, published));
    assert Covered(c, s, key);
    StillPending(c, s, t, post, published, key, ResolveText(c.strip, key.1, post));
  }

  lemma OthersStayCovered(c: Chunking, s: State, post: Post, published: bool, key: Key)
    requires Inv(c, s) && UpsertStatus(s.posts, post) != Skipped && key.0 != post.id && key.0 in s.posts
    ensures Covered(c, Next(c, s, Sync(post, published)), key)
  {
    var t := Next(c, s, Sync(post, published));
    assert Covered(c, s, key);
    StillPending(c, s, t, post, published, key, ResolveText(c.strip, key.1, s.posts[key.0]));
  }

  /** A sync takes nothing away that was pending, and what it takes off the lost list it announces. */
  lemma StillPending(c: Chunking, s: State, t: State, post: Post, published: bool, key: Key, text: string)
    requires UpsertStatus(s.posts, post) != Skipped && t == Next(c, s, Sync(post, published))
    ensures Pending(s, key, text) ==> Pending(t, key, text)
    ensures key in s.lost ==> key in t.lost || Announced(t, key)
  {
    var e := EventFor(s.posts, post);
    if Announced(s, key) {
      var old_e :| old_e in s.events && old_e.id == key.0 && key.1 in Dispatched(old_e);
      assert old_e in t.events;
    }
    if published {
      assert e in t.events;
    }
  }

  lemma DispatchCovers(c: Chunking, s: State, e: Event, dropped: set<Kind>, key: Key)
    requires Inv(c, s) && Enabled(s, Dispatch(e, dropped)) && key.0 in s.posts
    ensures Covered(c, Next(c, s, Dispatch(e, dropped)), key)
  {
    hide Dispatched;
    var t := Next(c, s, Dispatch(e, dropped));
    assert Covered(c, s, key);
    if Announced(s, key) {
      var f :| f in s.events && f.id == key.0 && key.1 in Dispatched(f);
      if f == e {
        assert key == (e.id, key.1);
        if key.1 in dropped {
          assert key in Keys(e.id, dropped);
        } else {
          assert key in Keys(e.id, Dispatched(e) - dropped);
          assert key in t.tasks;
        }
      } else {
        assert f in t.events;
      }
    }
  }

  lemma FetchCovers(c: Chunking, s: State, taken: Key, key: Key)
    requires Inv(c, s) && taken in s.tasks && key.0 in s.posts
    ensures Covered(c, Next(c, s, Fetch(taken)), key)
  {
    var t := Next(c, s, Fetch(taken));
    assert Covered(c, s, key);
    var text := ResolveText(c.strip, key.1, s.posts[key.0]);
    if taken == key {
      if text != "" {
        var w := Work(key, text, None, false);
        assert w in t.working;
      }
    } else {
      assert key in s.tasks ==> key in t.tasks;
      if BeingHandled(s, key, text) {
        var w :| w in s.working && w.key == key && w.text == text && !w.inserted;
        assert w in t.working;
      }
    }
  }

  /** An insert stores every window of the text that was not stored when the hashes were read. */
  lemma InsertCovers(c: Chunking, s: State, w: Work, key: Key)
    requires Inv(c, s) && Enabled(s, Insert(w)) && key.0 in s.posts
    ensures Covered(c, Next(c, s, Insert(w)), key)
  {
    hide Dispatched, ResolveText, Promised;
    var t := Next(c, s, Insert(w));
    assert Covered(c, s, key);
    StoredGrows(c, s, Insert(w), key);
    var text := ResolveText(c.strip, key.1, s.posts[key.0]);
    if BeingHandled(s, key, text) {
      var v :| v in s.working && v.key == key && v.text == text && !v.inserted;
      if v != w {
        assert v in t.working;
      }
    }
  }

  lemma WorkCovers(c: Chunking, s: State, step: Step, key: Key)
    requires Inv(c, s) && Enabled(s, step) && key.0 in s.posts
    requires step.ReadHashes? || step.Acknowledge? || step.Redeliver? || step.DeadLetter?
    ensures Covered(c, Next(c, s, step), key)
  {
    hide Dispatched, ResolveText, Promised, WindowSet;
    var t := Next(c, s, step);
    var w := step.work;
    assert Covered(c, s, key);
    var text := ResolveText(c.strip, key.1, s.posts[key.0]);
    if BeingHandled(s, key, text) {
      var v :| v in s.working && v.key == key && v.text == text && !v.inserted;
      if v != w {
        assert v in t.working;
      } else if step.ReadHashes? {
        assert w.(seen := Some(At(s.stored, w.key))) in t.working;
      } else if step.Redeliver? {
        assert key in t.tasks;
      }
    }
    assert key in s.tasks ==> key in t.tasks;
  }

  lemma StoredGrows(c: Chunking, s: State, step: Step, key: Key)
    requires Enabled(s, step)
    ensures At(s.stored, key) <= At(Next(c, s, step).stored, key)
  {
    hide Dispatched, ResolveText, WindowSet;
  }

  lemma StepKeepsReads(c: Chunking, s: State, step: Step, w: Work)
    requires Inv(c, s) && Enabled(s, step) && w in Next(c, s, step).working && w.seen.Some?
    ensures w.seen.value <= At(Next(c, s, step).stored, w.key)
  {
    hide Dispatched, ResolveText, Covered, WindowSet, At;
    StoredGrows(c, s, step, w.key);
    if w !in s.working {
      assert step.ReadHashes? || step.Insert?;
    }
  }

  lemma OnlySyncWritesPosts(c: Chunking, s: State, step: Step)
    requires Enabled(s, step)
    ensures !step.Sync? ==> Next(c, s, step).posts == s.posts
  {
    hide Dispatched, WindowSet, At, Enabled, Keys, Synchronised, Fetched;
  }

  lemma StepKeepsIds(c: Chunking, s: State, step: Step, id: int)
    requires Inv(c, s) && Enabled(s, step) && id in Next(c, s, step).posts
    ensures Next(c, s, step).posts[id].id == id
  {
    hide Dispatched, ResolveText, Covered, WindowSet, At;
  }

  lemma StepKeepsInv(c: Chunking, s: State, step: Step)
    requires Inv(c, s) && Enabled(s, step)
    ensures Inv(c, Next(c, s, step))
  {
    hide Next, Covered, At, Dispatched;
    OnlySyncWritesPosts(c, s, step);
    var t := Next(c, s, step);
    forall key: Key | key.0 in t.posts ensures Covered(c, t, key) {
      match step {
        case Sync(post, published) => SyncCovers(c, s, post, published, key);
        case Dispatch(e, dropped) => DispatchCovers(c, s, e, dropped, key);
        case Fetch(taken) => FetchCovers(c, s, taken, key);
        case Insert(w) => InsertCovers(c, s, w, key);
        case _ => WorkCovers(c, s, step, key);
      }
    }
    forall w | w in t.working && w.seen.Some? ensures w.seen.value <= At(t.stored, w.key) {
      StepKeepsReads(c, s, step, w);
    }
    forall id | id in t.posts ensures t.posts[id].id == id {
      StepKeepsIds(c, s, step, id);
    }
  }

  // -------------------------------------------------------------------- whole runs

  ghost predicate Legal(c: Chunking, s: State, steps: seq<Step>)
    decreases |steps|
  {
    steps == [] || (Enabled(s, steps[0]) && Legal(c, Next(c, s, steps[0]), steps[1..]))
  }

  ghost function After(c: Chunking, s: State, steps: seq<Step>): State
    requires Legal(c, s, steps)
    decreases |steps|
  {
    if steps == [] then s else After(c, Next(c, s, steps[0]), steps[1..])
  }

  lemma {:induction false} RunKeepsInv(c: Chunking, s: State, steps: seq<Step>)
    requires Inv(c, s) && Legal(c, s, steps)
    ensures Inv(c, After(c, s, steps))
    decreases |steps|
  {
    hide Inv, Next, Enabled;
    if steps != [] {
      StepKeepsInv(c, s, steps[0]);
      RunKeepsInv(c, Next(c, s, steps[0]), steps[1..]);
    }
  }

  /** Nothing failed: every event was published, every task dispatched, no handler raised. */
  predicate Sound(step: Step) {
    match step
    case Sync(_, published) => published
    case Dispatch(_, dropped) => dropped == {}
    case DeadLetter(_) => false
    case _ => true
  }

  lemma {:induction false} NothingLostWithoutFailures(c: Chunking, s: State, steps: seq<Step>)
    requires Legal(c, s, steps) && s.lost == {} && forall i :: 0 <= i < |steps| ==> Sound(steps[i])
    ensures After(c, s, steps).lost == {}
    decreases |steps|
  {
    hide Dispatched, ResolveText;
    if steps != [] {
      assert Sound(steps[0]);
      var t := Next(c, s, steps[0]);
      assert t.lost == {};
      NothingLostWithoutFailures(c, t, steps[1..]);
    }
  }

  ghost predicate Quiet(s: State) {
    s.events == multiset{} && s.tasks == multiset{} && s.working == multiset{}
  }

  /** Once nothing is pending, every window of current text is stored, except for keys whose
      work was lost to a failure and has not been announced again since. */
  lemma QuietMissesNothing(c: Chunking, steps: seq<Step>, key: Key)
    requires Legal(c, EMPTY, steps) && Quiet(After(c, EMPTY, steps))
    requires key.0 in After(c, EMPTY, steps).posts
    requires Promised(key.1, After(c, EMPTY, steps).posts[key.0])
    ensures var s := After(c, EMPTY, steps);
            key in s.lost || Wanted(c, key.1, s.posts[key.0]) <= At(s.stored, key)
  {
    RunKeepsInv(c, EMPTY, steps);
    assert Covered(c, After(c, EMPTY, steps), key);
  }

  /** In terms of the post itself: the windows of its edited body, or of its original one if it has none,
      are stored, and likewise for title and summary. */
  lemma QuietHoldsText(c: Chunking, steps: seq<Step>, key: Key)
    requires Legal(c, EMPTY, steps) && Quiet(After(c, EMPTY, steps))
    requires key.0 in After(c, EMPTY, steps).posts
    requires Promised(key.1, After(c, EMPTY, steps).posts[key.0])
    ensures var s := After(c, EMPTY, steps);
            key in s.lost || Gains(c, key.1, s.posts[key.0], At(s.stored, key), At(s.stored, key))
  {
    var s := After(c, EMPTY, steps);
    QuietMissesNothing(c, steps, key);
    WantedIsGained(c, key.1, s.posts[key.0], At(s.stored, key));
    hide Gains, Wanted;
    assert key !in s.lost ==> At(s.stored, key) + Wanted(c, key.1, s.posts[key.0]) == At(s.stored, key);
  }

  /** The exception is real: a handler that raises leaves a quiet system without the windows of a post. */
  lemma FailureCanLose(c: Chunking, post: Post)
    requires !Blank(post.bodyText) && Blank(post.customBody) && c.windows(BodyKind, post.bodyText.value) != []
    ensures var e := EventFor(map[], post);
            var key := (post.id, BodyKind);
            var steps := [Sync(post, true), Dispatch(e, Dispatched(e) - {BodyKind}), Fetch(key),
                          DeadLetter(Work(key, post.bodyText.value, None, false))];
            && Legal(c, EMPTY, steps)
            && var s := After(c, EMPTY, steps);
               Quiet(s) && key.0 in s.posts && !(Wanted(c, BodyKind, s.posts[key.0]) <= At(s.stored, key))
  {
    var e := EventFor(map[], post);
    var key := (post.id, BodyKind);
    var w := Work(key, post.bodyText.value, None, false);
    var s1 := Next(c, EMPTY, Sync(post, true));
    var s2 := BodyDispatched(c, s1, post, e);
    var s4 := HandlerRaised(c, s2, post, w);
    assert c.windows(BodyKind, post.bodyText.value)[0] in Wanted(c, BodyKind, post);
    hide Next, Enabled, Dispatched, Wanted, Legal, After;
    var steps := [Fetch(key), DeadLetter(w)];
    Then(c, s1, Dispatch(e, Dispatched(e) - {BodyKind}), steps);
    Then(c, EMPTY, Sync(post, true), [Dispatch(e, Dispatched(e) - {BodyKind})] + steps);
  }

  lemma Then(c: Chunking, s: State, step: Step, rest: seq<Step>)
    requires Enabled(s, step) && Legal(c, Next(c, s, step), rest)
    ensures Legal(c, s, [step] + rest) && After(c, s, [step] + rest) == After(c, Next(c, s, step), rest)
  {
    hide Next, Enabled;
    assert ([step] + rest)[1..] == rest;
  }

  lemma BodyDispatched(c: Chunking, s: State, post: Post, e: Event) returns (t: State)
    requires s.events == multiset{e} && s.tasks == multiset{} && e.id == post.id && BodyKind in Dispatched(e)
    ensures Enabled(s, Dispatch(e, Dispatched(e) - {BodyKind})) && t == Next(c, s, Dispatch(e, Dispatched(e) - {BodyKind}))
    ensures t.events == multiset{} && t.tasks == multiset{(post.id, BodyKind)}
    ensures t.posts == s.posts && t.working == s.working && t.stored == s.stored
  {
    t := Next(c, s, Dispatch(e, Dispatched(e) - {BodyKind}));
    assert Dispatched(e) - (Dispatched(e) - {BodyKind}) == {BodyKind};
    assert Keys(post.id, {BodyKind}) == {(post.id, BodyKind)};
  }

  lemma HandlerRaised(c: Chunking, s: State, post: Post, w: Work) returns (t: State)
    requires post.id in s.posts && s.posts[post.id] == post && !Blank(post.bodyText) && Blank(post.customBody)
    requires w == Work((post.id, BodyKind), post.bodyText.value, None, false)
    requires s.events == multiset{} && s.tasks == multiset{w.key} && s.working == multiset{}
    ensures Legal(c, s, [Fetch(w.key), DeadLetter(w)]) && t == After(c, s, [Fetch(w.key), DeadLetter(w)])
    ensures Quiet(t) && t.posts == s.posts && t.stored == s.stored
  {
    var u := Next(c, s, Fetch(w.key));
    assert u.working == multiset{w} && u.tasks == multiset{};
    t := Next(c, u, DeadLetter(w));
    assert t.working == multiset{};
    hide Next, Enabled;
    Then(c, u, DeadLetter(w), []);
    Then(c, s, Fetch(w.key), [DeadLetter(w)]);
  }

  /** And with no failures in the run there is no exception. */
  lemma QuietIsConsistent(c: Chunking, steps: seq<Step>, key: Key)
    requires Legal(c, EMPTY, steps) && Quiet(After(c, EMPTY, steps))
    requires forall i :: 0 <= i < |steps| ==> Sound(steps[i])
    requires key.0 in After(c, EMPTY, steps).posts
    requires Promised(key.1, After(c, EMPTY, steps).posts[key.0])
    ensures var s := After(c, EMPTY, steps); Wanted(c, key.1, s.posts[key.0]) <= At(s.stored, key)
  {
    QuietMissesNothing(c, steps, key);
    NothingLostWithoutFailures(c, EMPTY, steps);
  }
}
