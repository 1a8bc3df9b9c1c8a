/** Recovery of chunks left without an embedding: the scan that puts them back on the queues, and
    what processing the published tasks achieves. */
module Requeue {

  import opened Basics
  import Grouping
  import TableNames
  import Embedding

  type Task = Embedding.Task
  type Rows<V> = Embedding.Rows<V>
  type Suffixes = seq<TableNames.Entry>

  /** A task and the queue it was published to; `model` is the model it asks for. */
  datatype Published = Published(task: Task, model: string, queue: string)

  datatype Result = Result(requeuedChunks: nat, tasksPublished: nat, tablesScanned: nat,
                           tablesSkipped: nat, skippedNames: seq<string>)

  /** A chunk row in need of an embedding. */
  datatype Missing = Missing(table: string, chunkId: string, postId: int)

  /** (chunk id, post id) pairs of one table, as the database lists them. */
  type Listing = seq<(string, int)>

  predicate Recognised(suffixes: Suffixes, table: string) {
    TableNames.Parse(table, suffixes).Some?
  }

  function MissingIn(table: string, listing: Listing): (r: seq<Missing>)
    ensures |r| == |listing|
    ensures forall i :: 0 <= i < |r| ==> r[i] == Missing(table, listing[i].0, listing[i].1)
  {
    seq(|listing|, i requires 0 <= i < |listing| => Missing(table, listing[i].0, listing[i].1))
  }

  /** Everything missing in the recognised tables. */
  function AllMissing(suffixes: Suffixes, tables: seq<string>, list: string -> Listing): seq<Missing> {
    if tables == [] then []
    else
      var last := tables[|tables| - 1];
      AllMissing(suffixes, tables[..|tables| - 1], list)
      + if Recognised(suffixes, last) then MissingIn(last, list(last)) else []
  }

  function Unrecognised(suffixes: Suffixes, tables: seq<string>): seq<string> {
    if tables == [] then []
    else
      var last := tables[|tables| - 1];
      Unrecognised(suffixes, tables[..|tables| - 1]) + if Recognised(suffixes, last) then [] else [last]
  }

  /** What a published task asks for. */
  function Requested(p: Published): (r: seq<Missing>)
    ensures |r| == |p.task.chunkIds|
    ensures forall i :: 0 <= i < |r| ==> r[i] == Missing(p.task.chunkTable, p.task.chunkIds[i], PostOf(p.task))
  {
    seq(|p.task.chunkIds|, i requires 0 <= i < |p.task.chunkIds| =>
      Missing(p.task.chunkTable, p.task.chunkIds[i], PostOf(p.task)))
  }

  function PostOf(task: Task): int {
    if task.postId.Some? then task.postId.value else -1
  }

  function AllRequested(published: seq<Published>): seq<Missing> {
    if published == [] then []
    else AllRequested(published[..|published| - 1]) + Requested(published[|published| - 1])
  }

  /** One post, one table, and the model and queue that table's name stands for. */
  ghost predicate WellAddressed(suffixes: Suffixes, p: Published) {
    var parsed := TableNames.Parse(p.task.chunkTable, suffixes);
    && parsed.Some?
    && p.queue == parsed.value.cfg.queue && p.model == parsed.value.cfg.primary
    && p.task.postTable == parsed.value.postTable
    && p.task.postId.Some? && p.task.chunkIds != []
  }

  // ------------------------------------------------------------- one table's tasks

  function ByPost(listing: Listing): (r: seq<(int, string)>)
    ensures |r| == |listing|
  {
    seq(|listing|, i requires 0 <= i < |listing| => (listing[i].1, listing[i].0))
  }

  function ToMissing(table: string, pairs: seq<(int, string)>): (r: seq<Missing>)
    ensures |r| == |pairs| && forall i :: 0 <= i < |r| ==> r[i] == Missing(table, pairs[i].1, pairs[i].0)
  {
    seq(|pairs|, i requires 0 <= i < |pairs| => Missing(table, pairs[i].1, pairs[i].0))
  }

  lemma {:induction false} ToMissingCount(table: string, pairs: seq<(int, string)>, m: Missing)
    ensures multiset(ToMissing(table, pairs))[m] == if m.table == table then multiset(pairs)[(m.postId, m.chunkId)] else 0
  {
    if pairs != [] {
      var front, last := pairs[..|pairs| - 1], pairs[|pairs| - 1];
      ToMissingCount(table, front, m);
      assert pairs == front + [last];
      assert ToMissing(table, pairs) == ToMissing(table, front) + [Missing(table, last.1, last.0)];
    }
  }

  lemma ToMissingKeeps(table: string, a: seq<(int, string)>, b: seq<(int, string)>)
    requires multiset(a) == multiset(b)
    ensures multiset(ToMissing(table, a)) == multiset(ToMissing(table, b))
  {
    forall m: Missing ensures multiset(ToMissing(table, a))[m] == multiset(ToMissing(table, b))[m] {
      ToMissingCount(table, a, m);
      ToMissingCount(table, b, m);
    }
    Grouping.SameMultiset(multiset(ToMissing(table, a)), multiset(ToMissing(table, b)));
  }

  /** One task per post, in the order the posts were first met. */
  ghost predicate OnePerPost(tasks: seq<Published>, table: string, keys: seq<int>, pairs: seq<(int, string)>) {
    && |tasks| == |keys|
    && forall i :: 0 <= i < |tasks| ==>
         && tasks[i].task.postId == Some(keys[i])
         && tasks[i].task.chunkTable == table
         && tasks[i].task.chunkIds == Grouping.ValuesOf(pairs, keys[i])
  }

  lemma {:induction false} TasksAreGroups(tasks: seq<Published>, table: string, keys: seq<int>, pairs: seq<(int, string)>)
    requires OnePerPost(tasks, table, keys, pairs)
    ensures AllRequested(tasks) == ToMissing(table, Grouping.Ungroup(keys, pairs))
  {
    if tasks != [] {
      var n := |tasks| - 1;
      TasksAreGroups(tasks[..n], table, keys[..n], pairs);
      TaskIsGroup(tasks[n], table, keys[n], pairs);
      hide ToMissing, Requested;
      ToMissingAppend(table, Grouping.Ungroup(keys[..n], pairs), Grouping.Tag(keys[n], Grouping.ValuesOf(pairs, keys[n])));
    } else {
      assert Grouping.Ungroup(keys, pairs) == [];
    }
  }

  lemma ToMissingAppend(table: string, a: seq<(int, string)>, b: seq<(int, string)>)
    ensures ToMissing(table, a + b) == ToMissing(table, a) + ToMissing(table, b)
  {
  }

  lemma TaskIsGroup(p: Published, table: string, post: int, pairs: seq<(int, string)>)
    requires p.task.postId == Some(post) && p.task.chunkTable == table
    requires p.task.chunkIds == Grouping.ValuesOf(pairs, post)
    ensures Requested(p) == ToMissing(table, Grouping.Tag(post, Grouping.ValuesOf(pairs, post)))
  {
  }

  /** The tasks of one table ask for exactly what was listed as missing there. */
  lemma TableTasksAreExact(tasks: seq<Published>, table: string, listing: Listing)
    requires OnePerPost(tasks, table, Grouping.Keys(ByPost(listing)), ByPost(listing))
    ensures multiset(AllRequested(tasks)) == multiset(MissingIn(table, listing))
  {
    var pairs := ByPost(listing);
    TasksAreGroups(tasks, table, Grouping.Keys(pairs), pairs);
    Grouping.GroupsPartition(pairs);
    ToMissingKeeps(table, Grouping.Ungroup(Grouping.Keys(pairs), pairs), pairs);
    assert ToMissing(table, pairs) == MissingIn(table, listing);
  }

  /** The task is one of the given table's, to the given model and queue. */
  ghost predicate AddressedTo(p: Published, postTable: string, table: string, cfg: TableNames.Config) {
    && p.model == cfg.primary && p.queue == cfg.queue
    && p.task.postTable == postTable && p.task.chunkTable == table
    && p.task.postId.Some? && p.task.chunkIds != []
  }

  ghost predicate AllAddressedTo(tasks: seq<Published>, postTable: string, table: string, cfg: TableNames.Config) {
    forall i :: 0 <= i < |tasks| ==> AddressedTo(tasks[i], postTable, table, cfg)
  }

  lemma OneMorePost(tasks: seq<Published>, table: string, keys: seq<int>, pairs: seq<(int, string)>, p: Published)
    requires |tasks| < |keys| && OnePerPost(tasks, table, keys[..|tasks|], pairs)
    requires p.task.postId == Some(keys[|tasks|]) && p.task.chunkTable == table
    requires p.task.chunkIds == Grouping.ValuesOf(pairs, keys[|tasks|])
    ensures OnePerPost(tasks + [p], table, keys[..|tasks| + 1], pairs)
  {
    var n := |tasks|;
    assert forall i :: 0 <= i < n ==> keys[..n + 1][i] == keys[..n][i];
  }

  lemma PostsDiffer(tasks: seq<Published>, table: string, keys: seq<int>, pairs: seq<(int, string)>)
    requires OnePerPost(tasks, table, keys, pairs) && Distinct(keys)
    ensures forall i, j :: 0 <= i < j < |tasks| ==> tasks[i].task.postId != tasks[j].task.postId
  {
  }

  method PublishTasks(postTable: string, table: string, cfg: TableNames.Config, listing: Listing)
    returns (tasks: seq<Published>)
    ensures multiset(AllRequested(tasks)) == multiset(MissingIn(table, listing))
    ensures forall i, j :: 0 <= i < j < |tasks| ==> tasks[i].task.postId != tasks[j].task.postId
    ensures AllAddressedTo(tasks, postTable, table, cfg)
  {
    hide OnePerPost, Grouping.Keys, Grouping.ValuesOf, AllRequested, MissingIn, ByPost, AddressedTo;
    var pairs := ByPost(listing);
    var keys, byPost := Grouping.Group(pairs);
    Grouping.KeysAreDistinct(pairs);
    tasks := [];
    assert keys[..0] == [];
    NoPosts(table, pairs);
    for i := 0 to |keys|
      invariant |tasks| == i && OnePerPost(tasks, table, keys[..i], pairs)
      invariant AllAddressedTo(tasks, postTable, table, cfg)
    {
      var post := keys[i];
      assert post in keys;
      var p := Published(Embedding.Task("", Some(post), postTable, byPost[post], table), cfg.primary, cfg.queue);
      OneMorePost(tasks, table, keys, pairs, p);
      PublishedIsAddressed(p, postTable, table, cfg);
      tasks := tasks + [p];
    }
    assert keys[..|keys|] == keys;
    TableTasksAreExact(tasks, table, listing);
    PostsDiffer(tasks, table, keys, pairs);
  }

  lemma NoPosts(table: string, pairs: seq<(int, string)>)
    ensures OnePerPost([], table, [], pairs)
  {
  }

  lemma PublishedIsAddressed(p: Published, postTable: string, table: string, cfg: TableNames.Config)
    requires p.model == cfg.primary && p.queue == cfg.queue && p.task.postTable == postTable
    requires p.task.chunkTable == table && p.task.postId.Some? && p.task.chunkIds != []
    ensures AddressedTo(p, postTable, table, cfg)
  {
  }

  // ------------------------------------------------------------------ the whole scan

  lemma RequestedSnoc(ps: seq<Published>, p: Published)
    ensures AllRequested(ps + [p]) == AllRequested(ps) + Requested(p)
  {
    assert (ps + [p])[..|ps|] == ps;
  }

  lemma {:induction false} RequestedAppend(a: seq<Published>, b: seq<Published>)
    ensures AllRequested(a + b) == AllRequested(a) + AllRequested(b)
  {
    hide AllRequested, Requested;
    if b == [] {
      assert a + b == a;
      NoneRequested();
      assert AllRequested(a) + [] == AllRequested(a);
    } else {
      var front, last := b[..|b| - 1], b[|b| - 1];
      RequestedAppend(a, front);
      RequestedSnoc(a + front, last);
      RequestedSnoc(front, last);
      assert b == front + [last] && a + b == (a + front) + [last];
      Reassociate(AllRequested(a), AllRequested(front), Requested(last));
    }
  }

  lemma NoneRequested()
    ensures AllRequested([]) == []
  {
  }

  /** Where the scan stands after some tables. */
  ghost predicate Scanned(suffixes: Suffixes, tables: seq<string>, list: string -> Listing,
                          published: seq<Published>, result: Result) {
    && multiset(AllRequested(published)) == multiset(AllMissing(suffixes, tables, list))
    && (forall i :: 0 <= i < |published| ==> WellAddressed(suffixes, published[i]))
    && result.requeuedChunks == |AllMissing(suffixes, tables, list)| && result.tasksPublished == |published|
    && result.tablesSkipped == |Unrecognised(suffixes, tables)| && result.skippedNames == Unrecognised(suffixes, tables)
  }

  lemma NothingScanned(suffixes: Suffixes, list: string -> Listing, n: nat)
    ensures Scanned(suffixes, [], list, [], Result(0, 0, n, 0, []))
  {
  }

  lemma ScanSkips(suffixes: Suffixes, tables: seq<string>, list: string -> Listing, n: nat,
                  published: seq<Published>, result: Result)
    requires n < |tables| && Scanned(suffixes, tables[..n], list, published, result)
    ensures !Recognised(suffixes, tables[n]) ==>
              Scanned(suffixes, tables[..n + 1], list, published,
                      result.(tablesSkipped := result.tablesSkipped + 1, skippedNames := result.skippedNames + [tables[n]]))
    ensures Recognised(suffixes, tables[n]) && list(tables[n]) == [] ==>
              Scanned(suffixes, tables[..n + 1], list, published, result)
  {
    NextTable(suffixes, tables, list, n);
    hide AllRequested, AllMissing, Unrecognised, WellAddressed, Recognised;
  }

  lemma ScanPublishes(suffixes: Suffixes, tables: seq<string>, list: string -> Listing, n: nat,
                      published: seq<Published>, result: Result, tasks: seq<Published>)
    requires n < |tables| && Scanned(suffixes, tables[..n], list, published, result) && Recognised(suffixes, tables[n])
    requires multiset(AllRequested(tasks)) == multiset(MissingIn(tables[n], list(tables[n])))
    requires forall i :: 0 <= i < |tasks| ==> WellAddressed(suffixes, tasks[i])
    ensures Scanned(suffixes, tables[..n + 1], list, published + tasks,
                    result.(requeuedChunks := result.requeuedChunks + |list(tables[n])|,
                            tasksPublished := result.tasksPublished + |tasks|))
  {
    hide AllRequested, AllMissing, Unrecognised, WellAddressed, Recognised;
    NextTable(suffixes, tables, list, n);
    RequestedAppend(published, tasks);
  }

  /** Publishes exactly the multiset of missing rows of the recognised tables, whatever order the
      database lists them in, and the counters say so. */
  method RequeueMissingEmbeddings(suffixes: Suffixes, tables: seq<string>, list: string -> Listing)
    returns (published: seq<Published>, result: Result)
    ensures multiset(AllRequested(published)) == multiset(AllMissing(suffixes, tables, list))
    ensures forall i :: 0 <= i < |published| ==> WellAddressed(suffixes, published[i])
    ensures result == Result(|AllMissing(suffixes, tables, list)|, |published|, |tables|,
                             |Unrecognised(suffixes, tables)|, Unrecognised(suffixes, tables))
  {
    hide AllRequested, AllMissing, Unrecognised, WellAddressed, MissingIn, TableNames.Parse;
    published := [];
    result := Result(0, 0, |tables|, 0, []);
    assert tables[..0] == [];
    NothingScanned(suffixes, list, |tables|);
    for n := 0 to |tables|
      invariant Scanned(suffixes, tables[..n], list, published, result) && result.tablesScanned == |tables|
    {
      hide Scanned;
      var table := tables[n];
      ScanSkips(suffixes, tables, list, n, published, result);
      var parsed := TableNames.Parse(table, suffixes);
      if parsed.None? {
        result := result.(tablesSkipped := result.tablesSkipped + 1, skippedNames := result.skippedNames + [table]);
        continue;
      }
      var unembedded := list(table);
      if unembedded == [] {
        continue;
      }
      var tasks := PublishTasks(parsed.value.postTable, table, parsed.value.cfg, unembedded);
      AddressedTasks(suffixes, tasks, table);
      ScanPublishes(suffixes, tables, list, n, published, result, tasks);
      published := published + tasks;
      result := result.(requeuedChunks := result.requeuedChunks + |unembedded|,
                        tasksPublished := result.tasksPublished + |tasks|);
    }
    assert tables[..|tables|] == tables;
  }

  lemma NextTable(suffixes: Suffixes, tables: seq<string>, list: string -> Listing, n: nat)
    requires n < |tables|
    ensures AllMissing(suffixes, tables[..n + 1], list)
         == AllMissing(suffixes, tables[..n], list)
            + if Recognised(suffixes, tables[n]) then MissingIn(tables[n], list(tables[n])) else []
    ensures Unrecognised(suffixes, tables[..n + 1])
         == Unrecognised(suffixes, tables[..n]) + if Recognised(suffixes, tables[n]) then [] else [tables[n]]
  {
    assert tables[..n + 1][..n] == tables[..n];
  }

  lemma AddressedTasks(suffixes: Suffixes, tasks: seq<Published>, table: string)
    requires Recognised(suffixes, table)
    requires var parsed := TableNames.Parse(table, suffixes).value;
             AllAddressedTo(tasks, parsed.postTable, table, parsed.cfg)
    ensures forall i :: 0 <= i < |tasks| ==> WellAddressed(suffixes, tasks[i])
  {
  }

  // -------------------------------------------------------------------- recovery

  /** The listing of a table: each row without an embedding once, in any order. */
  ghost predicate ListsMissing<V>(rows: Rows<V>, table: string, listing: Listing) {
    && Distinct(listing)
    && forall id, post :: (id, post) in listing <==> IsMissing(rows, Embedding.RowKey(table, id), post)
  }

  ghost predicate IsMissing<V>(rows: Rows<V>, k: Embedding.RowKey, post: int) {
    k in rows && rows[k].embedding.None? && rows[k].postId == post
  }

  ghost predicate AllListed<V>(rows: Rows<V>, tables: seq<string>, list: string -> Listing) {
    forall t :: t in tables ==> ListsMissing(rows, t, list(t))
  }

  lemma {:induction false} DistinctSameMembers<T>(a: seq<T>, b: seq<T>)
    requires Distinct(a) && Distinct(b) && forall x :: x in a <==> x in b
    ensures multiset(a) == multiset(b)
  {
    forall x ensures multiset(a)[x] == multiset(b)[x] {
      DistinctCount(a, x);
      DistinctCount(b, x);
    }
    Grouping.SameMultiset(multiset(a), multiset(b));
  }

  lemma {:induction false} DistinctCount<T>(s: seq<T>, x: T)
    requires Distinct(s)
    ensures multiset(s)[x] == if x in s then 1 else 0
  {
    if s != [] {
      var front, last := s[..|s| - 1], s[|s| - 1];
      DistinctCount(front, x);
      assert s == front + [last];
      assert forall y :: y in s <==> y in front || y == last;
    }
  }

  lemma DistinctMissing(table: string, listing: Listing)
    requires Distinct(listing)
    ensures Distinct(MissingIn(table, listing))
    ensures forall m :: m in MissingIn(table, listing) <==> m.table == table && (m.chunkId, m.postId) in listing
  {
    var r := MissingIn(table, listing);
    forall m ensures m in r <==> m.table == table && (m.chunkId, m.postId) in listing {
      if m in r {
        var i :| 0 <= i < |r| && r[i] == m;
        assert listing[i] == (m.chunkId, m.postId);
      }
      if m.table == table && (m.chunkId, m.postId) in listing {
        var i :| 0 <= i < |listing| && listing[i] == (m.chunkId, m.postId);
        assert r[i] == m;
      }
    }
    forall i, j | 0 <= i < j < |r| ensures r[i] != r[j] {
      assert listing[i] != listing[j];
    }
  }

  /** As long as the rows stay as they are, as they do when no backend is available, every later
      scan finds the same rows again. */
  lemma {:induction false} ScanFindsAgain<V>(rows: Rows<V>, suffixes: Suffixes, tables: seq<string>,
                                             one: string -> Listing, two: string -> Listing)
    requires AllListed(rows, tables, one) && AllListed(rows, tables, two)
    ensures multiset(AllMissing(suffixes, tables, one)) == multiset(AllMissing(suffixes, tables, two))
  {
    if tables != [] {
      var last := tables[|tables| - 1];
      ScanFindsAgain(rows, suffixes, tables[..|tables| - 1], one, two);
      assert last in tables;
      SameListing(rows, last, one(last), two(last));
    }
  }

  lemma SameListing<V>(rows: Rows<V>, table: string, one: Listing, two: Listing)
    requires ListsMissing(rows, table, one) && ListsMissing(rows, table, two)
    ensures multiset(MissingIn(table, one)) == multiset(MissingIn(table, two))
  {
    DistinctMissing(table, one);
    DistinctMissing(table, two);
    DistinctSameMembers(MissingIn(table, one), MissingIn(table, two));
  }

  lemma {:induction false} MissingIsListed<V>(rows: Rows<V>, suffixes: Suffixes, tables: seq<string>,
                                              list: string -> Listing, m: Missing)
    requires AllListed(rows, tables, list) && m.table in tables && Recognised(suffixes, m.table)
    requires IsMissing(rows, Embedding.RowKey(m.table, m.chunkId), m.postId)
    ensures m in AllMissing(suffixes, tables, list)
  {
    var last := tables[|tables| - 1];
    if m.table == last {
      DistinctMissing(last, list(last));
    } else {
      MissingIsListed(rows, suffixes, tables[..|tables| - 1], list, m);
    }
  }

  lemma {:induction false} RequestedBySome(published: seq<Published>, m: Missing) returns (n: nat)
    requires m in AllRequested(published)
    ensures n < |published| && published[n].task.chunkTable == m.table && m.chunkId in published[n].task.chunkIds
  {
    var last := |published| - 1;
    if m in Requested(published[last]) {
      var i :| 0 <= i < |Requested(published[last])| && Requested(published[last])[i] == m;
      n := last;
    } else {
      n := RequestedBySome(published[..last], m);
    }
  }

  // ------------------------------------------------ working through what was published

  /** A batch the worker takes up and what the store answers for its tasks. */
  datatype Batch = Batch(tasks: seq<Task>, fetches: seq<Embedding.Fetch>)

  /** Every fetch of the batch succeeds. */
  ghost predicate Fetched<V>(rows: Rows<V>, b: Batch) {
    && |b.tasks| == |b.fetches| && Embedding.AllFaithful(rows, b.tasks, b.fetches)
    && forall n :: 0 <= n < |b.fetches| ==> b.fetches[n].Pairs?
  }

  /** The rows after batches handled with a working encoder, as EmbedChunks leaves them. */
  ghost function AfterBatches<V>(rows: Rows<V>, batches: seq<Batch>, enc: string -> V): Rows<V>
    requires WorkedThrough(rows, batches, enc)
    decreases |batches|
  {
    if batches == [] then rows else AfterBatches(AfterBatch(rows, batches[0], enc), batches[1..], enc)
  }

  ghost function AfterBatch<V>(rows: Rows<V>, b: Batch, enc: string -> V): Rows<V>
    requires Fetched(rows, b)
  {
    Embedding.Written(rows, enc, Embedding.Covered(rows, b.tasks, b.fetches))
  }

  ghost predicate WorkedThrough<V>(rows: Rows<V>, batches: seq<Batch>, enc: string -> V)
    decreases |batches|
  {
    batches == [] || (Fetched(rows, batches[0]) && WorkedThrough(AfterBatch(rows, batches[0], enc), batches[1..], enc))
  }

  /** A task whose turn comes leaves each of its rows with the encoding of that row's text; rows
      once embedded stay embedded and no row or text is lost. */
  lemma {:induction false} TaskEmbedsItsRows<V>(rows: Rows<V>, batches: seq<Batch>, enc: string -> V, k: Embedding.RowKey)
    requires WorkedThrough(rows, batches, enc) && k in rows
    ensures k in AfterBatches(rows, batches, enc)
    ensures AfterBatches(rows, batches, enc)[k].text == rows[k].text
    ensures rows[k].embedding.Some? || AsksFor(batches, k) ==> AfterBatches(rows, batches, enc)[k].embedding.Some?
    ensures AsksFor(batches, k) ==> AfterBatches(rows, batches, enc)[k].embedding == Some(enc(rows[k].text))
    ensures !AsksFor(batches, k) ==> AfterBatches(rows, batches, enc)[k] == rows[k]
    decreases |batches|
  {
    if batches != [] {
      var b := batches[0];
      var next := AfterBatch(rows, b, enc);
      TaskEmbedsItsRows(next, batches[1..], enc, k);
      AsksForFirst(batches, k);
    }
  }

  ghost predicate AsksIn(b: Batch, k: Embedding.RowKey) {
    |b.tasks| == |b.fetches| && Embedding.Wanted(b.tasks, b.fetches, k)
  }

  ghost predicate AsksFor(batches: seq<Batch>, k: Embedding.RowKey) {
    exists i :: 0 <= i < |batches| && AsksIn(batches[i], k)
  }

  lemma AsksForFirst(batches: seq<Batch>, k: Embedding.RowKey)
    requires batches != []
    ensures AsksFor(batches, k) <==> AsksIn(batches[0], k) || AsksFor(batches[1..], k)
  {
    if AsksFor(batches[1..], k) {
      var i :| 0 <= i < |batches[1..]| && AsksIn(batches[1..][i], k);
      assert AsksIn(batches[i + 1], k);
    }
    if AsksFor(batches, k) && !AsksIn(batches[0], k) {
      var i :| 0 <= i < |batches| && AsksIn(batches[i], k);
      assert AsksIn(batches[1..][i - 1], k);
    }
  }

  ghost predicate Taken(batches: seq<Batch>, task: Task) {
    exists i :: 0 <= i < |batches| && task in batches[i].tasks
  }

  lemma TakenAsks<V>(rows: Rows<V>, batches: seq<Batch>, enc: string -> V, task: Task, id: string)
    requires WorkedThrough(rows, batches, enc) && Taken(batches, task)
    requires task.chunkTable != "" && id in task.chunkIds && TableNames.Lower(task.chunkTable) == task.chunkTable
    ensures AsksFor(batches, Embedding.RowKey(task.chunkTable, id))
  {
    var i :| 0 <= i < |batches| && task in batches[i].tasks;
    BatchIsFetched(rows, batches, enc, i);
    var n :| 0 <= n < |batches[i].tasks| && batches[i].tasks[n] == task;
    assert batches[i].fetches[n].Pairs?;
    assert AsksIn(batches[i], Embedding.RowKey(task.chunkTable, id));
  }

  lemma {:induction false} BatchIsFetched<V>(rows: Rows<V>, batches: seq<Batch>, enc: string -> V, i: nat)
    requires WorkedThrough(rows, batches, enc) && i < |batches|
    ensures |batches[i].tasks| == |batches[i].fetches|
    ensures forall n :: 0 <= n < |batches[i].fetches| ==> batches[i].fetches[n].Pairs?
    decreases |batches|
  {
    if i > 0 {
      BatchIsFetched(AfterBatch(rows, batches[0], enc), batches[1..], enc, i - 1);
    }
  }

  /** No unembedded chunk is lost: once the published tasks have been worked through, in whatever
      batches and order, no row of a recognised table is without an embedding, and those that were
      missing hold the encoding of their own text. */
  lemma RecoveryCompletes<V>(rows: Rows<V>, suffixes: Suffixes, tables: seq<string>, list: string -> Listing,
                             published: seq<Published>, batches: seq<Batch>, enc: string -> V, k: Embedding.RowKey)
    requires AllListed(rows, tables, list)
    requires multiset(AllRequested(published)) == multiset(AllMissing(suffixes, tables, list))
    requires WorkedThrough(rows, batches, enc)
    requires forall i :: 0 <= i < |published| ==> Taken(batches, published[i].task)
    requires k in rows && k.table in tables && Recognised(suffixes, k.table) && TableNames.Lower(k.table) == k.table
    ensures var end := AfterBatches(rows, batches, enc);
            && k in end && end[k].embedding.Some?
            && (rows[k].embedding.None? ==> end[k].embedding == Some(enc(rows[k].text)))
  {
    hide AllRequested, AllMissing, WorkedThrough, AfterBatches, AsksFor, Taken;
    TaskEmbedsItsRows(rows, batches, enc, k);
    if rows[k].embedding.None? {
      var m := Missing(k.table, k.chunkId, rows[k].postId);
      MissingIsListed(rows, suffixes, tables, list, m);
      assert m in multiset(AllRequested(published));
      var n := RequestedBySome(published, m);
      NamedTable(suffixes, k.table);
      TakenAsks(rows, batches, enc, published[n].task, k.chunkId);
    }
  }

  lemma NamedTable(suffixes: Suffixes, table: string)
    requires Recognised(suffixes, table)
    ensures table != ""
  {
  }
}
