/** Embedding a batch of chunk tasks: flatten to texts, encode once, store by chunk, announce by
    post and table. */
module Embedding {

  import opened Basics
  import Grouping
  import TableNames

  /** The empty string stands for a missing table. */
  datatype Task = Task(taskId: string, postId: Option<int>, postTable: string, chunkIds: seq<string>, chunkTable: string)

  datatype RowKey = RowKey(table: string, chunkId: string)

  datatype ChunkRow<V> = ChunkRow(postId: int, text: string, embedding: Option<V>)

  type Rows<V> = map<RowKey, ChunkRow<V>>

  /** What fetching the texts of one task came to. */
  datatype Fetch = Pairs(pairs: seq<(string, string)>) | NoTable | FetchError

  datatype Encoded<V> = Vectors(vectors: seq<V>) | Unavailable | Broken

  /** One text to encode: the position of its task in the batch, its chunk, its text. */
  datatype Triple = Triple(n: nat, chunkId: string, text: string)

  datatype EmbeddingRow<V> = EmbeddingRow(chunkTable: string, chunkId: string, embedding: V)

  datatype Event = Event(postId: Option<int>, postTable: string, chunkTable: string, chunkIds: seq<string>)

  type GroupKey = (Option<int>, string)

  predicate Asked(task: Task) {
    task.chunkIds != [] && task.chunkTable != ""
  }

  // -------------------------------------------------------------------- flattening

  function TriplesOf(n: nat, pairs: seq<(string, string)>): (r: seq<Triple>)
    ensures |r| == |pairs| && forall i :: 0 <= i < |r| ==> r[i] == Triple(n, pairs[i].0, pairs[i].1)
  {
    seq(|pairs|, i requires 0 <= i < |pairs| => Triple(n, pairs[i].0, pairs[i].1))
  }

  /** The rows a task contributes. */
  function Contributed(task: Task, fetch: Fetch): seq<(string, string)> {
    if Asked(task) && fetch.Pairs? then fetch.pairs else []
  }

  function Flatten(tasks: seq<Task>, fetches: seq<Fetch>): seq<Triple>
    requires |tasks| == |fetches|
  {
    if tasks == [] then []
    else
      var n := |tasks| - 1;
      Flatten(tasks[..n], fetches[..n]) + TriplesOf(n, Contributed(tasks[n], fetches[n]))
  }

  predicate FailsFetch(task: Task, fetch: Fetch) {
    Asked(task) && fetch.FetchError?
  }

  /** Positions of the tasks whose fetch failed. */
  function Failures(tasks: seq<Task>, fetches: seq<Fetch>): (r: seq<nat>)
    requires |tasks| == |fetches|
    ensures forall n :: n in r <==> 0 <= n < |tasks| && FailsFetch(tasks[n], fetches[n])
    ensures Distinct(r)
  {
    if tasks == [] then []
    else
      var n := |tasks| - 1;
      var r := Failures(tasks[..n], fetches[..n]);
      assert forall i :: 0 <= i < |r| ==> r[i] in r;
      if FailsFetch(tasks[n], fetches[n]) then r + [n] else r
  }

  lemma TriplesHold(n: nat, pairs: seq<(string, string)>)
    ensures forall t :: t in TriplesOf(n, pairs) <==> t.n == n && (t.chunkId, t.text) in pairs
  {
    var r := TriplesOf(n, pairs);
    forall t ensures t in r <==> t.n == n && (t.chunkId, t.text) in pairs {
      if t in r {
        var i :| 0 <= i < |r| && r[i] == t;
        assert pairs[i] == (t.chunkId, t.text);
      }
      if t.n == n && (t.chunkId, t.text) in pairs {
        var i :| 0 <= i < |pairs| && pairs[i] == (t.chunkId, t.text);
        assert r[i] == t;
      }
    }
  }

  /** The triples are exactly the rows the tasks contribute, each with its own task. */
  ghost predicate HoldsTriple(tasks: seq<Task>, fetches: seq<Fetch>, t: Triple)
    requires |tasks| == |fetches|
  {
    t.n < |tasks| && (t.chunkId, t.text) in Contributed(tasks[t.n], fetches[t.n])
  }

  lemma {:induction false} FlattenHolds(tasks: seq<Task>, fetches: seq<Fetch>)
    requires |tasks| == |fetches|
    ensures forall t :: t in Flatten(tasks, fetches) <==> HoldsTriple(tasks, fetches, t)
  {
    if tasks != [] {
      hide Contributed;
      var n := |tasks| - 1;
      FlattenHolds(tasks[..n], fetches[..n]);
      TriplesHold(n, Contributed(tasks[n], fetches[n]));
      forall t ensures t in Flatten(tasks, fetches) <==> HoldsTriple(tasks, fetches, t) {
        if t.n < n {
          assert tasks[..n][t.n] == tasks[t.n] && fetches[..n][t.n] == fetches[t.n];
        }
      }
    }
  }

  // -------------------------------------------------------------------- the store

  /** Every row in `keys` has the encoding of its own text; nothing else differs. */
  ghost function Written<V>(rows: Rows<V>, enc: string -> V, keys: set<RowKey>): Rows<V> {
    map k | k in rows :: if k in keys then rows[k].(embedding := Some(enc(rows[k].text))) else rows[k]
  }

  function KeyOf<V>(row: EmbeddingRow<V>): RowKey {
    RowKey(TableNames.Lower(row.chunkTable), row.chunkId)
  }

  /** UPDATE ... SET embedding: a missing row is left missing. */
  function Update<V>(rows: Rows<V>, row: EmbeddingRow<V>): Rows<V> {
    var k := KeyOf(row);
    if k in rows then rows[k := rows[k].(embedding := Some(row.embedding))] else rows
  }

  function UpdateAll<V>(rows: Rows<V>, batch: seq<EmbeddingRow<V>>): Rows<V> {
    if batch == [] then rows
    else Update(UpdateAll(rows, batch[..|batch| - 1]), batch[|batch| - 1])
  }

  ghost function KeysOf<V>(batch: seq<EmbeddingRow<V>>): set<RowKey> {
    set row | row in batch :: KeyOf(row)
  }

  /** Each vector of the batch encodes the text stored for its chunk. */
  ghost predicate OwnText<V>(rows: Rows<V>, enc: string -> V, batch: seq<EmbeddingRow<V>>) {
    forall row :: row in batch && KeyOf(row) in rows ==> row.embedding == enc(rows[KeyOf(row)].text)
  }

  lemma {:induction false} UpdateAllWrites<V>(rows: Rows<V>, enc: string -> V, batch: seq<EmbeddingRow<V>>)
    requires OwnText(rows, enc, batch)
    ensures UpdateAll(rows, batch) == Written(rows, enc, KeysOf(batch))
  {
    if batch == [] {
      assert UpdateAll(rows, batch) == rows;
    } else {
      var front, last := batch[..|batch| - 1], batch[|batch| - 1];
      UpdateAllWrites(rows, enc, front);
      assert batch == front + [last];
      assert KeysOf(batch) == KeysOf(front) + {KeyOf(last)};
    }
  }

  /** Writing rows with the encodings of their texts leaves every text as it was. */
  lemma OwnTextLater<V>(rows: Rows<V>, enc: string -> V, batch: seq<EmbeddingRow<V>>, group: seq<EmbeddingRow<V>>,
                        done: set<RowKey>)
    requires OwnText(rows, enc, batch) && forall row :: row in group ==> row in batch
    ensures OwnText(Written(rows, enc, done), enc, group)
  {
  }

  lemma WrittenTwice<V>(rows: Rows<V>, enc: string -> V, a: set<RowKey>, b: set<RowKey>)
    ensures Written(Written(rows, enc, a), enc, b) == Written(rows, enc, a + b)
  {
  }

  // ------------------------------------------------------------------- the handler

  ghost function Texts(triples: seq<Triple>): seq<string> {
    seq(|triples|, i requires 0 <= i < |triples| => triples[i].text)
  }

  /** A pointwise encoder: whenever it answers, it answers one vector per text, in order. */
  ghost predicate Encodes<V>(encode: seq<string> -> Encoded<V>, enc: string -> V) {
    forall texts :: encode(texts).Vectors? ==>
      |encode(texts).vectors| == |texts| && forall i :: 0 <= i < |texts| ==> encode(texts).vectors[i] == enc(texts[i])
  }

  /** The answer holds exactly the task's rows that exist, in any order. */
  ghost predicate Faithful<V>(rows: Rows<V>, task: Task, fetch: Fetch) {
    var table := TableNames.Lower(task.chunkTable);
    fetch.Pairs? ==>
      && (forall p :: p in fetch.pairs ==>
            p.0 in task.chunkIds && RowKey(table, p.0) in rows && rows[RowKey(table, p.0)].text == p.1)
      && (forall id :: id in task.chunkIds && RowKey(table, id) in rows ==>
            (id, rows[RowKey(table, id)].text) in fetch.pairs)
  }

  ghost predicate AllFaithful<V>(rows: Rows<V>, tasks: seq<Task>, fetches: seq<Fetch>)
    requires |tasks| == |fetches|
  {
    forall n :: 0 <= n < |tasks| ==> Faithful(rows, tasks[n], fetches[n])
  }

  /** The stored rows the tasks whose fetch succeeded ask for. */
  ghost function Covered<V>(rows: Rows<V>, tasks: seq<Task>, fetches: seq<Fetch>): set<RowKey>
    requires |tasks| == |fetches|
  {
    set k | k in rows && Wanted(tasks, fetches, k)
  }

  ghost predicate Wanted(tasks: seq<Task>, fetches: seq<Fetch>, k: RowKey)
    requires |tasks| == |fetches|
  {
    exists n :: 0 <= n < |tasks| && Asked(tasks[n]) && fetches[n].Pairs?
                && k.table == TableNames.Lower(tasks[n].chunkTable) && k.chunkId in tasks[n].chunkIds
  }

  function GroupKeyOf(tasks: seq<Task>, t: Triple): GroupKey
    requires t.n < |tasks|
  {
    (tasks[t.n].postId, tasks[t.n].chunkTable)
  }

  ghost predicate InBatch(tasks: seq<Task>, triples: seq<Triple>) {
    forall i :: 0 <= i < |triples| ==> triples[i].n < |tasks|
  }

  function ChunkPairs(tasks: seq<Task>, triples: seq<Triple>): (r: seq<(GroupKey, string)>)
    requires InBatch(tasks, triples)
    ensures |r| == |triples|
    ensures forall i :: 0 <= i < |r| ==>
              r[i] == ((tasks[triples[i].n].postId, tasks[triples[i].n].chunkTable), triples[i].chunkId)
  {
    seq(|triples|, i requires 0 <= i < |triples| => (GroupKeyOf(tasks, triples[i]), triples[i].chunkId))
  }

  function EventPairs(e: Event): seq<(GroupKey, string)> {
    Grouping.Tag((e.postId, e.chunkTable), e.chunkIds)
  }

  function AllEventPairs(events: seq<Event>): seq<(GroupKey, string)> {
    if events == [] then []
    else AllEventPairs(events[..|events| - 1]) + EventPairs(events[|events| - 1])
  }

  ghost predicate Describes(e: Event, tasks: seq<Task>) {
    exists n :: 0 <= n < |tasks| && tasks[n].postId == e.postId && tasks[n].chunkTable == e.chunkTable
                && tasks[n].postTable == e.postTable
  }

  /** The events announce exactly the given (post, table) / chunk pairs, one event per (post, table),
      each with the post table of some task of the batch. */
  ghost predicate Announces(events: seq<Event>, tasks: seq<Task>, triples: seq<Triple>)
    requires InBatch(tasks, triples)
  {
    && multiset(AllEventPairs(events)) == multiset(ChunkPairs(tasks, triples))
    && (forall i, j :: 0 <= i < j < |events| ==>
          (events[i].postId, events[i].chunkTable) != (events[j].postId, events[j].chunkTable))
    && (forall i :: 0 <= i < |events| ==> events[i].chunkIds != [] && Describes(events[i], tasks))
  }

  /** Positions handed back as done after a successful save: tasks with at least one row. */
  function Contributors(triples: seq<Triple>): seq<nat> {
    Grouping.Keys(seq(|triples|, i requires 0 <= i < |triples| => (triples[i].n, triples[i].chunkId)))
  }

  /** `[t for t in tasks if t not in fetch_failed]`: membership compares tasks by value. */
  function NotFailed(tasks: seq<Task>, failed: seq<nat>, upto: nat): (r: seq<nat>)
    requires upto <= |tasks| && forall n :: n in failed ==> n < |tasks|
    ensures forall n :: n in r <==> 0 <= n < upto && forall m :: m in failed ==> tasks[m] != tasks[n]
    ensures Distinct(r)
  {
    if upto == 0 then []
    else
      var r := NotFailed(tasks, failed, upto - 1);
      assert forall i :: 0 <= i < |r| ==> r[i] in r;
      if exists m :: m in failed && tasks[m] == tasks[upto - 1] then r else r + [upto - 1]
  }

  /** The tasks handed back as done and as failed. */
  function Returned<V>(tasks: seq<Task>, fetches: seq<Fetch>, encoded: Encoded<V>): (seq<nat>, seq<nat>)
    requires |tasks| == |fetches|
  {
    var triples, failed := Flatten(tasks, fetches), Failures(tasks, fetches);
    if triples == [] || encoded.Unavailable? then (NotFailed(tasks, failed, |tasks|), failed)
    else if encoded.Broken? then ([], Upto(|tasks|))
    else (Contributors(triples), failed)
  }

  // ------------------------------------------------------------ exactly when settled

  lemma ContributorsAre(triples: seq<Triple>)
    ensures Distinct(Contributors(triples))
    ensures forall n :: n in Contributors(triples) <==> exists i :: 0 <= i < |triples| && triples[i].n == n
  {
    var pairs := seq(|triples|, i requires 0 <= i < |triples| => (triples[i].n, triples[i].chunkId));
    Grouping.KeysAreDistinct(pairs);
    assert forall i :: 0 <= i < |triples| ==> pairs[i].0 == triples[i].n;
  }

  lemma ContributorHasRow(tasks: seq<Task>, fetches: seq<Fetch>, n: nat)
    requires |tasks| == |fetches| && n < |tasks|
    ensures n in Contributors(Flatten(tasks, fetches)) <==> Contributed(tasks[n], fetches[n]) != []
  {
    hide Contributors, Flatten, Contributed;
    var triples := Flatten(tasks, fetches);
    ContributorsAre(triples);
    FlattenHolds(tasks, fetches);
    if Contributed(tasks[n], fetches[n]) != [] {
      var p := Contributed(tasks[n], fetches[n])[0];
      assert p in Contributed(tasks[n], fetches[n]);
      assert HoldsTriple(tasks, fetches, Triple(n, p.0, p.1));
      assert Triple(n, p.0, p.1) in triples;
      var i :| 0 <= i < |triples| && triples[i] == Triple(n, p.0, p.1);
    }
    if n in Contributors(triples) {
      var i :| 0 <= i < |triples| && triples[i].n == n;
      assert triples[i] in triples;
    }
  }

  ghost predicate SettledBy(result: (seq<nat>, seq<nat>), n: nat) {
    n in result.0 || n in result.1
  }

  /** No task is handed back twice or both as done and as failed, and all are in the batch. */
  lemma NeverSettledTwice<V>(tasks: seq<Task>, fetches: seq<Fetch>, encoded: Encoded<V>)
    requires |tasks| == |fetches|
    ensures var (ok, failed) := Returned(tasks, fetches, encoded);
            && Distinct(ok) && Distinct(failed)
            && (forall n :: n in ok ==> n < |tasks| && n !in failed)
            && (forall n :: n in failed ==> n < |tasks|)
  {
    var triples := Flatten(tasks, fetches);
    ContributorsAre(triples);
    FlattenHolds(tasks, fetches);
    forall n | n in Contributors(triples) ensures n < |tasks| && n !in Failures(tasks, fetches) {
      var i :| 0 <= i < |triples| && triples[i].n == n;
      assert triples[i] in triples;
    }
  }

  ghost predicate EqualsFailed(tasks: seq<Task>, fetches: seq<Fetch>, n: nat)
    requires |tasks| == |fetches| && n < |tasks|
  {
    exists m :: 0 <= m < |tasks| && FailsFetch(tasks[m], fetches[m]) && tasks[m] == tasks[n]
  }

  /** Exactly when a task is acknowledged one way or the other. With rows and a working encoder a
      task that contributed no row and did not fail is handed back neither way; otherwise a
      task is left out only if it equals, by value, one whose fetch failed. */
  lemma SettledIff<V>(tasks: seq<Task>, fetches: seq<Fetch>, encoded: Encoded<V>, n: nat)
    requires |tasks| == |fetches| && n < |tasks|
    ensures SettledBy(Returned(tasks, fetches, encoded), n) <==>
            if Flatten(tasks, fetches) == [] || encoded.Unavailable? then
              FailsFetch(tasks[n], fetches[n]) || !EqualsFailed(tasks, fetches, n)
            else if encoded.Broken? then true
            else FailsFetch(tasks[n], fetches[n]) || Contributed(tasks[n], fetches[n]) != []
  {
    ContributorHasRow(tasks, fetches, n);
    FlattenHolds(tasks, fetches);
    if Contributed(tasks[n], fetches[n]) != [] {
      var p := Contributed(tasks[n], fetches[n])[0];
      assert HoldsTriple(tasks, fetches, Triple(n, p.0, p.1));
    }
    if encoded.Broken? {
      assert Upto(|tasks|)[n] == n;
    }
  }

  // ------------------------------------------------------- done, failed, or neither

  /** The task asked for chunks of a table, and the store answered with at least one. */
  ghost predicate BringsRows(task: Task, fetch: Fetch) {
    task.chunkIds != [] && task.chunkTable != "" && fetch.Pairs? && fetch.pairs != []
  }

  /** The task asked for chunks of a table, and the store raised. */
  ghost predicate LosesFetch(task: Task, fetch: Fetch) {
    task.chunkIds != [] && task.chunkTable != "" && fetch.FetchError?
  }

  ghost predicate SomeRows(tasks: seq<Task>, fetches: seq<Fetch>)
    requires |tasks| == |fetches|
  {
    exists m :: 0 <= m < |tasks| && BringsRows(tasks[m], fetches[m])
  }

  /** Handed back as done: with vectors, the tasks that brought rows; if nothing was encoded because there
      were no rows or no backend, the tasks that do not equal one whose fetch was lost. */
  ghost predicate IsDone<V>(tasks: seq<Task>, fetches: seq<Fetch>, encoded: Encoded<V>, n: nat)
    requires |tasks| == |fetches| && n < |tasks|
  {
    if SomeRows(tasks, fetches) && encoded.Vectors? then BringsRows(tasks[n], fetches[n])
    else if SomeRows(tasks, fetches) && encoded.Broken? then false
    else forall m :: 0 <= m < |tasks| && tasks[m] == tasks[n] ==> !LosesFetch(tasks[m], fetches[m])
  }

  /** Handed back as failed: its own fetch was lost, or the encoder broke on the batch. */
  ghost predicate IsFailed<V>(tasks: seq<Task>, fetches: seq<Fetch>, encoded: Encoded<V>, n: nat)
    requires |tasks| == |fetches| && n < |tasks|
  {
    LosesFetch(tasks[n], fetches[n]) || (SomeRows(tasks, fetches) && encoded.Broken?)
  }

  lemma RowsIff(tasks: seq<Task>, fetches: seq<Fetch>)
    requires |tasks| == |fetches|
    ensures SomeRows(tasks, fetches) <==> Flatten(tasks, fetches) != []
  {
    FlattenHolds(tasks, fetches);
    var triples := Flatten(tasks, fetches);
    if triples != [] {
      assert triples[0] in triples;
      assert HoldsTriple(tasks, fetches, triples[0]);
      assert BringsRows(tasks[triples[0].n], fetches[triples[0].n]);
    }
    if m :| 0 <= m < |tasks| && BringsRows(tasks[m], fetches[m]) {
      var p := fetches[m].pairs[0];
      assert HoldsTriple(tasks, fetches, Triple(m, p.0, p.1));
    }
  }

  /** Exactly which tasks are handed back as done and which as failed. */
  lemma HandedBackIff<V>(tasks: seq<Task>, fetches: seq<Fetch>, encoded: Encoded<V>, n: nat)
    requires |tasks| == |fetches| && n < |tasks|
    ensures n in Returned(tasks, fetches, encoded).0 <==> IsDone(tasks, fetches, encoded, n)
    ensures n in Returned(tasks, fetches, encoded).1 <==> IsFailed(tasks, fetches, encoded, n)
  {
    RowsIff(tasks, fetches);
    ContributorHasRow(tasks, fetches, n);
    hide Contributors, Flatten, SomeRows;
    assert Upto(|tasks|)[n] == n;
    assert forall m :: 0 <= m < |tasks| ==> (m in Failures(tasks, fetches) <==> LosesFetch(tasks[m], fetches[m]));
  }

  /** Equal tasks share the fate of their fetch. */
  ghost predicate TwinsFailTogether(tasks: seq<Task>, fetches: seq<Fetch>)
    requires |tasks| == |fetches|
  {
    forall n :: 0 <= n < |tasks| && EqualsFailed(tasks, fetches, n) ==> FailsFetch(tasks[n], fetches[n])
  }

  /** Exactly when every task of a batch is handed back: with rows, if the encoder broke or each task
      failed its fetch or contributed a row; otherwise if tasks equal to a failed one failed too. */
  lemma WholeBatchSettled<V>(tasks: seq<Task>, fetches: seq<Fetch>, encoded: Encoded<V>)
    requires |tasks| == |fetches|
    ensures (forall n :: 0 <= n < |tasks| ==> SettledBy(Returned(tasks, fetches, encoded), n))
            <==>
            if Flatten(tasks, fetches) == [] || encoded.Unavailable? then TwinsFailTogether(tasks, fetches)
            else encoded.Broken? || forall n :: 0 <= n < |tasks| ==>
                   FailsFetch(tasks[n], fetches[n]) || Contributed(tasks[n], fetches[n]) != []
  {
    hide Returned, Flatten, FailsFetch, Contributed, SettledBy, EqualsFailed;
    forall n | 0 <= n < |tasks|
      ensures SettledBy(Returned(tasks, fetches, encoded), n) <==>
              if Flatten(tasks, fetches) == [] || encoded.Unavailable? then
                FailsFetch(tasks[n], fetches[n]) || !EqualsFailed(tasks, fetches, n)
              else encoded.Broken? || FailsFetch(tasks[n], fetches[n]) || Contributed(tasks[n], fetches[n]) != []
    {
      SettledIff(tasks, fetches, encoded, n);
    }
  }

  // ------------------------------------------------------- tasks handed back neither way

  const FIRST := Task("t1", Some(1), "posts_x", ["a"], "c")
  const SECOND := Task("t2", Some(2), "posts_x", ["b"], "c")

  /** Two tasks, the first with its row, the second's row deleted meanwhile: with a working encoder the
      second is neither done nor failed. */
  lemma RowlessTaskIsLeft<V>(v: V)
    ensures !SettledBy(Returned([FIRST, SECOND], [Pairs([("a", "text")]), Pairs([])], Vectors([v])), 1)
    ensures SettledBy(Returned([FIRST, SECOND], [Pairs([("a", "text")]), Pairs([])], Vectors([v])), 0)
  {
    var tasks, fetches := [FIRST, SECOND], [Pairs([("a", "text")]), Pairs([])];
    FlattenHolds(tasks, fetches);
    assert HoldsTriple(tasks, fetches, Triple(0, "a", "text"));
    SettledIff(tasks, fetches, Vectors([v]), 0);
    SettledIff(tasks, fetches, Vectors([v]), 1);
  }

  /** The same message twice, the first fetch failing and the second finding nothing: the second is
      neither done nor failed. */
  lemma TwinOfFailedIsLeft<V>(encoded: Encoded<V>)
    ensures !SettledBy(Returned([FIRST, FIRST], [FetchError, Pairs([])], encoded), 1)
  {
    var tasks, fetches := [FIRST, FIRST], [FetchError, Pairs([])];
    FlattenHolds(tasks, fetches);
    if Flatten(tasks, fetches) != [] {
      assert Flatten(tasks, fetches)[0] in Flatten(tasks, fetches);
      assert false;
    }
    assert FailsFetch(tasks[0], fetches[0]) && tasks[0] == tasks[1];
    assert EqualsFailed(tasks, fetches, 1);
    SettledIff(tasks, fetches, encoded, 1);
  }

  // ------------------------------------------------------------------ events, by group

  function PostTablePairs(tasks: seq<Task>, triples: seq<Triple>): (r: seq<(GroupKey, string)>)
    requires InBatch(tasks, triples)
    ensures |r| == |triples|
  {
    seq(|triples|, i requires 0 <= i < |triples| => (GroupKeyOf(tasks, triples[i]), tasks[triples[i].n].postTable))
  }

  lemma {:induction false} EventsAreGroups(events: seq<Event>, keys: seq<GroupKey>, pairs: seq<(GroupKey, string)>)
    requires |events| == |keys|
    requires forall i :: 0 <= i < |events| ==>
               (events[i].postId, events[i].chunkTable) == keys[i] && events[i].chunkIds == Grouping.ValuesOf(pairs, keys[i])
    ensures AllEventPairs(events) == Grouping.Ungroup(keys, pairs)
  {
    if events != [] {
      EventsAreGroups(events[..|events| - 1], keys[..|keys| - 1], pairs);
    }
  }

  /** The post table recorded for a group is that of a task with the group's post and table. */
  lemma {:induction false} PostTableIsSomeTasks(tasks: seq<Task>, triples: seq<Triple>, k: GroupKey, v: string)
    requires InBatch(tasks, triples) && v in Grouping.ValuesOf(PostTablePairs(tasks, triples), k)
    ensures var pairs := ChunkPairs(tasks, triples);
            IsEventOf(Event(k.0, v, k.1, Grouping.ValuesOf(pairs, k)), k, pairs, tasks)
  {
    var pairs := PostTablePairs(tasks, triples);
    Grouping.ValuesCount(pairs, k, v);
    assert (k, v) in multiset(pairs);
    var i :| 0 <= i < |pairs| && pairs[i] == (k, v);
    assert tasks[triples[i].n].postTable == v;
  }

  lemma SameKeys(tasks: seq<Task>, triples: seq<Triple>)
    requires InBatch(tasks, triples)
    ensures Grouping.Keys(PostTablePairs(tasks, triples)) == Grouping.Keys(ChunkPairs(tasks, triples))
  {
    KeysOfFirsts(PostTablePairs(tasks, triples), ChunkPairs(tasks, triples));
  }

  lemma {:induction false} KeysOfFirsts<K, A, B>(a: seq<(K, A)>, b: seq<(K, B)>)
    requires |a| == |b| && forall i :: 0 <= i < |a| ==> a[i].0 == b[i].0
    ensures Grouping.Keys(a) == Grouping.Keys(b)
  {
    if a != [] {
      KeysOfFirsts(a[..|a| - 1], b[..|b| - 1]);
    }
  }

  ghost predicate IsEventOf(e: Event, k: GroupKey, pairs: seq<(GroupKey, string)>, tasks: seq<Task>) {
    (e.postId, e.chunkTable) == k && e.chunkIds == Grouping.ValuesOf(pairs, k) && Describes(e, tasks)
  }

  /** One event per group, built from the two dictionaries the handler fills. */
  method BuildEvents(tasks: seq<Task>, triples: seq<Triple>) returns (events: seq<Event>)
    requires InBatch(tasks, triples)
    ensures Announces(events, tasks, triples)
  {
    hide IsEventOf, Announces, ChunkPairs, PostTablePairs;
    var pairs, metaPairs := ChunkPairs(tasks, triples), PostTablePairs(tasks, triples);
    var keys, groupChunks := Grouping.Group(pairs);
    var _, groupMeta := Grouping.Group(metaPairs);
    SameKeys(tasks, triples);
    Grouping.KeysAreDistinct(pairs);
    Grouping.KeysAreDistinct(metaPairs);
    events := [];
    for i := 0 to |keys|
      invariant |events| == i
      invariant forall j :: 0 <= j < i ==> IsEventOf(events[j], keys[j], pairs, tasks)
    {
      var k := keys[i];
      assert k in groupChunks && k in groupMeta;
      var postTable := groupMeta[k][0];
      var e := Event(k.0, postTable, k.1, groupChunks[k]);
      PostTableIsSomeTasks(tasks, triples, k, postTable);
      events := events + [e];
    }
    GroupsAnnounce(events, tasks, triples);
  }

  lemma GroupsAnnounce(events: seq<Event>, tasks: seq<Task>, triples: seq<Triple>)
    requires InBatch(tasks, triples)
    requires var pairs := ChunkPairs(tasks, triples);
             var keys := Grouping.Keys(pairs);
             |events| == |keys| && forall j :: 0 <= j < |keys| ==> IsEventOf(events[j], keys[j], pairs, tasks)
    ensures Announces(events, tasks, triples)
  {
    hide Describes, ChunkPairs, Grouping.Keys, Grouping.ValuesOf, Grouping.Ungroup, AllEventPairs;
    var pairs := ChunkPairs(tasks, triples);
    var keys := Grouping.Keys(pairs);
    EventsAreGroups(events, keys, pairs);
    Grouping.GroupsPartition(pairs);
    OneEventPerKey(events, keys, pairs, tasks);
  }

  lemma OneEventPerKey(events: seq<Event>, keys: seq<GroupKey>, pairs: seq<(GroupKey, string)>, tasks: seq<Task>)
    requires keys == Grouping.Keys(pairs) && |events| == |keys|
    requires forall j :: 0 <= j < |keys| ==> IsEventOf(events[j], keys[j], pairs, tasks)
    ensures forall i, j :: 0 <= i < j < |events| ==>
              (events[i].postId, events[i].chunkTable) != (events[j].postId, events[j].chunkTable)
    ensures forall i :: 0 <= i < |events| ==> events[i].chunkIds != [] && Describes(events[i], tasks)
  {
    hide Describes, Grouping.Keys, Grouping.ValuesOf;
    Grouping.KeysAreDistinct(pairs);
    forall j | 0 <= j < |events| ensures events[j].chunkIds != [] && Describes(events[j], tasks) {
      assert keys[j] in keys;
    }
    forall i, j | 0 <= i < j < |events|
      ensures (events[i].postId, events[i].chunkTable) != (events[j].postId, events[j].chunkTable)
    {
      assert keys[i] != keys[j];
    }
  }

  // --------------------------------------------------------------- running the handler

  function EmbeddingRows<V>(tasks: seq<Task>, triples: seq<Triple>, vectors: seq<V>): (r: seq<EmbeddingRow<V>>)
    requires InBatch(tasks, triples) && |vectors| == |triples|
    ensures |r| == |triples|
  {
    seq(|triples|, i requires 0 <= i < |triples| =>
      EmbeddingRow(tasks[triples[i].n].chunkTable, triples[i].chunkId, vectors[i]))
  }

  method FetchAll(tasks: seq<Task>, fetches: seq<Fetch>) returns (triples: seq<Triple>, failed: seq<nat>)
    requires |tasks| == |fetches|
    ensures triples == Flatten(tasks, fetches) && failed == Failures(tasks, fetches)
    ensures InBatch(tasks, triples)
  {
    triples, failed := [], [];
    for n := 0 to |tasks|
      invariant triples == Flatten(tasks[..n], fetches[..n]) && failed == Failures(tasks[..n], fetches[..n])
    {
      assert tasks[..n + 1][..n] == tasks[..n] && fetches[..n + 1][..n] == fetches[..n];
      var task := tasks[n];
      if !Asked(task) {
        continue;
      }
      match fetches[n]
      case NoTable =>
      case FetchError => failed := failed + [n];
      case Pairs(pairs) => triples := triples + TriplesOf(n, pairs);
    }
    assert tasks[..|tasks|] == tasks && fetches[..|tasks|] == fetches;
    FlattenHolds(tasks, fetches);
    forall i | 0 <= i < |triples| ensures triples[i].n < |tasks| {
      assert triples[i] in triples;
    }
  }

  class EmbedHandler<V> {
    var rows: Rows<V>
    var events: seq<Event>

    constructor (rows: Rows<V>)
      ensures this.rows == rows && events == []
    {
      this.rows, events := rows, [];
    }

    /** Files the vectors by table, then updates table by table; the update of table number `fault`,
        if there is one, raises and leaves the tables before it written. */
    method SaveBatch(batch: seq<EmbeddingRow<V>>, ghost enc: string -> V, fault: Option<nat>)
      returns (raised: bool, ghost saved: set<RowKey>)
      requires OwnText(rows, enc, batch)
      modifies this`rows
      ensures rows == Written(old(rows), enc, saved) && saved <= KeysOf(batch)
      ensures !raised ==> saved == KeysOf(batch)
      ensures fault.None? ==> !raised
    {
      hide Written, OwnText, UpdateAll, ByTable, FiledKeys, KeysOf;
      var pairs := ByTable(batch);
      var keys, byTable := Grouping.Group(pairs);
      ghost var start := rows;
      NothingFiled(start, enc, pairs);
      assert keys[..0] == [];
      for i := 0 to |keys|
        invariant rows == Written(start, enc, FiledKeys(pairs, keys[..i]))
      {
        if fault == Some(i) {
          FiledFromBatch(batch, keys[..i]);
          return true, FiledKeys(pairs, keys[..i]);
        }
        assert keys[i] in byTable;
        var group := byTable[keys[i]];
        SaveOneTable(start, enc, batch, keys, i);
        rows := UpdateAll(rows, group);
      }
      assert keys[..|keys|] == keys;
      AllFiled(batch);
      return false, KeysOf(batch);
    }

    /** The whole handler. `fetches` is what the store answered for each task, `encode` the encoder; a
        pointwise `enc` describes the vectors when it answers. None means that saving or publishing
        raised; then the rows of some tables may be written and some events sent. */
    method EmbedChunks(tasks: seq<Task>, fetches: seq<Fetch>, encode: seq<string> -> Encoded<V>, faults: Faults,
                       ghost enc: string -> V)
      returns (r: Option<(seq<nat>, seq<nat>)>, ghost saved: set<RowKey>, ghost announced: seq<Event>)
      requires |tasks| == |fetches| && AllFaithful(rows, tasks, fetches) && Encodes(encode, enc)
      modifies this
      ensures r.Some? ==> r.value == Returned(tasks, fetches, encode(Texts(Flatten(tasks, fetches))))
      ensures r.Some? ==> forall n :: 0 <= n < |tasks| ==>
                && (n in r.value.0 <==> IsDone(tasks, fetches, encode(Texts(Flatten(tasks, fetches))), n))
                && (n in r.value.1 <==> IsFailed(tasks, fetches, encode(Texts(Flatten(tasks, fetches))), n))
      ensures r.None? ==> Embeds(tasks, fetches, encode) && faults != Faults(None, None)
      ensures rows == Written(old(rows), enc, saved) && saved <= Covered(old(rows), tasks, fetches)
      ensures r.Some? && Answers(tasks, fetches, encode) ==> saved == Covered(old(rows), tasks, fetches)
      ensures !Embeds(tasks, fetches, encode) ==> rows == old(rows) && announced == []
      ensures InBatch(tasks, Flatten(tasks, fetches)) && events == old(events) + announced
      ensures r.Some? && Embeds(tasks, fetches, encode) ==> Announces(announced, tasks, Flatten(tasks, fetches))
      ensures r.None? ==> exists all :: announced <= all && Announces(all, tasks, Flatten(tasks, fetches))
    {
      hide Announces, OwnText, Flatten, Failures, KeysOf, Returned, Contributors, NotFailed, IsDone, IsFailed;
      forall n: nat | n < |tasks|
        ensures n in Returned(tasks, fetches, encode(Texts(Flatten(tasks, fetches)))).0
                <==> IsDone(tasks, fetches, encode(Texts(Flatten(tasks, fetches))), n)
        ensures n in Returned(tasks, fetches, encode(Texts(Flatten(tasks, fetches)))).1
                <==> IsFailed(tasks, fetches, encode(Texts(Flatten(tasks, fetches))), n)
      {
        HandedBackIff(tasks, fetches, encode(Texts(Flatten(tasks, fetches))), n);
      }
      var triples, failed := FetchAll(tasks, fetches);
      saved, announced := {}, [];
      NothingWritten(rows, enc);
      if triples == [] {
        NothingCovered(rows, tasks, fetches);
        r := Some((NotFailed(tasks, failed, |tasks|), failed));
        ReturnedIs(tasks, fetches, encode(Texts(triples)));
        return;
      }
      var texts := seq(|triples|, i requires 0 <= i < |triples| => triples[i].text);
      assert texts == Texts(triples);
      ReturnedIs(tasks, fetches, encode(texts));
      match encode(texts)
      case Unavailable => r := Some((NotFailed(tasks, failed, |tasks|), failed));
      case Broken => r := Some(([], Upto(|tasks|)));
      case Vectors(vectors) =>
        hide Written;
        var batch := EmbeddingRows(tasks, triples, vectors);
        RowsAreOwnText(rows, tasks, fetches, vectors, enc);
        var raised: bool;
        raised, saved := SaveBatch(batch, enc, faults.save);
        var built := BuildEvents(tasks, triples);
        if raised {
          assert announced <= built;
          return None, saved, [];
        }
        if faults.publish.Some? && faults.publish.value < |built| {
          var sent := built[..faults.publish.value];
          events := events + sent;
          assert sent <= built;
          return None, saved, sent;
        }
        announced := built;
        events := events + built;
        r := Some((Contributors(triples), failed));
    }
  }

  /** The table whose update raises, and the event whose publication raises, if any. */
  datatype Faults = Faults(save: Option<nat>, publish: Option<nat>)

  lemma NothingWritten<V>(rows: Rows<V>, enc: string -> V)
    ensures Written(rows, enc, {}) == rows
  {
  }

  lemma ReturnedIs<V>(tasks: seq<Task>, fetches: seq<Fetch>, encoded: Encoded<V>)
    requires |tasks| == |fetches|
    ensures var (triples, failed) := (Flatten(tasks, fetches), Failures(tasks, fetches));
            Returned(tasks, fetches, encoded)
            == if triples == [] || encoded.Unavailable? then (NotFailed(tasks, failed, |tasks|), failed)
               else if encoded.Broken? then ([], Upto(|tasks|)) else (Contributors(triples), failed)
  {
  }

  /** Where no task contributed a row, no stored row was asked for. */
  lemma NothingCovered<V>(rows: Rows<V>, tasks: seq<Task>, fetches: seq<Fetch>)
    requires |tasks| == |fetches| && AllFaithful(rows, tasks, fetches) && Flatten(tasks, fetches) == []
    ensures Covered(rows, tasks, fetches) == {}
  {
    forall k | k in rows ensures !Wanted(tasks, fetches, k) {
      if Wanted(tasks, fetches, k) {
        var _ := WantedIsFetched(rows, tasks, fetches, k);
        assert false;
      }
    }
  }

  /** Every text to be encoded, if there is any, gets its vector. */
  ghost predicate Answers<V>(tasks: seq<Task>, fetches: seq<Fetch>, encode: seq<string> -> Encoded<V>)
    requires |tasks| == |fetches|
  {
    Flatten(tasks, fetches) == [] || encode(Texts(Flatten(tasks, fetches))).Vectors?
  }

  ghost predicate Embeds<V>(tasks: seq<Task>, fetches: seq<Fetch>, encode: seq<string> -> Encoded<V>)
    requires |tasks| == |fetches|
  {
    Flatten(tasks, fetches) != [] && encode(Texts(Flatten(tasks, fetches))).Vectors?
  }

  /** Position by position, each vector belongs to its chunk's own text and table, and the rows
      addressed are those the tasks asked for. */
  lemma RowsAreOwnText<V>(rows: Rows<V>, tasks: seq<Task>, fetches: seq<Fetch>, vectors: seq<V>, enc: string -> V)
    requires |tasks| == |fetches| && AllFaithful(rows, tasks, fetches) && InBatch(tasks, Flatten(tasks, fetches))
    requires |vectors| == |Flatten(tasks, fetches)|
    requires forall i :: 0 <= i < |vectors| ==> vectors[i] == enc(Flatten(tasks, fetches)[i].text)
    ensures var batch := EmbeddingRows(tasks, Flatten(tasks, fetches), vectors);
            OwnText(rows, enc, batch) && KeysOf(batch) == Covered(rows, tasks, fetches)
  {
    hide Flatten, Written, Wanted, AllFaithful, InBatch;
    var triples := Flatten(tasks, fetches);
    var batch := EmbeddingRows(tasks, triples, vectors);
    forall row | row in batch
      ensures KeyOf(row) in rows && row.embedding == enc(rows[KeyOf(row)].text) && Wanted(tasks, fetches, KeyOf(row))
    {
      var i :| 0 <= i < |batch| && batch[i] == row;
      RowIsOwnText(rows, tasks, fetches, i);
    }
    forall k | k in rows && Wanted(tasks, fetches, k) ensures k in KeysOf(batch) {
      WantedIsWritten(rows, tasks, fetches, vectors, k);
    }
  }

  lemma RowIsOwnText<V>(rows: Rows<V>, tasks: seq<Task>, fetches: seq<Fetch>, i: nat)
    requires |tasks| == |fetches| && AllFaithful(rows, tasks, fetches) && InBatch(tasks, Flatten(tasks, fetches))
    requires i < |Flatten(tasks, fetches)|
    ensures var t := Flatten(tasks, fetches)[i];
            var k := RowKey(TableNames.Lower(tasks[t.n].chunkTable), t.chunkId);
            k in rows && rows[k].text == t.text && Wanted(tasks, fetches, k)
  {
    FlattenHolds(tasks, fetches);
    var t := Flatten(tasks, fetches)[i];
    assert t in Flatten(tasks, fetches);
    assert Faithful(rows, tasks[t.n], fetches[t.n]);
  }

  /** A stored row that is asked for is among the rows fetched. */
  lemma WantedIsFetched<V>(rows: Rows<V>, tasks: seq<Task>, fetches: seq<Fetch>, k: RowKey) returns (n: nat)
    requires |tasks| == |fetches| && AllFaithful(rows, tasks, fetches) && k in rows && Wanted(tasks, fetches, k)
    ensures n < |tasks| && k.table == TableNames.Lower(tasks[n].chunkTable)
    ensures Triple(n, k.chunkId, rows[k].text) in Flatten(tasks, fetches)
  {
    FlattenHolds(tasks, fetches);
    n :| 0 <= n < |tasks| && Asked(tasks[n]) && fetches[n].Pairs?
         && k.table == TableNames.Lower(tasks[n].chunkTable) && k.chunkId in tasks[n].chunkIds;
    assert Faithful(rows, tasks[n], fetches[n]);
    assert HoldsTriple(tasks, fetches, Triple(n, k.chunkId, rows[k].text));
  }

  lemma WantedIsWritten<V>(rows: Rows<V>, tasks: seq<Task>, fetches: seq<Fetch>, vectors: seq<V>, k: RowKey)
    requires |tasks| == |fetches| && AllFaithful(rows, tasks, fetches) && InBatch(tasks, Flatten(tasks, fetches))
    requires |vectors| == |Flatten(tasks, fetches)| && k in rows && Wanted(tasks, fetches, k)
    ensures k in KeysOf(EmbeddingRows(tasks, Flatten(tasks, fetches), vectors))
  {
    hide Flatten, AllFaithful;
    var triples := Flatten(tasks, fetches);
    var batch := EmbeddingRows(tasks, triples, vectors);
    var n := WantedIsFetched(rows, tasks, fetches, k);
    var i :| 0 <= i < |triples| && triples[i] == Triple(n, k.chunkId, rows[k].text);
    assert batch[i] in batch && KeyOf(batch[i]) == k;
  }

  function ByTable<V>(batch: seq<EmbeddingRow<V>>): (r: seq<(string, EmbeddingRow<V>)>)
    ensures |r| == |batch| && forall i :: 0 <= i < |r| ==> r[i] == (batch[i].chunkTable, batch[i])
  {
    seq(|batch|, i requires 0 <= i < |batch| => (batch[i].chunkTable, batch[i]))
  }

  /** The rows addressed by the groups of some tables. */
  ghost function FiledKeys<V>(pairs: seq<(string, EmbeddingRow<V>)>, tables: seq<string>): set<RowKey> {
    if tables == [] then {}
    else FiledKeys(pairs, tables[..|tables| - 1]) + KeysOf(Grouping.ValuesOf(pairs, tables[|tables| - 1]))
  }

  lemma NothingFiled<V>(rows: Rows<V>, enc: string -> V, pairs: seq<(string, EmbeddingRow<V>)>)
    ensures Written(rows, enc, FiledKeys(pairs, [])) == rows
  {
  }

  lemma SaveOneTable<V>(start: Rows<V>, enc: string -> V, batch: seq<EmbeddingRow<V>>, tables: seq<string>, i: nat)
    requires OwnText(start, enc, batch) && i < |tables|
    ensures UpdateAll(Written(start, enc, FiledKeys(ByTable(batch), tables[..i])),
                      Grouping.ValuesOf(ByTable(batch), tables[i]))
         == Written(start, enc, FiledKeys(ByTable(batch), tables[..i + 1]))
  {
    hide Written, OwnText, UpdateAll, ByTable, KeysOf;
    var pairs := ByTable(batch);
    var done, group := FiledKeys(pairs, tables[..i]), Grouping.ValuesOf(pairs, tables[i]);
    assert tables[..i + 1][..i] == tables[..i];
    GroupIsFromBatch(batch, tables[i]);
    OwnTextLater(start, enc, batch, group, done);
    UpdateAllWrites(Written(start, enc, done), enc, group);
    WrittenTwice(start, enc, done, KeysOf(group));
  }

  lemma {:induction false} FiledFromBatch<V>(batch: seq<EmbeddingRow<V>>, tables: seq<string>)
    ensures FiledKeys(ByTable(batch), tables) <= KeysOf(batch)
  {
    if tables != [] {
      FiledFromBatch(batch, tables[..|tables| - 1]);
      GroupIsFromBatch(batch, tables[|tables| - 1]);
    }
  }

  lemma {:induction false} FiledHas<V>(pairs: seq<(string, EmbeddingRow<V>)>, tables: seq<string>, row: EmbeddingRow<V>)
    requires row.chunkTable in tables && row in Grouping.ValuesOf(pairs, row.chunkTable)
    ensures KeyOf(row) in FiledKeys(pairs, tables)
  {
    var n := |tables| - 1;
    if tables[n] != row.chunkTable {
      FiledHas(pairs, tables[..n], row);
    }
  }

  /** All groups together address the rows of the batch. */
  lemma AllFiled<V>(batch: seq<EmbeddingRow<V>>)
    ensures FiledKeys(ByTable(batch), Grouping.Keys(ByTable(batch))) == KeysOf(batch)
  {
    hide FiledKeys, Grouping.Keys, Grouping.ValuesOf, ByTable;
    var pairs := ByTable(batch);
    var tables := Grouping.Keys(pairs);
    FiledFromBatch(batch, tables);
    BatchIsGrouped(batch);
    forall row | row in batch ensures KeyOf(row) in FiledKeys(pairs, tables) {
      FiledHas(pairs, tables, row);
    }
  }

  lemma GroupIsFromBatch<V>(batch: seq<EmbeddingRow<V>>, table: string)
    ensures forall row :: row in Grouping.ValuesOf(ByTable(batch), table) ==> row in batch
  {
    forall row | row in Grouping.ValuesOf(ByTable(batch), table) ensures row in batch {
      Grouping.ValuesCount(ByTable(batch), table, row);
      assert (table, row) in multiset(ByTable(batch));
      var i :| 0 <= i < |batch| && ByTable(batch)[i] == (table, row);
    }
  }

  lemma BatchIsGrouped<V>(batch: seq<EmbeddingRow<V>>)
    ensures forall row :: row in batch ==>
              row.chunkTable in Grouping.Keys(ByTable(batch)) && row in Grouping.ValuesOf(ByTable(batch), row.chunkTable)
  {
    Grouping.KeysAreDistinct(ByTable(batch));
    forall row | row in batch
      ensures row.chunkTable in Grouping.Keys(ByTable(batch)) && row in Grouping.ValuesOf(ByTable(batch), row.chunkTable)
    {
      var i :| 0 <= i < |batch| && batch[i] == row;
      assert ByTable(batch)[i] == (row.chunkTable, row);
      assert (row.chunkTable, row) in multiset(ByTable(batch));
      Grouping.ValuesCount(ByTable(batch), row.chunkTable, row);
    }
  }
}
