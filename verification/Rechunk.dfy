/** Incremental re-chunking: sync, changed fields, dispatch, hash-deduplicated chunk storage. */
module Rechunk {

  import opened Basics

  datatype Post = Post(id: int, bodyText: Option<string>, customBody: Option<string>, summary: Option<string>,
                       title: string, customTitle: Option<string>, updatedAt: int)

  datatype Field = BodyText | CustomBody | Summary | Title | CustomTitle

  /** What a chunk task is about; the analysis kind is not fed by post.synced. */
  datatype Kind = BodyKind | TitleKind | SummaryTitleKind

  type Key = (int, Kind)

  datatype Event = Event(id: int, fieldsChanged: seq<Field>, hasSummary: bool)

  datatype Status = Inserted | Updated | Skipped | Errored

  /** `value or ""`: None and the empty string are the same. */
  function Plain(o: Option<string>): string {
    if o.Some? then o.value else ""
  }

  function Or(a: string, b: string): string {
    if a != "" then a else b
  }

  function FieldOf(p: Post, f: Field): string {
    match f
    case BodyText => Plain(p.bodyText)
    case CustomBody => Plain(p.customBody)
    case Summary => Plain(p.summary)
    case Title => p.title
    case CustomTitle => Plain(p.customTitle)
  }

  const FIELDS: seq<Field> := [BodyText, CustomBody, Summary, Title, CustomTitle]

  function Differing(post: Post, existing: Post, fields: seq<Field>): (r: seq<Field>)
    ensures forall f :: f in r <==> f in fields && FieldOf(post, f) != FieldOf(existing, f)
  {
    if fields == [] then []
    else
      var f := fields[|fields| - 1];
      assert forall g :: g in fields <==> g in fields[..|fields| - 1] || g == f;
      Differing(post, existing, fields[..|fields| - 1]) + if FieldOf(post, f) != FieldOf(existing, f) then [f] else []
  }

  /** An empty list means "everything", as for a post seen for the first time. */
  function ChangedFields(post: Post, existing: Option<Post>): seq<Field> {
    if existing.None? then [] else Differing(post, existing.value, FIELDS)
  }

  method EvaluateChangedFields(post: Post, existing: Option<Post>) returns (changed: seq<Field>)
    ensures changed == ChangedFields(post, existing)
  {
    changed := [];
    if existing.Some? {
      for i := 0 to |FIELDS|
        invariant changed == Differing(post, existing.value, FIELDS[..i])
      {
        assert FIELDS[..i + 1][..i] == FIELDS[..i];
        if FieldOf(post, FIELDS[i]) != FieldOf(existing.value, FIELDS[i]) {
          changed := changed + [FIELDS[i]];
        }
      }
      assert FIELDS[..|FIELDS|] == FIELDS;
    }
  }

  predicate AnyOf(changed: seq<Field>, wanted: set<Field>) {
    changed == [] || exists f :: f in changed && f in wanted
  }

  /** The dispatcher's three flags. */
  function Dispatched(e: Event): set<Kind> {
    (if AnyOf(e.fieldsChanged, {BodyText, CustomBody}) then {BodyKind} else {})
    + (if AnyOf(e.fieldsChanged, {Title, CustomTitle}) then {TitleKind} else {})
    + (if e.hasSummary && AnyOf(e.fieldsChanged, {Summary, Title, CustomTitle}) then {SummaryTitleKind} else {})
  }

  /** The text a task of this kind chunks; empty means there is nothing to chunk. `strip` is str.strip. */
  function ResolveText(strip: string -> string, kind: Kind, p: Post): string {
    match kind
    case BodyKind => Or(Plain(p.customBody), Plain(p.bodyText))
    case TitleKind => Or(Plain(p.customTitle), p.title)
    case SummaryTitleKind =>
      var title := strip(p.title);
      var summary := strip(Plain(p.summary));
      if title == "" then (if summary == "" then "" else "Summary: " + summary)
      else if summary == "" then "Title: " + title
      else "Title: " + title + "\n\n" + "Summary: " + summary
  }

  /** summary_title is promised only while the post has a summary. */
  predicate Promised(kind: Kind, p: Post) {
    kind != SummaryTitleKind || Plain(p.summary) != ""
  }

  /** How text becomes windows; the hash of a window is taken to be injective. */
  datatype Chunking = Chunking(strip: string -> string, windows: (Kind, string) -> seq<string>)

  function WindowSet(c: Chunking, kind: Kind, text: string): set<string> {
    if text == "" then {} else set w | w in c.windows(kind, text)
  }

  /** The windows of the current text of one kind of one post. */
  function Wanted(c: Chunking, kind: Kind, p: Post): set<string> {
    WindowSet(c, kind, ResolveText(c.strip, kind, p))
  }

  predicate Blank(o: Option<string>) {
    o == None || o == Some("")
  }

  /** The set with the windows of one text, if there is text, added. */
  function Plus(stored: set<string>, c: Chunking, kind: Kind, text: string): set<string> {
    stored + if text == "" then {} else set w | w in c.windows(kind, text)
  }

  /** `after` is `before` with the windows of the text that a post of these fields is chunked by: an edited
      body or title goes before the original one, and title and summary are written out with their names. */
  ghost predicate Gains(c: Chunking, kind: Kind, p: Post, before: set<string>, after: set<string>) {
    match kind
    case BodyKind =>
      if !Blank(p.customBody) then after == Plus(before, c, BodyKind, p.customBody.value)
      else if !Blank(p.bodyText) then after == Plus(before, c, BodyKind, p.bodyText.value)
      else after == before
    case TitleKind =>
      if !Blank(p.customTitle) then after == Plus(before, c, TitleKind, p.customTitle.value)
      else after == Plus(before, c, TitleKind, p.title)
    case SummaryTitleKind =>
      var title, summary := c.strip(p.title), c.strip(if p.summary.None? then "" else p.summary.value);
      if title == "" && summary == "" then after == before
      else if summary == "" then after == Plus(before, c, SummaryTitleKind, "Title: " + title)
      else if title == "" then after == Plus(before, c, SummaryTitleKind, "Summary: " + summary)
      else after == Plus(before, c, SummaryTitleKind, "Title: " + title + "\n\nSummary: " + summary)
  }

  lemma WantedIsGained(c: Chunking, kind: Kind, p: Post, before: set<string>)
    ensures Gains(c, kind, p, before, before + Wanted(c, kind, p))
  {
    if kind == SummaryTitleKind {
      var title, summary := c.strip(p.title), c.strip(Plain(p.summary));
      assert "Title: " + title + "\n\n" + "Summary: " + summary == "Title: " + title + "\n\nSummary: " + summary;
    }
  }

  ghost predicate Alike(a: Option<string>, b: Option<string>) {
    a == b || (Blank(a) && Blank(b))
  }

  /** None of the five fields that are compared differs. */
  ghost predicate NothingChanged(a: Post, b: Post) {
    && Alike(a.bodyText, b.bodyText) && Alike(a.customBody, b.customBody) && Alike(a.summary, b.summary)
    && a.title == b.title && Alike(a.customTitle, b.customTitle)
  }

  lemma ChangedIff(post: Post, existing: Post)
    ensures var changed := ChangedFields(post, Some(existing));
            && (changed == [] <==> NothingChanged(post, existing))
            && (BodyText in changed <==> !Alike(post.bodyText, existing.bodyText))
            && (CustomBody in changed <==> !Alike(post.customBody, existing.customBody))
            && (Summary in changed <==> !Alike(post.summary, existing.summary))
            && (Title in changed <==> post.title != existing.title)
            && (CustomTitle in changed <==> !Alike(post.customTitle, existing.customTitle))
  {
    AlikeIff(post.bodyText, existing.bodyText);
    AlikeIff(post.customBody, existing.customBody);
    AlikeIff(post.summary, existing.summary);
    AlikeIff(post.customTitle, existing.customTitle);
    EveryField();
    hide Differing, Alike, Plain, FIELDS;
    var changed := Differing(post, existing, FIELDS);
    if changed != [] {
      assert changed[0] in changed;
      match changed[0] {
        case BodyText => case CustomBody => case Summary => case Title => case CustomTitle =>
      }
    } else {
      assert BodyText !in changed && CustomBody !in changed && Summary !in changed && Title !in changed
             && CustomTitle !in changed;
    }
  }

  lemma AnyOfIff(changed: seq<Field>, wanted: set<Field>)
    ensures AnyOf(changed, wanted) <==>
            changed == [] || (BodyText in changed && BodyText in wanted) || (CustomBody in changed && CustomBody in wanted)
            || (Summary in changed && Summary in wanted) || (Title in changed && Title in wanted)
            || (CustomTitle in changed && CustomTitle in wanted)
  {
    if f :| f in changed && f in wanted {
      match f {
        case BodyText => case CustomBody => case Summary => case Title => case CustomTitle =>
      }
    }
  }

  lemma SentIff(e: Event)
    ensures BodyKind in Dispatched(e) <==> AnyOf(e.fieldsChanged, {BodyText, CustomBody})
    ensures TitleKind in Dispatched(e) <==> AnyOf(e.fieldsChanged, {Title, CustomTitle})
    ensures SummaryTitleKind in Dispatched(e) <==> e.hasSummary && AnyOf(e.fieldsChanged, {Summary, Title, CustomTitle})
  {}

  lemma AlikeIff(a: Option<string>, b: Option<string>)
    ensures Alike(a, b) <==> Plain(a) == Plain(b)
  {}

  lemma EveryField()
    ensures BodyText in FIELDS && CustomBody in FIELDS && Summary in FIELDS && Title in FIELDS && CustomTitle in FIELDS
  {
    assert FIELDS[0] == BodyText && FIELDS[1] == CustomBody && FIELDS[2] == Summary && FIELDS[3] == Title
           && FIELDS[4] == CustomTitle;
  }

  /** What a sync makes the dispatcher send, by the fields of the post: everything for a new post or one in
      which nothing changed, otherwise the kinds one of whose fields changed; and summaries only if there
      is one. */
  lemma DispatchedIff(post: Post, existing: Option<Post>)
    ensures var sent := Dispatched(Event(post.id, ChangedFields(post, existing), Plain(post.summary) != ""));
            var all := existing.None? || NothingChanged(post, existing.value);
            && (BodyKind in sent <==>
                  all || !Alike(post.bodyText, existing.value.bodyText) || !Alike(post.customBody, existing.value.customBody))
            && (TitleKind in sent <==>
                  all || post.title != existing.value.title || !Alike(post.customTitle, existing.value.customTitle))
            && (SummaryTitleKind in sent <==>
                  !Blank(post.summary)
                  && (all || !Alike(post.summary, existing.value.summary) || post.title != existing.value.title
                      || !Alike(post.customTitle, existing.value.customTitle)))
  {
    if existing.Some? {
      ChangedIff(post, existing.value);
    }
    assert existing.None? ==> ChangedFields(post, existing) == [];
    assert Plain(post.summary) != "" <==> !Blank(post.summary);
    var changed := ChangedFields(post, existing);
    AnyOfIff(changed, {BodyText, CustomBody});
    AnyOfIff(changed, {Title, CustomTitle});
    AnyOfIff(changed, {Summary, Title, CustomTitle});
    SentIff(Event(post.id, changed, Plain(post.summary) != ""));
    hide ChangedFields, Alike, NothingChanged, Plain, Blank, AnyOf, Dispatched;
  }

  /** A sync that changes what a promised kind should hold announces that kind. */
  lemma ChangeIsDispatched(c: Chunking, post: Post, existing: Option<Post>, kind: Kind)
    requires Promised(kind, post)
    requires existing.None? || !Promised(kind, existing.value)
             || ResolveText(c.strip, kind, existing.value) != ResolveText(c.strip, kind, post)
    ensures kind in Dispatched(Event(post.id, ChangedFields(post, existing), Plain(post.summary) != ""))
  {
    if existing.Some? {
      var changed := ChangedFields(post, existing);
      match kind {
        case BodyKind =>
          assert CustomBody in changed || BodyText in changed;
        case TitleKind =>
          assert CustomTitle in changed || Title in changed;
        case SummaryTitleKind =>
          assert Summary in changed || Title in changed;
      }
    }
  }

  // ------------------------------------------------------------- the sync operation

  function Existing(posts: map<int, Post>, id: int): Option<Post> {
    if id in posts then Some(posts[id]) else None
  }

  function UpsertStatus(posts: map<int, Post>, post: Post): Status {
    if post.id !in posts then Inserted
    else if posts[post.id].updatedAt >= post.updatedAt then Skipped
    else Updated
  }

  function EventFor(posts: map<int, Post>, post: Post): Event {
    Event(post.id, ChangedFields(post, Existing(posts, post.id)), Plain(post.summary) != "")
  }

  datatype Synced = Synced(posts: map<int, Post>, events: seq<Event>, statuses: seq<Status>)

  /** Where the treatment of one post raises, if it does: before anything is stored, or when the event of
      a stored post is published. */
  datatype Fault = NoFault | StoreRaises | PublishRaises

  function SyncOne(s: Synced, post: Post, fault: Fault): Synced {
    var status := UpsertStatus(s.posts, post);
    if fault.StoreRaises? then s.(statuses := s.statuses + [Errored])
    else if status == Skipped then s.(statuses := s.statuses + [status])
    else if fault.PublishRaises? then s.(posts := s.posts[post.id := post], statuses := s.statuses + [Errored])
    else Synced(s.posts[post.id := post], s.events + [EventFor(s.posts, post)], s.statuses + [status])
  }

  function SyncAll(s: Synced, batch: seq<Post>, faults: nat -> Fault): Synced {
    if batch == [] then s
    else
      var n := |batch| - 1;
      SyncOne(SyncAll(s, batch[..n], faults), batch[n], faults(n))
  }

  /** One post: no stored version goes back, the new one is stored or beaten, and nothing else changes. */
  lemma SyncOneKeepsNewest(s: Synced, post: Post, fault: Fault)
    ensures var r := SyncOne(s, post, fault);
            && (forall id :: id in s.posts ==>
                  id in r.posts && (r.posts[id] == s.posts[id] || s.posts[id].updatedAt < r.posts[id].updatedAt))
            && (!fault.StoreRaises? ==> post.id in r.posts && post.updatedAt <= r.posts[post.id].updatedAt)
            && (forall id :: id in r.posts ==>
                  (id in s.posts && r.posts[id] == s.posts[id]) || (r.posts[id] == post && post.id == id))
  {
    hide EventFor;
  }

  /** No stored version goes back, every version that could be stored is there or beaten, and nothing else
      is stored. */
  lemma {:induction false} SyncKeepsNewest(s: Synced, batch: seq<Post>, faults: nat -> Fault)
    ensures var r := SyncAll(s, batch, faults);
            && (forall id :: id in s.posts ==>
                  id in r.posts && (r.posts[id] == s.posts[id] || s.posts[id].updatedAt < r.posts[id].updatedAt))
            && (forall i: nat :: i < |batch| && !faults(i).StoreRaises? ==>
                  batch[i].id in r.posts && batch[i].updatedAt <= r.posts[batch[i].id].updatedAt)
            && (forall id :: id in r.posts ==>
                  (id in s.posts && r.posts[id] == s.posts[id]) || (r.posts[id] in batch && r.posts[id].id == id))
  {
    if batch != [] {
      hide SyncOne;
      var n := |batch| - 1;
      SyncKeepsNewest(s, batch[..n], faults);
      SyncOneKeepsNewest(SyncAll(s, batch[..n], faults), batch[n], faults(n));
      assert forall i :: 0 <= i < n ==> batch[..n][i] == batch[i];
      assert forall p :: p in batch[..n] ==> p in batch;
    }
  }

  function CountStored(statuses: seq<Status>): nat {
    if statuses == [] then 0
    else CountStored(statuses[..|statuses| - 1])
         + if statuses[|statuses| - 1] == Inserted || statuses[|statuses| - 1] == Updated then 1 else 0
  }

  lemma SyncOneAnnounces(s: Synced, post: Post, fault: Fault)
    ensures var r := SyncOne(s, post, fault);
            && |r.statuses| == |s.statuses| + 1 && r.statuses[..|s.statuses|] == s.statuses
            && var status := r.statuses[|s.statuses|];
               && |r.events| == |s.events| + (if status == Inserted || status == Updated then 1 else 0)
               && (status == Errored ==> !fault.NoFault?) && (fault.StoreRaises? ==> status == Errored)
               && (status == Skipped <==>
                     !fault.StoreRaises? && post.id in s.posts && s.posts[post.id].updatedAt >= post.updatedAt)
               && (status == Inserted ==> post.id !in s.posts) && (status == Updated ==> post.id in s.posts)
  {
    hide EventFor;
  }

  /** One event per post reported as stored, one status per post; an error is reported only where the
      treatment raised, and wherever storing did. */
  lemma {:induction false} SyncAnnouncesEach(s: Synced, batch: seq<Post>, faults: nat -> Fault)
    requires s.statuses == []
    ensures var r := SyncAll(s, batch, faults);
            && |r.events| == |s.events| + CountStored(r.statuses) && |r.statuses| == |batch|
            && (forall i: nat :: i < |batch| && r.statuses[i] == Errored ==> !faults(i).NoFault?)
            && (forall i: nat :: i < |batch| && faults(i).StoreRaises? ==> r.statuses[i] == Errored)
  {
    hide SyncOne;
    if batch != [] {
      var n := |batch| - 1;
      SyncAnnouncesEach(s, batch[..n], faults);
      var before, after := SyncAll(s, batch[..n], faults), SyncAll(s, batch, faults);
      SyncOneAnnounces(before, batch[n], faults(n));
      assert forall i :: 0 <= i < n ==> after.statuses[i] == before.statuses[i];
    }
  }

  /** The distinct windows stored under a key. */
  function Stored(chunks: map<Key, seq<string>>, key: Key): set<string> {
    if key in chunks then set w | w in chunks[key] else {}
  }

  class Library {
    var posts: map<int, Post>
    var events: seq<Event>
    var chunks: map<Key, seq<string>>

    constructor ()
      ensures posts == map[] && events == [] && chunks == map[]
    {
      posts, events, chunks := map[], [], map[];
    }

    /** The per-post loop of the sync route; a post whose treatment raises is reported as an error and
        the loop goes on. */
    method SyncPosts(batch: seq<Post>, faults: nat -> Fault) returns (statuses: seq<Status>)
      modifies this`posts, this`events
      ensures Synced(posts, events, statuses) == SyncAll(Synced(old(posts), old(events), []), batch, faults)
      ensures |statuses| == |batch|
    {
      statuses := [];
      ghost var start := Synced(posts, events, []);
      for i := 0 to |batch|
        invariant Synced(posts, events, statuses) == SyncAll(start, batch[..i], faults) && |statuses| == i
      {
        var post := batch[i];
        assert batch[..i + 1][..i] == batch[..i];
        var existing := Existing(posts, post.id);
        if faults(i).StoreRaises? {
          statuses := statuses + [Errored];
        } else if existing.Some? && existing.value.updatedAt >= post.updatedAt {
          statuses := statuses + [Skipped];
        } else {
          var changed := EvaluateChangedFields(post, existing);
          posts := posts[post.id := post];
          if faults(i).PublishRaises? {
            statuses := statuses + [Errored];
          } else {
            events := events + [Event(post.id, changed, Plain(post.summary) != "")];
            statuses := statuses + [if existing.None? then Inserted else Updated];
          }
        }
      }
      assert batch[..|batch|] == batch;
    }

    /** One chunk task: fetch, resolve, split, skip what is stored, insert the rest. */
    method HandleTask(c: Chunking, key: Key) returns (inserted: seq<string>)
      modifies this`chunks
      ensures key.0 in posts ==> Stored(chunks, key) == Stored(old(chunks), key) + Wanted(c, key.1, posts[key.0])
      ensures key.0 in posts ==> Gains(c, key.1, posts[key.0], Stored(old(chunks), key), Stored(chunks, key))
      ensures key.0 !in posts ==> chunks == old(chunks) && inserted == []
      ensures forall k: Key :: k != key ==> Stored(chunks, k) == Stored(old(chunks), k)
      ensures forall w :: w in inserted <==> key.0 in posts && w in Wanted(c, key.1, posts[key.0]) && w !in Stored(old(chunks), key)
    {
      inserted := [];
      if key.0 !in posts {
        return;
      }
      WantedIsGained(c, key.1, posts[key.0], Stored(chunks, key));
      hide Gains;
      var text := ResolveText(c.strip, key.1, posts[key.0]);
      if text == "" {
        return;
      }
      var existing := if key in chunks then chunks[key] else [];
      var all := c.windows(key.1, text);
      for i := 0 to |all|
        invariant forall w :: w in inserted <==> w in all[..i] && w !in existing
      {
        if all[i] !in existing {
          inserted := inserted + [all[i]];
        }
      }
      assert all[..|all|] == all;
      if inserted != [] {
        chunks := chunks[key := existing + inserted];
      }
    }
  }

  lemma HasFirst(s: seq<string>)
    requires s != []
    ensures s[0] in s
  {
  }

  /** Handling a task again inserts nothing. */
  method HandleTwice(lib: Library, c: Chunking, key: Key) returns (again: seq<string>)
    modifies lib`chunks
    ensures again == []
  {
    var first := lib.HandleTask(c, key);
    again := lib.HandleTask(c, key);
    assert forall text :: text !in again;
    if again != [] {
      HasFirst(again);
      assert false;
    }
  }
}
