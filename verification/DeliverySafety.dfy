/** What the delivery service guarantees over every interleaving of consumers, fan-out pages, aborts,
    acknowledgements and jobs, while the stream grows and subscriptions change underneath. */
module DeliverySafety {
  import opened Options
  import opened Attempts
  import opened Keyset
  import opened Channels
  import opened Subscriptions
  import opened Notifications
  import opened Delivery

  /* ---------- The invariant ---------- */

  ghost predicate TracksValid(cfg: Settings, tracks: map<int, Track>) {
    forall id :: id in tracks ==> Attempts.Valid(cfg, tracks[id])
  }

  /** At most one attempt per notification, user and channel. */
  ghost predicate OneAttemptPerKey(tracks: map<int, Track>) {
    forall i, j :: i in tracks && j in tracks && AttemptKey(tracks[i].row) == AttemptKey(tracks[j].row) ==> i == j
  }

  ghost predicate IdsAreDrawn(tracks: map<int, Track>, fanouts: map<int, Fanout>, jobs: multiset<Job>,
                              drawn: set<int>)
  {
    && tracks.Keys <= drawn
    && (forall f :: f in fanouts ==> fanouts[f].rows.Keys <= drawn && fanouts[f].rows.Keys !! tracks.Keys)
    && (forall f, g :: f in fanouts && g in fanouts && f != g ==> fanouts[f].rows.Keys !! fanouts[g].rows.Keys)
    && (forall j :: j in jobs ==> j.attempt in drawn)
  }

  /** A job of the attempt that cannot run before the planned instant. */
  predicate HasJob(jobs: multiset<Job>, attempt: int, plan: Option<int>) {
    exists j :: j in jobs && j.attempt == attempt && (plan.Some? ==> j.due >= plan.value)
  }

  predicate Reached(plan: Option<int>, clock: int) {
    plan.Some? ==> plan.value <= clock
  }

  /** An open attempt has a job that cannot run before its plan; once an execution of it has raised at or
      after the plan, any job will do. */
  predicate JobState(tracks: map<int, Track>, jobs: multiset<Job>, stranded: set<int>, clock: int, id: int)
    requires id in tracks
  {
    var row := tracks[id].row;
    if id in stranded then
      !row.IsTerminal() && !HasAnyJob(jobs, id)
    else
      || row.IsTerminal()
      || HasJob(jobs, id, row.nextRetryAt)
      || (tracks[id].undone != [] && Reached(row.nextRetryAt, clock) && HasAnyJob(jobs, id))
  }

  /** Every open attempt has a job that will find it due, unless it is stranded; and a stranded one has
      no job and stays open for good. */
  ghost predicate NoJobIsLost(tracks: map<int, Track>, jobs: multiset<Job>, stranded: set<int>, clock: int) {
    && stranded <= tracks.Keys
    && forall id :: id in tracks ==> JobState(tracks, jobs, stranded, clock, id)
  }

  predicate SeenSubscription(store: Store, topic: int, k: Key) {
    k.1 in store.rows && store.rows[k.1].user == k.0 && store.rows[k.1].topic == topic
  }

  predicate UserSeen(seen: seq<Key>, user: int) {
    exists i :: 0 <= i < |seen| && seen[i].0 == user
  }

  predicate RowOf(body: Body, seen: seq<Key>, a: Attempt) {
    && a == NewAttempt(body.note, a.user, a.channel, body.payload, a.window)
    && a.channel in ALLOWED
    && UserSeen(seen, a.user)
  }

  ghost predicate SeenOk(store: Store, topic: int, seen: seq<Key>, cursor: Option<Key>) {
    forall i :: 0 <= i < |seen| ==>
      && SeenSubscription(store, topic, seen[i])
      && (cursor.Some? ==> seen[i] == cursor.value || Lt(seen[i], cursor.value))
  }

  ghost predicate RowsDistinct(rows: map<int, Attempt>) {
    forall i, j :: i in rows && j in rows && AttemptKey(rows[i]) == AttemptKey(rows[j]) ==> i == j
  }

  ghost predicate RowsOk(body: Body, seen: seq<Key>, rows: map<int, Attempt>) {
    RowsDistinct(rows) && forall id :: id in rows ==> RowOf(body, seen, rows[id])
  }

  /** An open fan-out handles a message of the stream and is intact; it has read only keys up to its
      cursor, and it has inserted rows for the users it has read, none twice. */
  ghost predicate FanoutOk(stream: seq<Message>, store: Store, f: Fanout) {
    && f.index < |stream| && stream[f.index] == f.message
    && !f.broken
    && (!f.done && f.cursor.None? ==> f.seen == [])
    && SeenOk(store, f.message.body.topic, f.seen, f.cursor)
    && RowsOk(f.message.body, f.seen, f.rows)
  }

  ghost predicate FanoutsOk(stream: seq<Message>, store: Store, processed: set<int>, fanouts: map<int, Fanout>) {
    && (forall f :: f in fanouts ==> FanoutOk(stream, store, fanouts[f]) && fanouts[f].message.event !in processed)
    && (forall f, g :: f in fanouts && g in fanouts && fanouts[f].message.event == fanouts[g].message.event ==> f == g)
  }

  predicate InStream(stream: seq<Message>, m: Message) {
    exists i :: 0 <= i < |stream| && stream[i] == m
  }

  predicate FannedEvent(fanned: seq<Message>, event: int) {
    exists i :: 0 <= i < |fanned| && fanned[i].event == event
  }

  /** The processed events are those of the committed fan-outs, each committed once. */
  ghost predicate FannedOnce(stream: seq<Message>, processed: set<int>, fanned: seq<Message>) {
    && (forall i :: 0 <= i < |fanned| ==> InStream(stream, fanned[i]) && fanned[i].event in processed)
    && (forall i, j :: 0 <= i < j < |fanned| ==> fanned[i].event != fanned[j].event)
    && (forall e :: e in processed ==> FannedEvent(fanned, e))
  }

  predicate CameFrom(fanned: seq<Message>, a: Attempt) {
    exists i :: 0 <= i < |fanned| && fanned[i].body.note == a.note && fanned[i].body.payload == a.payload
  }

  /** Every attempt was created by a committed fan-out of its notification, on a known channel. */
  ghost predicate TracksCameFromFanouts(fanned: seq<Message>, tracks: map<int, Track>) {
    forall id :: id in tracks ==> CameFrom(fanned, tracks[id].row) && tracks[id].row.channel in ALLOWED
  }

  /** Only messages whose event is processed are acknowledged. */
  ghost predicate AcksAreSafe(stream: seq<Message>, processed: set<int>, finished: set<nat>, acked: set<nat>) {
    && (forall i :: i in finished ==> i < |stream| && stream[i].event in processed)
    && (forall i :: i in acked ==> i < |stream| && stream[i].event in processed)
  }

  ghost predicate Safe(cfg: Settings, stream: seq<Message>, store: Store, w: World) {
    && TracksValid(cfg, w.tracks)
    && OneAttemptPerKey(w.tracks)
    && IdsAreDrawn(w.tracks, w.fanouts, w.jobs, w.drawn)
    && NoJobIsLost(w.tracks, w.jobs, w.stranded, w.clock)
    && FanoutsOk(stream, store, w.processed, w.fanouts)
    && FannedOnce(stream, w.processed, w.fanned)
    && TracksCameFromFanouts(w.fanned, w.tracks)
    && AcksAreSafe(stream, w.processed, w.finished, w.acked)
  }

  /** What the fan-out relies on: a notification has one event, and an event one body. */
  ghost predicate OneEventPerNote(stream: seq<Message>) {
    forall i, j :: 0 <= i < |stream| && 0 <= j < |stream| && stream[i].body.note == stream[j].body.note
      ==> stream[i] == stream[j]
  }

  /* ---------- The world around changes ---------- */

  lemma SeenStaysOk(store: Store, store': Store, topic: int, seen: seq<Key>, cursor: Option<Key>)
    requires SeenOk(store, topic, seen, cursor) && Subscriptions.Extends(store, store')
    ensures SeenOk(store', topic, seen, cursor)
  {
    forall i | 0 <= i < |seen| ensures SeenSubscription(store', topic, seen[i]) {
      assert SeenSubscription(store, topic, seen[i]);
      var id: int := seen[i].1;
      assert id in store.rows && id in store'.rows;
    }
  }

  /** A longer stream and a store with more rows leave everything intact. */
  lemma SurroundingsMayGrow(cfg: Settings, stream: seq<Message>, stream': seq<Message>, store: Store, store': Store,
                            w: World)
    requires Safe(cfg, stream, store, w) && stream <= stream' && Subscriptions.Extends(store, store')
    ensures Safe(cfg, stream', store', w)
  {
    forall f | f in w.fanouts ensures FanoutOk(stream', store', w.fanouts[f]) {
      assert FanoutOk(stream, store, w.fanouts[f]);
      SeenStaysOk(store, store', w.fanouts[f].message.body.topic, w.fanouts[f].seen, w.fanouts[f].cursor);
    }
    forall m | InStream(stream, m) ensures InStream(stream', m) {
      var i :| 0 <= i < |stream| && stream[i] == m;
      assert stream'[i] == m;
    }
  }

  /* ---------- Fan-out steps ---------- */

  lemma BeginKeepsSafe(cfg: Settings, stream: seq<Message>, store: Store, w: World, fanout: int, index: nat)
    requires Safe(cfg, stream, store, w)
    ensures Safe(cfg, stream, store, BeginStep(stream, w, fanout, index))
  {
    if BeginStep(stream, w, fanout, index) != w {
      assert FanoutOk(stream, store, Fanout(index, stream[index], [], None, false, false, map[]));
      assert FanoutsOk(stream, store, w.processed, BeginStep(stream, w, fanout, index).fanouts);
    }
  }

  /** Where a target comes from. */
  predicate TargetFrom(cfg: Settings, sub: Subscriber, t: Target) {
    && t.user == sub.user
    && t.window == WindowOf(sub.prefs)
    && t.channel in Normalize(sub.prefs.channels)
    && t.channel in cfg.channels
  }

  lemma {:induction false} SupportedAre(cfg: Settings, sub: Subscriber, channels: seq<string>)
    ensures forall t :: t in Supported(cfg, sub, channels) <==>
              && t.user == sub.user && t.window == WindowOf(sub.prefs)
              && t.channel in channels && t.channel in cfg.channels
    ensures IsNormal(channels) ==> DistinctTargets(Supported(cfg, sub, channels))
  {
    if channels != [] {
      var last := |channels| - 1;
      SupportedAre(cfg, sub, channels[..last]);
      assert channels == channels[..last] + [channels[last]];
      if IsNormal(channels) {
        assert forall c :: c in channels[..last] ==> c in channels;
        assert IsNormal(channels[..last]);
        assert channels[last] !in channels[..last];
        JoinDistinct(Supported(cfg, sub, channels[..last]),
                     if channels[last] in cfg.channels
                     then [Target(sub.user, channels[last], WindowOf(sub.prefs))]
                     else []);
      }
    }
  }

  predicate Clash(s: Target, t: Target) {
    s.user == t.user && s.channel == t.channel
  }

  predicate DistinctTargets(targets: seq<Target>) {
    forall i, j :: 0 <= i < j < |targets| ==> !Clash(targets[i], targets[j])
  }

  lemma JoinDistinct(first: seq<Target>, second: seq<Target>)
    requires DistinctTargets(first) && DistinctTargets(second)
    requires forall s, t :: s in first && t in second ==> !Clash(s, t)
    ensures DistinctTargets(first + second)
  {
    forall i, j | 0 <= i < j < |first + second| ensures !Clash((first + second)[i], (first + second)[j]) {
      if i < |first| <= j {
        assert first[i] in first && second[j - |first|] in second;
      }
    }
  }

  predicate UsersDistinct(items: seq<Subscriber>) {
    forall i, j :: 0 <= i < j < |items| ==> items[i].user != items[j].user
  }

  predicate Sourced(cfg: Settings, items: seq<Subscriber>, t: Target) {
    exists i :: 0 <= i < |items| && TargetFrom(cfg, items[i], t)
  }

  lemma SourcedSplit(cfg: Settings, items: seq<Subscriber>, t: Target)
    requires items != []
    ensures var last := |items| - 1;
            Sourced(cfg, items, t) <==> Sourced(cfg, items[..last], t) || TargetFrom(cfg, items[last], t)
  {
    var last := |items| - 1;
    if Sourced(cfg, items[..last], t) {
      var i :| 0 <= i < last && TargetFrom(cfg, items[..last][i], t);
      assert TargetFrom(cfg, items[i], t);
    }
    if i :| 0 <= i < last && TargetFrom(cfg, items[i], t) {
      assert TargetFrom(cfg, items[..last][i], t);
    }
  }

  lemma TargetsForAre(cfg: Settings, sub: Subscriber)
    ensures forall t :: t in TargetsFor(cfg, sub) <==> TargetFrom(cfg, sub, t)
    ensures DistinctTargets(TargetsFor(cfg, sub))
  {
    NormalizeKeepsNames(sub.prefs.channels);
    SupportedAre(cfg, sub, Normalize(sub.prefs.channels));
  }

  /** The targets are exactly the supported normalised channels of the subscribers. */
  lemma {:induction false} TargetsAre(cfg: Settings, items: seq<Subscriber>)
    ensures forall t :: t in TargetsOf(cfg, items) <==> Sourced(cfg, items, t)
  {
    if items != [] {
      var last := |items| - 1;
      TargetsAre(cfg, items[..last]);
      TargetsForAre(cfg, items[last]);
      forall t ensures t in TargetsOf(cfg, items) <==> Sourced(cfg, items, t) {
        SourcedSplit(cfg, items, t);
      }
    }
  }

  /** No target comes twice. */
  lemma {:induction false} TargetsAreDistinct(cfg: Settings, items: seq<Subscriber>)
    requires UsersDistinct(items)
    ensures DistinctTargets(TargetsOf(cfg, items))
  {
    if items != [] {
      var last := |items| - 1;
      TargetsAreDistinct(cfg, items[..last]);
      TargetsAre(cfg, items[..last]);
      TargetsForAre(cfg, items[last]);
      forall s, t | s in TargetsOf(cfg, items[..last]) && t in TargetsFor(cfg, items[last]) ensures !Clash(s, t) {
        assert Sourced(cfg, items[..last], s) && TargetFrom(cfg, items[last], t);
      }
      JoinDistinct(TargetsOf(cfg, items[..last]), TargetsFor(cfg, items[last]));
    }
  }

  /** What a page brings to an intact fan-out: active subscriptions of the topic after the cursor, each
      of another user, with channels in normal form. */
  lemma PageItems(cfg: Settings, stream: seq<Message>, store: Store, f: Fanout)
    requires Subscriptions.Valid(cfg.zones, store) && FanoutOk(stream, store, f)
    requires cfg.pageLimit >= 1 && f.message.body.topic in store.topics
    ensures var items := NextListing(cfg, store, f).items;
            && UsersDistinct(items)
            && forall i :: 0 <= i < |items| ==>
                 && SeenSubscription(store, f.message.body.topic, KeyOf(items[i]))
                 && items[i].prefs == store.rows[items[i].id].prefs
                 && Follows(KeyOf(items[i]), f.cursor)
                 && (NextListing(cfg, store, f).next.Some? ==>
                       KeyOf(items[i]) == NextListing(cfg, store, f).next.value
                       || Lt(KeyOf(items[i]), NextListing(cfg, store, f).next.value))
    ensures var next := NextListing(cfg, store, f).next; next.Some? ==> Follows(next.value, f.cursor)
  {
    var topic := f.message.body.topic;
    var active := ActiveKeys(store, topic);
    var page, items := Keyset.FetchPage(active, cfg.pageLimit, f.cursor), NextListing(cfg, store, f).items;
    PageIsGapless(active, cfg.pageLimit, f.cursor);
    forall i | 0 <= i < |items| ensures KeyOf(items[i]) == page.items[i] && page.items[i] in active
      && SeenSubscription(store, topic, page.items[i]) {
      assert page.items[i] in page.items;
    }
    forall i, j | 0 <= i < j < |items| ensures items[i].user != items[j].user {
      assert Lt(page.items[i], page.items[j]);
    }
  }

  /** Nobody the fan-out has already read is on the next page. */
  lemma PageUsersAreNew(cfg: Settings, stream: seq<Message>, store: Store, f: Fanout, i: nat)
    requires Subscriptions.Valid(cfg.zones, store) && FanoutOk(stream, store, f) && !f.done
    requires cfg.pageLimit >= 1 && f.message.body.topic in store.topics
    requires i < |NextListing(cfg, store, f).items|
    ensures !UserSeen(f.seen, NextListing(cfg, store, f).items[i].user)
  {
    PageItems(cfg, stream, store, f);
    var k := KeyOf(NextListing(cfg, store, f).items[i]);
    forall s | 0 <= s < |f.seen| ensures f.seen[s].0 != k.0 {
      assert SeenSubscription(store, f.message.body.topic, f.seen[s]);
      assert SeenSubscription(store, f.message.body.topic, k);
    }
  }

  /** A row of another transaction or a visible one belongs to another notification. */
  lemma OtherRowsAreOfOtherNotes(cfg: Settings, stream: seq<Message>, store: Store, w: World, fanout: int)
    requires Safe(cfg, stream, store, w) && OneEventPerNote(stream) && fanout in w.fanouts
    ensures forall id :: id in w.tracks ==> w.tracks[id].row.note != w.fanouts[fanout].message.body.note
    ensures forall g, id :: g in w.fanouts && g != fanout && id in w.fanouts[g].rows ==>
              w.fanouts[g].rows[id].note != w.fanouts[fanout].message.body.note
  {
    var f := w.fanouts[fanout];
    assert FanoutOk(stream, store, f);
    forall id | id in w.tracks ensures w.tracks[id].row.note != f.message.body.note {
      assert CameFrom(w.fanned, w.tracks[id].row);
      var i :| 0 <= i < |w.fanned| && w.fanned[i].body.note == w.tracks[id].row.note;
      var s :| 0 <= s < |stream| && stream[s] == w.fanned[i];
      assert stream[f.index] == f.message;
    }
    forall g, id | g in w.fanouts && g != fanout && id in w.fanouts[g].rows
      ensures w.fanouts[g].rows[id].note != f.message.body.note
    {
      assert FanoutOk(stream, store, w.fanouts[g]);
      assert RowOf(w.fanouts[g].message.body, w.fanouts[g].seen, w.fanouts[g].rows[id]);
      assert stream[w.fanouts[g].index] == w.fanouts[g].message && stream[f.index] == f.message;
    }
  }

  /** Every target of a page is for a known channel and for a user without a row so far. */
  lemma PageTargetsAreNew(cfg: Settings, stream: seq<Message>, store: Store, f: Fanout, t: Target)
    requires Subscriptions.Valid(cfg.zones, store) && FanoutOk(stream, store, f) && !f.done
    requires cfg.pageLimit >= 1 && f.message.body.topic in store.topics
    requires t in TargetsOf(cfg, NextListing(cfg, store, f).items)
    ensures t.channel in ALLOWED
    ensures forall id :: id in f.rows ==> f.rows[id].user != t.user
  {
    var items := NextListing(cfg, store, f).items;
    PageItems(cfg, stream, store, f);
    TargetsAre(cfg, items);
    var s :| 0 <= s < |items| && TargetFrom(cfg, items[s], t);
    NormalIsFixed(items[s].prefs.channels);
    PageUsersAreNew(cfg, stream, store, f, s);
    forall id | id in f.rows ensures f.rows[id].user != t.user {
      assert RowOf(f.message.body, f.seen, f.rows[id]);
    }
  }

  lemma PageTargetsAreDistinct(cfg: Settings, stream: seq<Message>, store: Store, f: Fanout)
    requires Subscriptions.Valid(cfg.zones, store) && FanoutOk(stream, store, f)
    requires cfg.pageLimit >= 1 && f.message.body.topic in store.topics
    ensures DistinctTargets(TargetsOf(cfg, NextListing(cfg, store, f).items))
  {
    PageItems(cfg, stream, store, f);
    TargetsAreDistinct(cfg, NextListing(cfg, store, f).items);
  }

  /** The inserts of a page never meet a constraint: the duplicate branch is never reached. */
  lemma PageIsInsertable(cfg: Settings, stream: seq<Message>, store: Store, w: World, fanout: int)
    requires Safe(cfg, stream, store, w) && OneEventPerNote(stream) && Subscriptions.Valid(cfg.zones, store)
    requires CanFetch(cfg, store, w, fanout)
    ensures var f := w.fanouts[fanout];
            Insertable(w, ToAttempts(f.message.body, TargetsOf(cfg, NextListing(cfg, store, f).items)))
  {
    var f := w.fanouts[fanout];
    assert FanoutOk(stream, store, f);
    var targets := TargetsOf(cfg, NextListing(cfg, store, f).items);
    var rows := ToAttempts(f.message.body, targets);
    PageTargetsAreDistinct(cfg, stream, store, f);
    OtherRowsAreOfOtherNotes(cfg, stream, store, w, fanout);
    forall i | 0 <= i < |rows| ensures rows[i].channel in ALLOWED && !Taken(w, AttemptKey(rows[i])) {
      PageTargetsAreNew(cfg, stream, store, f, targets[i]);
      UntakenTarget(w, fanout, rows[i]);
    }
    forall i, j | 0 <= i < j < |rows| ensures AttemptKey(rows[i]) != AttemptKey(rows[j]) {
      assert !Clash(targets[i], targets[j]);
    }
  }

  lemma UntakenTarget(w: World, fanout: int, a: Attempt)
    requires fanout in w.fanouts && a.note == w.fanouts[fanout].message.body.note
    requires forall id :: id in w.fanouts[fanout].rows ==> w.fanouts[fanout].rows[id].user != a.user
    requires forall id :: id in w.tracks ==> w.tracks[id].row.note != a.note
    requires forall g, id :: g in w.fanouts && g != fanout && id in w.fanouts[g].rows ==>
               w.fanouts[g].rows[id].note != a.note
    ensures !Taken(w, AttemptKey(a))
  {
    forall g | g in w.fanouts ensures !TakenBy(w.fanouts[g].rows, AttemptKey(a)) {
    }
  }

  lemma {:induction false} NewRowsAre(body: Body, targets: seq<Target>, ids: seq<int>)
    requires |targets| == |ids| && Distinct(ids)
    ensures var rows := NewRows(body, targets, ids);
            && (forall i :: 0 <= i < |ids| ==> ids[i] in rows && rows[ids[i]] == ToAttempt(body, targets[i]))
            && (forall id :: id in rows ==> exists i :: 0 <= i < |ids| && ids[i] == id)
  {
    if ids != [] {
      var last := |ids| - 1;
      var rows, before := NewRows(body, targets, ids), NewRows(body, targets[..last], ids[..last]);
      NewRowsAre(body, targets[..last], ids[..last]);
      forall id | id in rows ensures exists i :: 0 <= i < |ids| && ids[i] == id {
        if id in before {
          var i :| 0 <= i < last && ids[..last][i] == id;
          assert ids[i] == id;
        } else {
          assert ids[last] == id;
        }
      }
    }
  }

  lemma FetchedSeenIsOk(cfg: Settings, stream: seq<Message>, store: Store, f: Fanout)
    requires Subscriptions.Valid(cfg.zones, store) && FanoutOk(stream, store, f) && !f.done
    requires cfg.pageLimit >= 1 && f.message.body.topic in store.topics
    ensures var listing := NextListing(cfg, store, f);
            SeenOk(store, f.message.body.topic, f.seen + KeysOf(listing.items), listing.next)
  {
    PageItems(cfg, stream, store, f);
  }

  /** Insertable rows under fresh ids keep the rows of the fan-out distinct. */
  lemma AddedRowsAreDistinct(rows: map<int, Attempt>, body: Body, targets: seq<Target>, ids: seq<int>)
    requires RowsDistinct(rows) && |targets| == |ids| && Distinct(ids)
    requires forall id :: id in ids ==> id !in rows
    requires forall i :: 0 <= i < |targets| ==> !TakenBy(rows, AttemptKey(ToAttempt(body, targets[i])))
    requires forall i, j :: 0 <= i < j < |targets| ==>
               AttemptKey(ToAttempt(body, targets[i])) != AttemptKey(ToAttempt(body, targets[j]))
    ensures RowsDistinct(rows + NewRows(body, targets, ids))
  {
    var added := NewRows(body, targets, ids);
    NewRowsAre(body, targets, ids);
    forall id | id in added ensures !TakenBy(rows, AttemptKey(added[id])) {
      var i :| 0 <= i < |ids| && ids[i] == id;
    }
    forall i, j | i in added && j in added && AttemptKey(added[i]) == AttemptKey(added[j]) ensures i == j {
      var p :| 0 <= p < |ids| && ids[p] == i;
      var q :| 0 <= q < |ids| && ids[q] == j;
    }
  }

  lemma SeenMayGrow(seen: seq<Key>, more: seq<Key>, user: int)
    ensures UserSeen(seen + more, user) <==> UserSeen(seen, user) || UserSeen(more, user)
  {
    var all := seen + more;
    if i :| 0 <= i < |seen| && seen[i].0 == user {
      assert all[i].0 == user;
    }
    if i :| 0 <= i < |more| && more[i].0 == user {
      assert all[|seen| + i].0 == user;
    }
  }

  lemma FetchedRowsAreOk(cfg: Settings, items: seq<Subscriber>, body: Body, seen: seq<Key>, rows: map<int, Attempt>,
                         ids: seq<int>)
    requires RowsOk(body, seen, rows)
    requires var targets := TargetsOf(cfg, items);
             && |ids| == |targets| && Distinct(ids)
             && RowsDistinct(rows + NewRows(body, targets, ids))
             && forall i :: 0 <= i < |targets| ==> targets[i].channel in ALLOWED
    ensures RowsOk(body, seen + KeysOf(items), rows + NewRows(body, TargetsOf(cfg, items), ids))
  {
    var targets, seen' := TargetsOf(cfg, items), seen + KeysOf(items);
    var added := NewRows(body, targets, ids);
    NewRowsAre(body, targets, ids);
    TargetsAre(cfg, items);
    forall id | id in rows ensures RowOf(body, seen', rows[id]) {
      SeenMayGrow(seen, KeysOf(items), rows[id].user);
    }
    forall id | id in added ensures RowOf(body, seen', added[id]) {
      var i :| 0 <= i < |ids| && ids[i] == id;
      assert targets[i] in targets;
      var s :| 0 <= s < |items| && TargetFrom(cfg, items[s], targets[i]);
      assert KeysOf(items)[s].0 == added[id].user;
      SeenMayGrow(seen, KeysOf(items), added[id].user);
    }
  }

  lemma FetchedFanoutIsOk(cfg: Settings, stream: seq<Message>, store: Store, f: Fanout, ids: seq<int>)
    requires FanoutOk(stream, store, f) && Subscriptions.Valid(cfg.zones, store) && !f.done
    requires cfg.pageLimit >= 1 && f.message.body.topic in store.topics
    requires var targets := TargetsOf(cfg, NextListing(cfg, store, f).items);
             && |ids| == |targets| && Distinct(ids)
             && RowsDistinct(f.rows + NewRows(f.message.body, targets, ids))
             && forall i :: 0 <= i < |targets| ==> targets[i].channel in ALLOWED
    ensures FanoutOk(stream, store, Fetched(cfg, f, NextListing(cfg, store, f), ids))
  {
    FetchedSeenIsOk(cfg, stream, store, f);
    FetchedRowsAreOk(cfg, NextListing(cfg, store, f).items, f.message.body, f.seen, f.rows, ids);
  }

  /** With insertable rows under fresh ids, the whole page goes well. */
  lemma PageRowsAreDistinct(w: World, fanout: int, targets: seq<Target>, ids: seq<int>)
    requires fanout in w.fanouts && RowsDistinct(w.fanouts[fanout].rows)
    requires IdsAreDrawn(w.tracks, w.fanouts, w.jobs, w.drawn)
    requires |targets| == |ids| && FreshIds(w, ids)
    requires Insertable(w, ToAttempts(w.fanouts[fanout].message.body, targets))
    ensures RowsDistinct(w.fanouts[fanout].rows + NewRows(w.fanouts[fanout].message.body, targets, ids))
    ensures forall i :: 0 <= i < |targets| ==> targets[i].channel in ALLOWED
  {
    var f := w.fanouts[fanout];
    var rows := ToAttempts(f.message.body, targets);
    assert forall i :: 0 <= i < |targets| ==> rows[i] == ToAttempt(f.message.body, targets[i]);
    AddedRowsAreDistinct(f.rows, f.message.body, targets, ids);
  }

  lemma NewRowIds(body: Body, targets: seq<Target>, ids: seq<int>)
    requires |targets| == |ids| && Distinct(ids)
    ensures NewRows(body, targets, ids).Keys == set id | id in ids
  {
    NewRowsAre(body, targets, ids);
  }

  /** What a page may do: nothing, break its fan-out, or go through under fresh ids. */
  ghost predicate PageDone(cfg: Settings, store: Store, w: World, w': World, fanout: int, ids: seq<int>) {
    || w' == w
    || (fanout in w.fanouts && w' == w.(fanouts := w.fanouts[fanout := w.fanouts[fanout].(broken := true)]))
    || (&& CanFetch(cfg, store, w, fanout) && FreshIds(w, ids)
        && PageThrough(cfg, NextListing(cfg, store, w.fanouts[fanout]), w, w', fanout, ids))
  }

  ghost predicate PageThrough(cfg: Settings, listing: Listing, w: World, w': World, fanout: int, ids: seq<int>)
    requires fanout in w.fanouts
  {
    && |ids| == |TargetsOf(cfg, listing.items)|
    && w' == w.(fanouts := w.fanouts[fanout := Fetched(cfg, w.fanouts[fanout], listing, ids)],
                jobs := w.jobs + SendJobs(ids, w.clock), drawn := w.drawn + set id | id in ids)
  }

  lemma PageIsDone(cfg: Settings, store: Store, w: World, fanout: int, ids: seq<int>)
    ensures PageDone(cfg, store, w, FetchPageStep(cfg, store, w, fanout, ids), fanout, ids)
  {
  }

  lemma FetchPageIs(cfg: Settings, store: Store, w: World, fanout: int, ids: seq<int>, listing: Listing)
    requires CanFetch(cfg, store, w, fanout) && NextListing(cfg, store, w.fanouts[fanout]) == listing
    requires |ids| == |TargetsOf(cfg, listing.items)| && FreshIds(w, ids)
    requires Insertable(w, ToAttempts(w.fanouts[fanout].message.body, TargetsOf(cfg, listing.items)))
    ensures FetchPageStep(cfg, store, w, fanout, ids)
         == w.(fanouts := w.fanouts[fanout := Fetched(cfg, w.fanouts[fanout], listing, ids)],
               jobs := w.jobs + SendJobs(ids, w.clock), drawn := w.drawn + set id | id in ids)
  {
  }

  lemma FetchPageKeepsSafe(cfg: Settings, stream: seq<Message>, store: Store, w: World, fanout: int, ids: seq<int>)
    requires Safe(cfg, stream, store, w) && OneEventPerNote(stream) && Subscriptions.Valid(cfg.zones, store)
    ensures Safe(cfg, stream, store, FetchPageStep(cfg, store, w, fanout, ids))
  {
    if CanFetch(cfg, store, w, fanout) && FreshIds(w, ids)
       && |ids| == |TargetsOf(cfg, NextListing(cfg, store, w.fanouts[fanout]).items)| {
      var w' := FetchPageStep(cfg, store, w, fanout, ids);
      var f := w.fanouts[fanout];
      var targets := TargetsOf(cfg, NextListing(cfg, store, f).items);
      assert FanoutOk(stream, store, f);
      PageIsInsertable(cfg, stream, store, w, fanout);
      PageRowsAreDistinct(w, fanout, targets, ids);
      FetchedFanoutIsOk(cfg, stream, store, f, ids);
      NewRowIds(f.message.body, targets, ids);
      SendJobsAre(ids, w.clock);
      MoreDrawn(w, w', fanout, ids);
      MoreJobs(w.tracks, w.jobs, SendJobs(ids, w.clock), w.stranded, w.clock, w.drawn);
    } else if CanFetch(cfg, store, w, fanout) {
      PageIsInsertable(cfg, stream, store, w, fanout);
    }
  }

  lemma SendJobsAre(ids: seq<int>, due: int)
    ensures forall j :: j in SendJobs(ids, due) <==> j.SendJob? && j.due == due && j.attempt in ids
  {
    var jobs := seq(|ids|, i requires 0 <= i < |ids| => SendJob(ids[i], due));
    forall id | id in ids ensures SendJob(id, due) in jobs {
      var i :| 0 <= i < |ids| && ids[i] == id;
      assert jobs[i] == SendJob(id, due);
    }
  }

  lemma MoreDrawn(w: World, w': World, fanout: int, ids: seq<int>)
    requires IdsAreDrawn(w.tracks, w.fanouts, w.jobs, w.drawn) && FreshIds(w, ids) && fanout in w.fanouts
    requires w'.tracks == w.tracks && fanout in w'.fanouts
    requires w'.fanouts == w.fanouts[fanout := w'.fanouts[fanout]]
    requires w'.fanouts[fanout].rows.Keys == w.fanouts[fanout].rows.Keys + set id | id in ids
    requires w'.jobs == w.jobs + SendJobs(ids, w.clock) && w'.drawn == w.drawn + set id | id in ids
    ensures IdsAreDrawn(w'.tracks, w'.fanouts, w'.jobs, w'.drawn)
  {
    SendJobsAre(ids, w.clock);
  }

  /** Further jobs for ids that no attempt has yet disturb nobody. */
  lemma MoreJobs(tracks: map<int, Track>, jobs: multiset<Job>, more: multiset<Job>, stranded: set<int>, clock: int,
                 drawn: set<int>)
    requires NoJobIsLost(tracks, jobs, stranded, clock) && tracks.Keys <= drawn
    requires forall j :: j in more ==> j.attempt !in drawn
    ensures NoJobIsLost(tracks, jobs + more, stranded, clock)
  {
    forall id | id in tracks ensures JobState(tracks, jobs + more, stranded, clock, id) {
      assert JobState(tracks, jobs, stranded, clock, id);
      KeepsJob(jobs, jobs + more, id, tracks[id].row.nextRetryAt);
    }
  }

  lemma KeepsJob(jobs: multiset<Job>, jobs': multiset<Job>, id: int, plan: Option<int>)
    requires forall j :: j in jobs && j.attempt == id ==> j in jobs'
    ensures HasJob(jobs, id, plan) ==> HasJob(jobs', id, plan)
    ensures HasAnyJob(jobs, id) ==> HasAnyJob(jobs', id)
  {
    if HasAnyJob(jobs, id) {
      var j :| j in jobs && j.attempt == id;
      assert j in jobs';
    }
    if HasJob(jobs, id, plan) {
      var j :| j in jobs && j.attempt == id && (plan.Some? ==> j.due >= plan.value);
      assert j in jobs';
    }
  }

  lemma CommitKeepsSafe(cfg: Settings, stream: seq<Message>, store: Store, w: World, fanout: int)
    requires Safe(cfg, stream, store, w) && OneEventPerNote(stream)
    ensures Safe(cfg, stream, store, CommitStep(w, fanout))
  {
    if fanout in w.fanouts && w.fanouts[fanout].done && !w.fanouts[fanout].broken {
      CommittedRowsAreSafe(cfg, stream, store, w, fanout);
      CommittedEventsAreSafe(stream, store, w, fanout);
      CommittedIds(w, fanout);
    }
  }

  lemma CommittedRowsAreSafe(cfg: Settings, stream: seq<Message>, store: Store, w: World, fanout: int)
    requires Safe(cfg, stream, store, w) && OneEventPerNote(stream)
    requires fanout in w.fanouts && w.fanouts[fanout].done && !w.fanouts[fanout].broken
    ensures var w' := CommitStep(w, fanout);
            && TracksValid(cfg, w'.tracks) && OneAttemptPerKey(w'.tracks)
            && TracksCameFromFanouts(w'.fanned, w'.tracks)
            && NoJobIsLost(w'.tracks, w'.jobs, w'.stranded, w'.clock)
  {
    var f := w.fanouts[fanout];
    assert FanoutOk(stream, store, f);
    OtherRowsAreOfOtherNotes(cfg, stream, store, w, fanout);
    CommittedTracks(cfg, w.fanned, w.tracks, f);
    NewRowsArePending(f.message.body, f.seen, f.rows);
    CommittedJobs(w.tracks, w.jobs, w.stranded, w.clock, f.rows);
  }

  lemma CommittedEventsAreSafe(stream: seq<Message>, store: Store, w: World, fanout: int)
    requires FanoutsOk(stream, store, w.processed, w.fanouts) && FannedOnce(stream, w.processed, w.fanned)
    requires AcksAreSafe(stream, w.processed, w.finished, w.acked)
    requires fanout in w.fanouts && w.fanouts[fanout].done && !w.fanouts[fanout].broken
    ensures var w' := CommitStep(w, fanout);
            && FanoutsOk(stream, store, w'.processed, w'.fanouts) && FannedOnce(stream, w'.processed, w'.fanned)
            && AcksAreSafe(stream, w'.processed, w'.finished, w'.acked)
  {
    assert FanoutOk(stream, store, w.fanouts[fanout]);
    CommittedFanned(stream, w.processed, w.fanned, w.fanouts[fanout]);
    CommittedFanouts(stream, store, w.processed, w.fanouts, fanout);
  }

  lemma CommittedFanouts(stream: seq<Message>, store: Store, processed: set<int>, fanouts: map<int, Fanout>,
                         fanout: int)
    requires FanoutsOk(stream, store, processed, fanouts) && fanout in fanouts
    ensures FanoutsOk(stream, store, processed + {fanouts[fanout].message.event}, fanouts - {fanout})
  {
  }

  lemma NewRowsArePending(body: Body, seen: seq<Key>, rows: map<int, Attempt>)
    requires RowsOk(body, seen, rows)
    ensures forall id :: id in rows ==>
              rows[id].status.Pending? && rows[id].attemptNo == 0 && rows[id].nextRetryAt.None?
  {
    forall id | id in rows ensures rows[id].status.Pending? && rows[id].attemptNo == 0 && rows[id].nextRetryAt.None? {
      assert RowOf(body, seen, rows[id]);
    }
  }

  lemma CommittedIds(w: World, fanout: int)
    requires IdsAreDrawn(w.tracks, w.fanouts, w.jobs, w.drawn) && fanout in w.fanouts
    ensures IdsAreDrawn(w.tracks + ToTracks(w.fanouts[fanout].rows), w.fanouts - {fanout}, w.jobs, w.drawn)
  {
    var tracks := w.tracks + ToTracks(w.fanouts[fanout].rows);
    assert tracks.Keys == w.tracks.Keys + w.fanouts[fanout].rows.Keys;
  }

  /** The new attempts are stranded exactly when their job has already run. */
  lemma CommittedJobs(tracks: map<int, Track>, jobs: multiset<Job>, stranded: set<int>, clock: int,
                      rows: map<int, Attempt>)
    requires NoJobIsLost(tracks, jobs, stranded, clock) && tracks.Keys !! rows.Keys
    requires forall id :: id in rows ==> rows[id].status.Pending? && rows[id].nextRetryAt.None?
    ensures NoJobIsLost(tracks + ToTracks(rows), jobs, stranded + (set id | id in rows && !HasAnyJob(jobs, id)), clock)
  {
    var tracks', stranded' := tracks + ToTracks(rows), stranded + set id | id in rows && !HasAnyJob(jobs, id);
    forall id | id in tracks' ensures JobState(tracks', jobs, stranded', clock, id) {
      assert id in tracks ==> JobState(tracks, jobs, stranded, clock, id);
    }
  }

  lemma CommittedTracks(cfg: Settings, fanned: seq<Message>, tracks: map<int, Track>, f: Fanout)
    requires TracksValid(cfg, tracks) && OneAttemptPerKey(tracks) && TracksCameFromFanouts(fanned, tracks)
    requires RowsOk(f.message.body, f.seen, f.rows)
    requires forall id :: id in tracks ==> id !in f.rows && tracks[id].row.note != f.message.body.note
    ensures var tracks' := tracks + ToTracks(f.rows);
            && TracksValid(cfg, tracks') && OneAttemptPerKey(tracks')
            && TracksCameFromFanouts(fanned + [f.message], tracks')
  {
    var tracks', fanned' := tracks + ToTracks(f.rows), fanned + [f.message];
    forall id | id in f.rows
      ensures Attempts.Valid(cfg, tracks'[id]) && CameFrom(fanned', f.rows[id])
              && f.rows[id].note == f.message.body.note
    {
      assert RowOf(f.message.body, f.seen, f.rows[id]);
      NewAttemptIsValid(cfg, f.rows[id]);
      assert fanned'[|fanned|] == f.message;
    }
    forall id | id in tracks ensures CameFrom(fanned', tracks[id].row) {
      assert CameFrom(fanned, tracks[id].row);
      var i :| 0 <= i < |fanned| && fanned[i].body.note == tracks[id].row.note
               && fanned[i].body.payload == tracks[id].row.payload;
      assert fanned'[i] == fanned[i];
    }
    forall i, j | i in tracks' && j in tracks' && AttemptKey(tracks'[i].row) == AttemptKey(tracks'[j].row)
      ensures i == j
    {
      if i in f.rows && j in f.rows {
        assert AttemptKey(f.rows[i]) == AttemptKey(f.rows[j]);
      }
    }
  }

  lemma CommittedFanned(stream: seq<Message>, processed: set<int>, fanned: seq<Message>, f: Fanout)
    requires FannedOnce(stream, processed, fanned) && f.message.event !in processed
    requires f.index < |stream| && stream[f.index] == f.message
    ensures FannedOnce(stream, processed + {f.message.event}, fanned + [f.message])
  {
    var fanned' := fanned + [f.message];
    assert InStream(stream, f.message);
    forall e | e in processed + {f.message.event} ensures FannedEvent(fanned', e) {
      if e in processed {
        assert FannedEvent(fanned, e);
        var i :| 0 <= i < |fanned| && fanned[i].event == e;
        assert fanned'[i].event == e;
      } else {
        assert fanned'[|fanned|].event == e;
      }
    }
  }

  /* ---------- Job steps ---------- */

  /** Working a job leaves the jobs of every other attempt alone. */
  lemma OtherJobsStay(w: World, w': World, attempt: int)
    requires NoJobIsLost(w.tracks, w.jobs, w.stranded, w.clock) && w.clock <= w'.clock
    requires w'.tracks.Keys == w.tracks.Keys && w'.stranded <= w'.tracks.Keys
    requires forall id :: id in w.tracks && id != attempt ==> w'.tracks[id] == w.tracks[id]
    requires forall id :: id != attempt ==> (id in w.stranded <==> id in w'.stranded)
    requires forall j: Job :: j.attempt != attempt ==> (j in w.jobs <==> j in w'.jobs)
    requires attempt in w.tracks ==> JobState(w'.tracks, w'.jobs, w'.stranded, w'.clock, attempt)
    ensures NoJobIsLost(w'.tracks, w'.jobs, w'.stranded, w'.clock)
  {
    forall id | id in w'.tracks ensures JobState(w'.tracks, w'.jobs, w'.stranded, w'.clock, id) {
      if id != attempt {
        assert JobState(w.tracks, w.jobs, w.stranded, w.clock, id);
        KeepsJob(w.jobs, w'.jobs, id, w.tracks[id].row.nextRetryAt);
      }
    }
  }

  /** The time may pass. */
  lemma LaterKeepsJobs(w: World, clock: int)
    requires NoJobIsLost(w.tracks, w.jobs, w.stranded, w.clock) && w.clock <= clock
    ensures NoJobIsLost(w.tracks, w.jobs, w.stranded, clock)
  {
    forall id | id in w.tracks ensures JobState(w.tracks, w.jobs, w.stranded, clock, id) {
      assert JobState(w.tracks, w.jobs, w.stranded, w.clock, id);
    }
  }

  lemma WorkKeepsJobs(cfg: Settings, w: World, job: Job, reply: Attempts.Reply, jitter: nat, enqueuedAt: int)
    requires NoJobIsLost(w.tracks, w.jobs, w.stranded, w.clock) && CanWork(cfg, w, job, jitter, enqueuedAt)
    ensures var w' := WorkStep(cfg, w, job, reply, jitter, enqueuedAt);
            NoJobIsLost(w'.tracks, w'.jobs, w'.stranded, w'.clock)
  {
    var w' := WorkStep(cfg, w, job, reply, jitter, enqueuedAt);
    var id := job.attempt;
    assert HasAnyJob(w.jobs, id);
    assert id in w.tracks ==> JobState(w.tracks, w.jobs, w.stranded, w.clock, id);
    if id in w.tracks && !w'.tracks[id].row.IsTerminal() {
      WorkedAttemptHasJob(cfg, w, job, reply, jitter, enqueuedAt);
    }
    OtherJobsStay(w, w', id);
  }

  lemma WorkedAttemptHasJob(cfg: Settings, w: World, job: Job, reply: Attempts.Reply, jitter: nat, enqueuedAt: int)
    requires NoJobIsLost(w.tracks, w.jobs, w.stranded, w.clock) && CanWork(cfg, w, job, jitter, enqueuedAt)
    requires job.attempt in w.tracks
    requires !WorkStep(cfg, w, job, reply, jitter, enqueuedAt).tracks[job.attempt].row.IsTerminal()
    ensures var w' := WorkStep(cfg, w, job, reply, jitter, enqueuedAt);
            HasJob(w'.jobs, job.attempt, w'.tracks[job.attempt].row.nextRetryAt)
  {
    var w', id := WorkStep(cfg, w, job, reply, jitter, enqueuedAt), job.attempt;
    var tr, plan := w.tracks[id], w.tracks[id].row.nextRetryAt;
    assert HasAnyJob(w.jobs, id) && JobState(w.tracks, w.jobs, w.stranded, w.clock, id);
    if job.SendJob? && Reached(plan, w.clock) {
      var effect := Decide(cfg, tr.row, w.clock, reply, jitter);
      OpenAttemptGetsFollowUp(cfg, tr, w.clock, reply, jitter, enqueuedAt);
      var next := RetryJob(id, enqueuedAt + Deferral(effect, w.clock).value);
      assert next in w'.jobs;
    } else if Reached(plan, w.clock) {
      assert SendJob(id, enqueuedAt) in w'.jobs;
    } else {
      assert w'.tracks[id] == tr;
      var j :| j in w.jobs && j.attempt == id && (plan.Some? ==> j.due >= plan.value);
      assert j in w'.jobs;
    }
  }

  /** A job that raises leaves its attempt with a job, or else stranded. */
  lemma RaiseKeepsJobs(cfg: Settings, w: World, job: Job, reply: Attempts.Reply, jitter: nat, enqueuedAt: int,
                       stage: Stage, kept: bool)
    requires NoJobIsLost(w.tracks, w.jobs, w.stranded, w.clock) && CanWork(cfg, w, job, jitter, enqueuedAt)
    ensures var w' := RaiseStep(cfg, w, job, reply, jitter, enqueuedAt, stage, kept);
            NoJobIsLost(w'.tracks, w'.jobs, w'.stranded, w'.clock)
  {
    var w' := RaiseStep(cfg, w, job, reply, jitter, enqueuedAt, stage, kept);
    var id := job.attempt;
    if IsOpen(w.tracks, id) {
      var plan := w.tracks[id].row.nextRetryAt;
      assert HasAnyJob(w.jobs, id) && JobState(w.tracks, w.jobs, w.stranded, w.clock, id);
      if !Reached(plan, w.clock) {
        var j :| j in w.jobs && j.attempt == id && (plan.Some? ==> j.due >= plan.value);
        assert j in w'.jobs;
      }
    }
    OtherJobsStay(w, w', id);
  }

  lemma RolledBackIsValid(cfg: Settings, w: World, job: Job, reply: Attempts.Reply, jitter: nat, stage: Stage)
    requires TracksValid(cfg, w.tracks) && job.attempt in w.tracks
    ensures Attempts.Valid(cfg, Rollback(w.tracks[job.attempt], EffectOf(cfg, w, job, reply, jitter), stage, w.clock))
  {
    RollbackKeepsValid(cfg, w.tracks[job.attempt], w.clock, reply, jitter, stage);
    IdleRollbackKeepsValid(cfg, w.tracks[job.attempt], w.clock, stage);
  }

  lemma RaiseKeepsSafe(cfg: Settings, stream: seq<Message>, store: Store, w: World,
                       job: Job, reply: Attempts.Reply, jitter: nat, enqueuedAt: int, stage: Stage, kept: bool)
    requires Safe(cfg, stream, store, w)
    ensures Safe(cfg, stream, store, RaiseStep(cfg, w, job, reply, jitter, enqueuedAt, stage, kept))
  {
    if CanWork(cfg, w, job, jitter, enqueuedAt) {
      var w', id := RaiseStep(cfg, w, job, reply, jitter, enqueuedAt, stage, kept), job.attempt;
      RaiseKeepsJobs(cfg, w, job, reply, jitter, enqueuedAt, stage, kept);
      if IsOpen(w.tracks, id) {
        assert Attempts.Valid(cfg, w'.tracks[id]) by {
          RolledBackIsValid(cfg, w, job, reply, jitter, stage);
        }
        TrackMayMove(cfg, w.fanned, w.tracks, id, w'.tracks[id]);
      }
      assert forall j :: j in w'.jobs ==> j.attempt == id || j in w.jobs;
      assert IdsAreDrawn(w'.tracks, w'.fanouts, w'.jobs, w'.drawn);
    }
  }

  lemma WorkKeepsSafe(cfg: Settings, stream: seq<Message>, store: Store, w: World,
                      job: Job, reply: Attempts.Reply, jitter: nat, enqueuedAt: int)
    requires Safe(cfg, stream, store, w)
    ensures Safe(cfg, stream, store, WorkStep(cfg, w, job, reply, jitter, enqueuedAt))
  {
    if CanWork(cfg, w, job, jitter, enqueuedAt) {
      WorkKeepsJobs(cfg, w, job, reply, jitter, enqueuedAt);
      WorkKeepsTracks(cfg, w, job, reply, jitter, enqueuedAt);
      WorkKeepsIds(cfg, w, job, reply, jitter, enqueuedAt);
    }
  }

  lemma WorkKeepsTracks(cfg: Settings, w: World, job: Job, reply: Attempts.Reply, jitter: nat, enqueuedAt: int)
    requires TracksValid(cfg, w.tracks) && OneAttemptPerKey(w.tracks) && TracksCameFromFanouts(w.fanned, w.tracks)
    ensures var tracks' := WorkStep(cfg, w, job, reply, jitter, enqueuedAt).tracks;
            TracksValid(cfg, tracks') && OneAttemptPerKey(tracks') && TracksCameFromFanouts(w.fanned, tracks')
  {
    var tracks', id := WorkStep(cfg, w, job, reply, jitter, enqueuedAt).tracks, job.attempt;
    if tracks' != w.tracks {
      ExecuteKeepsValid(cfg, w.tracks[id], w.clock, reply, jitter);
      ExecuteLeavesAlone(cfg, w.tracks[id], w.clock, reply, jitter);
      TrackMayMove(cfg, w.fanned, w.tracks, id, tracks'[id]);
    }
  }

  lemma WorkKeepsIds(cfg: Settings, w: World, job: Job, reply: Attempts.Reply, jitter: nat, enqueuedAt: int)
    requires IdsAreDrawn(w.tracks, w.fanouts, w.jobs, w.drawn) && CanWork(cfg, w, job, jitter, enqueuedAt)
    ensures var w' := WorkStep(cfg, w, job, reply, jitter, enqueuedAt);
            && IdsAreDrawn(w'.tracks, w'.fanouts, w'.jobs, w'.drawn)
            && w' == w.(clock := enqueuedAt, tracks := w'.tracks, jobs := w'.jobs, counters := w'.counters)
  {
    var w' := WorkStep(cfg, w, job, reply, jitter, enqueuedAt);
    assert forall j :: j in w'.jobs ==> j.attempt == job.attempt || j in w.jobs;
  }

  lemma TrackMayMove(cfg: Settings, fanned: seq<Message>, tracks: map<int, Track>, id: int, tr: Track)
    requires TracksValid(cfg, tracks) && OneAttemptPerKey(tracks) && TracksCameFromFanouts(fanned, tracks)
    requires id in tracks && Attempts.Valid(cfg, tr)
    requires var a, a' := tracks[id].row, tr.row; AttemptKey(a') == AttemptKey(a) && a'.payload == a.payload
    ensures var tracks' := tracks[id := tr];
            TracksValid(cfg, tracks') && OneAttemptPerKey(tracks') && TracksCameFromFanouts(fanned, tracks')
  {
    var tracks' := tracks[id := tr];
    forall i | i in tracks' ensures CameFrom(fanned, tracks'[i].row) && tracks'[i].row.channel in ALLOWED {
      assert CameFrom(fanned, tracks[i].row);
    }
  }

  lemma DuplicateKeepsSafe(cfg: Settings, stream: seq<Message>, store: Store, w: World, job: Job)
    requires Safe(cfg, stream, store, w) && job in w.jobs
    ensures Safe(cfg, stream, store, w.(jobs := w.jobs + multiset{job}))
  {
    var jobs := w.jobs + multiset{job};
    assert forall j :: j in jobs <==> j in w.jobs;
    forall id | id in w.tracks ensures JobState(w.tracks, jobs, w.stranded, w.clock, id) {
      assert JobState(w.tracks, w.jobs, w.stranded, w.clock, id);
      KeepsJob(w.jobs, jobs, id, w.tracks[id].row.nextRetryAt);
    }
  }

  lemma AbortKeepsSafe(cfg: Settings, stream: seq<Message>, store: Store, w: World, fanout: int, counted: bool)
    requires Safe(cfg, stream, store, w)
    ensures Safe(cfg, stream, store, AbortStep(w, fanout, counted))
  {
  }

  lemma LaterKeepsSafe(cfg: Settings, stream: seq<Message>, store: Store, w: World, clock: int)
    requires Safe(cfg, stream, store, w) && w.clock <= clock
    ensures Safe(cfg, stream, store, w.(clock := clock))
  {
    LaterKeepsJobs(w, clock);
  }

  lemma AcksKeepSafe(cfg: Settings, stream: seq<Message>, store: Store, w: World, finished: set<nat>, acked: set<nat>)
    requires Safe(cfg, stream, store, w) && AcksAreSafe(stream, w.processed, finished, acked)
    ensures Safe(cfg, stream, store, w.(finished := finished, acked := acked))
  {
  }

  predicate IsFanoutAction(a: Delivery.Action) {
    a.Begin? || a.FetchPage? || a.Commit? || a.Abort?
  }

  predicate IsJobAction(a: Delivery.Action) {
    a.Work? || a.Raise? || a.Duplicate?
  }

  lemma FanoutActionKeepsSafe(cfg: Settings, stream: seq<Message>, store: Store, w: World, a: Delivery.Action)
    requires Safe(cfg, stream, store, w) && OneEventPerNote(stream) && Subscriptions.Valid(cfg.zones, store)
    requires IsFanoutAction(a)
    ensures Safe(cfg, stream, store, Delivery.Step(cfg, stream, store, w, a))
  {
    match a
    case Begin(fanout, index) => BeginKeepsSafe(cfg, stream, store, w, fanout, index);
    case FetchPage(fanout, ids) => FetchPageKeepsSafe(cfg, stream, store, w, fanout, ids);
    case Commit(fanout) => CommitKeepsSafe(cfg, stream, store, w, fanout);
    case Abort(fanout, counted) => AbortKeepsSafe(cfg, stream, store, w, fanout, counted);
  }

  lemma WorkActionKeepsSafe(cfg: Settings, stream: seq<Message>, store: Store, w: World, a: Delivery.Action)
    requires Safe(cfg, stream, store, w) && a.Work?
    ensures Safe(cfg, stream, store, Delivery.Step(cfg, stream, store, w, a))
  {
    WorkKeepsSafe(cfg, stream, store, w, a.job, a.reply, a.jitter, a.enqueuedAt);
  }

  lemma RaiseActionKeepsSafe(cfg: Settings, stream: seq<Message>, store: Store, w: World, a: Delivery.Action)
    requires Safe(cfg, stream, store, w) && a.Raise?
    ensures Safe(cfg, stream, store, Delivery.Step(cfg, stream, store, w, a))
  {
    RaiseKeepsSafe(cfg, stream, store, w, a.job, a.reply, a.jitter, a.enqueuedAt, a.stage, a.kept);
  }

  lemma JobActionKeepsSafe(cfg: Settings, stream: seq<Message>, store: Store, w: World, a: Delivery.Action)
    requires Safe(cfg, stream, store, w) && IsJobAction(a)
    ensures Safe(cfg, stream, store, Delivery.Step(cfg, stream, store, w, a))
  {
    if a.Work? {
      WorkActionKeepsSafe(cfg, stream, store, w, a);
    } else if a.Raise? {
      RaiseActionKeepsSafe(cfg, stream, store, w, a);
    } else if a.job in w.jobs {
      DuplicateKeepsSafe(cfg, stream, store, w, a.job);
    }
  }

  lemma OtherActionKeepsSafe(cfg: Settings, stream: seq<Message>, store: Store, w: World, a: Delivery.Action)
    requires Safe(cfg, stream, store, w) && !IsFanoutAction(a) && !IsJobAction(a)
    ensures Safe(cfg, stream, store, Delivery.Step(cfg, stream, store, w, a))
  {
    match a
    case Advance(now) => LaterKeepsSafe(cfg, stream, store, w, Max(w.clock, now));
    case Deduplicate(index) =>
      if index < |stream| && stream[index].event in w.processed {
        AcksKeepSafe(cfg, stream, store, w, w.finished + {index}, w.acked);
      }
    case Ack(index) =>
      if index in w.finished {
        AcksKeepSafe(cfg, stream, store, w, w.finished, w.acked + {index});
      }
    case LoseAck(index) => AcksKeepSafe(cfg, stream, store, w, w.finished - {index}, w.acked);
  }

  lemma StepKeepsSafe(cfg: Settings, stream: seq<Message>, store: Store, w: World, a: Delivery.Action)
    requires Safe(cfg, stream, store, w) && OneEventPerNote(stream) && Subscriptions.Valid(cfg.zones, store)
    ensures Safe(cfg, stream, store, Delivery.Step(cfg, stream, store, w, a))
  {
    if IsFanoutAction(a) {
      FanoutActionKeepsSafe(cfg, stream, store, w, a);
    } else if IsJobAction(a) {
      JobActionKeepsSafe(cfg, stream, store, w, a);
    } else {
      OtherActionKeepsSafe(cfg, stream, store, w, a);
    }
  }
}
