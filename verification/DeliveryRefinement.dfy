/** A whole fan-out, as module DeliveryService performs it in one call, is the machine's run of one page
    after another; and on an unchanging table it creates exactly what the table asks for. */
module DeliveryRefinement {
  import opened Options
  import opened Attempts
  import opened Keyset
  import opened Channels
  import opened Subscriptions
  import opened Notifications
  import opened Delivery
  import opened DeliverySafety
  import opened DeliveryService
  import opened System
  import opened Coverage

  /** One page for the fan-out under the next fresh ids, if there is one to fetch. */
  ghost predicate ReadsPage(cfg: Settings, store: Store, w: World, w': World, fanout: int, from: int, from': int) {
    if CanFetch(cfg, store, w, fanout) then
      var n := |TargetsOf(cfg, NextListing(cfg, store, w.fanouts[fanout]).items)|;
      w' == FetchPageStep(cfg, store, w, fanout, Fresh(from, n)) && from' == from + n
    else
      w' == w && from' == from
  }

  /** The machine reads page after page for the fan-out, the i-th from the i-th store. */
  ghost predicate ReadsPages(cfg: Settings, stores: seq<Store>, ws: seq<World>, fanout: int, froms: seq<int>) {
    && |ws| == |froms| == |stores| + 1
    && forall i :: 0 <= i < |stores| ==> ReadsPage(cfg, stores[i], ws[i], ws[i + 1], fanout, froms[i], froms[i + 1])
  }

  lemma ReadsPagesTail(cfg: Settings, stores: seq<Store>, ws: seq<World>, fanout: int, froms: seq<int>)
    requires ReadsPages(cfg, stores, ws, fanout, froms) && stores != []
    ensures ReadsPages(cfg, stores[1..], ws[1..], fanout, froms[1..])
  {
    forall i | 0 <= i < |stores| - 1
      ensures ReadsPage(cfg, stores[1..][i], ws[1..][i], ws[1..][i + 1], fanout, froms[1..][i], froms[1..][i + 1])
    {
      assert ReadsPage(cfg, stores[i + 1], ws[i + 1], ws[i + 2], fanout, froms[i + 1], froms[i + 2]);
    }
  }

  /** A fan-out that has read its last page reads no more. */
  lemma {:induction false} DoneReadsNothing(cfg: Settings, stores: seq<Store>, ws: seq<World>, fanout: int,
                                            froms: seq<int>)
    requires ReadsPages(cfg, stores, ws, fanout, froms)
    requires fanout in ws[0].fanouts && ws[0].fanouts[fanout].done
    ensures ws[|stores|] == ws[0]
    decreases |stores|
  {
    if stores != [] {
      ReadsPagesTail(cfg, stores, ws, fanout, froms);
      assert ReadsPage(cfg, stores[0], ws[0], ws[1], fanout, froms[0], froms[1]);
      DoneReadsNothing(cfg, stores[1..], ws[1..], fanout, froms[1..]);
    }
  }

  lemma {:induction false} TargetsJoin(cfg: Settings, first: seq<Subscriber>, second: seq<Subscriber>)
    ensures TargetsOf(cfg, first + second) == TargetsOf(cfg, first) + TargetsOf(cfg, second)
    decreases |second|
  {
    if second == [] {
      assert first + second == first;
    } else {
      var last, all := |second| - 1, first + second;
      TargetsJoin(cfg, first, second[..last]);
      assert all[..|all| - 1] == first + second[..last] && all[|all| - 1] == second[last];
      assert TargetsOf(cfg, all) == TargetsOf(cfg, first + second[..last]) + TargetsFor(cfg, second[last]);
      assert TargetsOf(cfg, second) == TargetsOf(cfg, second[..last]) + TargetsFor(cfg, second[last]);
    }
  }

  lemma {:induction false} NewRowsJoin(body: Body, t1: seq<Target>, t2: seq<Target>, i1: seq<int>, i2: seq<int>)
    requires |t1| == |i1| && |t2| == |i2|
    ensures NewRows(body, t1 + t2, i1 + i2) == NewRows(body, t1, i1) + NewRows(body, t2, i2)
    decreases |i2|
  {
    if i2 == [] {
      assert t1 + t2 == t1 && i1 + i2 == i1;
    } else {
      var last := |i2| - 1;
      NewRowsJoin(body, t1, t2[..last], i1, i2[..last]);
      assert (t1 + t2)[..|i1 + i2| - 1] == t1 + t2[..last];
      assert (i1 + i2)[..|i1 + i2| - 1] == i1 + i2[..last];
    }
  }

  lemma SendJobsJoin(first: seq<int>, second: seq<int>, due: int)
    ensures SendJobs(first + second, due) == SendJobs(first, due) + SendJobs(second, due)
  {
    var a := seq(|first|, i requires 0 <= i < |first| => SendJob(first[i], due));
    var b := seq(|second|, i requires 0 <= i < |second| => SendJob(second[i], due));
    var all := first + second;
    assert seq(|all|, i requires 0 <= i < |all| => SendJob(all[i], due)) == a + b;
  }

  lemma FreshJoin(from: int, m: nat, n: nat)
    ensures Fresh(from, m + n) == Fresh(from, m) + Fresh(from + m, n)
  {
  }

  /** None of the targets is taken, by the table, by an open fan-out or by another target. */
  ghost predicate Free(w: World, body: Body, targets: seq<Target>) {
    Insertable(w, ToAttempts(body, targets))
  }

  lemma FreeSplits(w: World, body: Body, first: seq<Target>, second: seq<Target>)
    requires Free(w, body, first + second)
    ensures Free(w, body, first)
    ensures forall i :: 0 <= i < |second| ==>
              && second[i].channel in ALLOWED && !Taken(w, AttemptKey(ToAttempt(body, second[i])))
              && !Targeted(body, first, AttemptKey(ToAttempt(body, second[i])))
    ensures forall i, j :: 0 <= i < j < |second| ==>
              AttemptKey(ToAttempt(body, second[i])) != AttemptKey(ToAttempt(body, second[j]))
  {
    var all, rows := first + second, ToAttempts(body, first + second);
    forall i | 0 <= i < |first| ensures ToAttempts(body, first)[i] == rows[i] {
      assert all[i] == first[i];
    }
    forall i | 0 <= i < |second| ensures ToAttempt(body, second[i]) == rows[|first| + i] {
      assert all[|first| + i] == second[i];
    }
    forall i, k | 0 <= i < |second| && 0 <= k < |first|
      ensures AttemptKey(ToAttempt(body, first[k])) != AttemptKey(ToAttempt(body, second[i]))
    {
      assert rows[k] == ToAttempt(body, first[k]) && rows[|first| + i] == ToAttempt(body, second[i]);
    }
  }

  /** After a page, the targets of the following pages are still free. */
  lemma RestStaysFree(cfg: Settings, store: Store, w: World, fanout: int, ids: seq<int>, rest: seq<Target>)
    requires CanFetch(cfg, store, w, fanout) && FreshIds(w, ids)
    requires var first := TargetsOf(cfg, NextListing(cfg, store, w.fanouts[fanout]).items);
             |ids| == |first| && Free(w, w.fanouts[fanout].message.body, first + rest)
    ensures Free(FetchPageStep(cfg, store, w, fanout, ids), w.fanouts[fanout].message.body, rest)
  {
    var f, w' := w.fanouts[fanout], FetchPageStep(cfg, store, w, fanout, ids);
    var listing, body := NextListing(cfg, store, f), f.message.body;
    var first := TargetsOf(cfg, listing.items);
    FreeSplits(w, body, first, rest);
    forall i | 0 <= i < |rest| ensures !Taken(w', AttemptKey(ToAttempt(body, rest[i]))) {
      var key := AttemptKey(ToAttempt(body, rest[i]));
      AddedKeys(body, first, ids, f.rows, key);
      forall g | g in w'.fanouts ensures !TakenBy(w'.fanouts[g].rows, key) {
        assert !TakenBy(w.fanouts[g].rows, key);
      }
    }
  }

  lemma AddedKeys(body: Body, targets: seq<Target>, ids: seq<int>, rows: map<int, Attempt>, key: (int, int, string))
    requires |targets| == |ids| && Distinct(ids)
    requires !TakenBy(rows, key) && !Targeted(body, targets, key)
    ensures !TakenBy(rows + NewRows(body, targets, ids), key)
  {
    var added := NewRows(body, targets, ids);
    NewRowsAre(body, targets, ids);
    forall id | id in added ensures AttemptKey(added[id]) != key {
      var i :| 0 <= i < |ids| && ids[i] == id;
    }
  }

  /** The open fan-out of w has gone on to w' with exactly the rows and jobs of these targets. */
  ghost predicate HasRead(w: World, w': World, fanout: int, targets: seq<Target>, from: int, done: bool) {
    && fanout in w.fanouts && fanout in w'.fanouts
    && w'.fanouts == w.fanouts[fanout := w'.fanouts[fanout]]
    && HasInserted(w.fanouts[fanout], w'.fanouts[fanout], targets, from, done)
    && w'.jobs == w.jobs + SendJobs(Fresh(from, |targets|), w.clock)
    && w' == w.(fanouts := w'.fanouts, jobs := w'.jobs, drawn := w'.drawn)
    && (forall id :: id in w'.drawn && id !in w.drawn ==> from <= id < from + |targets|)
  }

  ghost predicate HasInserted(f: Fanout, f': Fanout, targets: seq<Target>, from: int, done: bool) {
    && f'.rows == f.rows + NewRows(f.message.body, targets, Fresh(from, |targets|))
    && f'.index == f.index && f'.message == f.message
    && f'.done == done && !f'.broken
  }

  lemma ReadPage(cfg: Settings, store: Store, w: World, fanout: int, from: int)
    requires CanFetch(cfg, store, w, fanout) && forall id :: id in w.drawn ==> id < from
    requires Free(w, w.fanouts[fanout].message.body, TargetsOf(cfg, NextListing(cfg, store, w.fanouts[fanout]).items))
    ensures var f := w.fanouts[fanout];
            var listing := NextListing(cfg, store, f);
            var targets := TargetsOf(cfg, listing.items);
            var w1 := FetchPageStep(cfg, store, w, fanout, Fresh(from, |targets|));
            && HasRead(w, w1, fanout, targets, from, listing.next.None?)
            && w1.fanouts[fanout].cursor == listing.next
            && FreshIds(w, Fresh(from, |targets|))
  {
    var listing := NextListing(cfg, store, w.fanouts[fanout]);
    var ids := Fresh(from, |TargetsOf(cfg, listing.items)|);
    FetchPageIs(cfg, store, w, fanout, ids, listing);
    assert forall id :: id in ids ==> from <= id < from + |ids|;
  }

  lemma ReadOn(w: World, w1: World, w': World, fanout: int, first: seq<Target>, rest: seq<Target>,
               from: int, from1: int, done: bool)
    requires HasRead(w, w1, fanout, first, from, false) && HasRead(w1, w', fanout, rest, from1, done)
    requires from1 == from + |first|
    ensures HasRead(w, w', fanout, first + rest, from, done)
  {
    var f, f1, f' := w.fanouts[fanout], w1.fanouts[fanout], w'.fanouts[fanout];
    InsertedOn(f, f1, f', first, rest, from, done);
    FreshJoin(from, |first|, |rest|);
    SendJobsJoin(Fresh(from, |first|), Fresh(from1, |rest|), w.clock);
  }

  lemma InsertedOn(f: Fanout, f1: Fanout, f': Fanout, first: seq<Target>, rest: seq<Target>, from: int, done: bool)
    requires HasInserted(f, f1, first, from, false) && HasInserted(f1, f', rest, from + |first|, done)
    ensures HasInserted(f, f', first + rest, from, done)
  {
    var body, i1, i2 := f.message.body, Fresh(from, |first|), Fresh(from + |first|, |rest|);
    FreshJoin(from, |first|, |rest|);
    NewRowsJoin(body, first, rest, i1, i2);
    OverlayTwice(f.rows, NewRows(body, first, i1), NewRows(body, rest, i2));
  }

  lemma OverlayTwice(a: map<int, Attempt>, b: map<int, Attempt>, c: map<int, Attempt>)
    ensures a + b + c == a + (b + c)
  {
  }

  /** The first of several pages leaves everything fit for the others. */
  lemma FirstPage(cfg: Settings, store: Store, w: World, fanout: int, from: int, rest: seq<Target>)
    requires CanFetch(cfg, store, w, fanout) && forall id :: id in w.drawn ==> id < from
    requires NextListing(cfg, store, w.fanouts[fanout]).next.Some?
    requires Free(w, w.fanouts[fanout].message.body,
                  TargetsOf(cfg, NextListing(cfg, store, w.fanouts[fanout]).items) + rest)
    ensures var listing := NextListing(cfg, store, w.fanouts[fanout]);
            var first := TargetsOf(cfg, listing.items);
            var w1 := FetchPageStep(cfg, store, w, fanout, Fresh(from, |first|));
            && HasRead(w, w1, fanout, first, from, false)
            && w1.fanouts[fanout].cursor == listing.next
            && Free(w1, w.fanouts[fanout].message.body, rest)
            && forall id :: id in w1.drawn ==> id < from + |first|
  {
    var first := TargetsOf(cfg, NextListing(cfg, store, w.fanouts[fanout]).items);
    FreeSplits(w, w.fanouts[fanout].message.body, first, rest);
    ReadPage(cfg, store, w, fanout, from);
    RestStaysFree(cfg, store, w, fanout, Fresh(from, |first|), rest);
  }

  /** When the scan finishes, reading its pages has added the rows and jobs of all its targets to the
      open fan-out. */
  lemma {:induction false} PagesMakeWholeFanout(cfg: Settings, stores: seq<Store>, ws: seq<World>, fanout: int,
                                                froms: seq<int>, body: Body, scan: SubscriberScan)
    requires cfg.pageLimit >= 1 && ReadsPages(cfg, stores, ws, fanout, froms)
    requires fanout in ws[0].fanouts && !ws[0].fanouts[fanout].done && !ws[0].fanouts[fanout].broken
    requires ws[0].fanouts[fanout].message.body == body
    requires scan == ScanSubscribers(stores, body.topic, cfg.pageLimit, ws[0].fanouts[fanout].cursor)
    requires scan.ending.Finished?
    requires Free(ws[0], body, TargetsOf(cfg, scan.items)) && forall id :: id in ws[0].drawn ==> id < froms[0]
    ensures HasRead(ws[0], ws[|stores|], fanout, TargetsOf(cfg, scan.items), froms[0], true)
    decreases |stores|, 0
  {
    var listing := NextListing(cfg, stores[0], ws[0].fanouts[fanout]);
    var first := TargetsOf(cfg, listing.items);
    assert ReadsPage(cfg, stores[0], ws[0], ws[1], fanout, froms[0], froms[1]);
    ReadsPagesTail(cfg, stores, ws, fanout, froms);
    if listing.next.None? {
      ReadPage(cfg, stores[0], ws[0], fanout, froms[0]);
      DoneReadsNothing(cfg, stores[1..], ws[1..], fanout, froms[1..]);
    } else {
      var later := ScanSubscribers(stores[1..], body.topic, cfg.pageLimit, listing.next);
      var rest := TargetsOf(cfg, later.items);
      assert TargetsOf(cfg, scan.items) == first + rest by {
        TargetsJoin(cfg, listing.items, later.items);
      }
      FirstPage(cfg, stores[0], ws[0], fanout, froms[0], rest);
      FollowingPages(cfg, stores[1..], ws[0], ws[1..], fanout, froms[0], froms[1..], body, first, later);
    }
  }

  lemma {:induction false} FollowingPages(cfg: Settings, stores: seq<Store>, w: World, ws: seq<World>, fanout: int,
                                          from: int, froms: seq<int>, body: Body, first: seq<Target>,
                                          later: SubscriberScan)
    requires cfg.pageLimit >= 1 && ReadsPages(cfg, stores, ws, fanout, froms)
    requires HasRead(w, ws[0], fanout, first, from, false) && w.fanouts[fanout].message.body == body
    requires froms[0] == from + |first|
    requires later == ScanSubscribers(stores, body.topic, cfg.pageLimit, ws[0].fanouts[fanout].cursor)
    requires later.ending.Finished?
    requires Free(ws[0], body, TargetsOf(cfg, later.items)) && forall id :: id in ws[0].drawn ==> id < froms[0]
    ensures HasRead(w, ws[|stores|], fanout, first + TargetsOf(cfg, later.items), from, true)
    decreases |stores|, 1
  {
    PagesMakeWholeFanout(cfg, stores, ws, fanout, froms, body, later);
    ReadOn(w, ws[0], ws[|stores|], fanout, first, TargetsOf(cfg, later.items), from, froms[0], true);
  }

  /** What the table leaves free, other open fan-outs leave free, since they handle other notifications. */
  lemma OthersLeaveFree(w: World, body: Body, targets: seq<Target>)
    requires CanInsert(w.tracks, body, targets) && OthersHandleOtherNotes(w, body.note)
    ensures Free(w, body, targets)
  {
    var rows := ToAttempts(body, targets);
    forall i | 0 <= i < |rows| ensures rows[i].channel in ALLOWED && !Taken(w, AttemptKey(rows[i])) {
      assert !KeyTaken(w.tracks, AttemptKey(ToAttempt(body, targets[i])));
      assert forall f :: f in w.fanouts ==> !TakenBy(w.fanouts[f].rows, AttemptKey(rows[i]));
    }
    forall i, j | 0 <= i < j < |rows| ensures AttemptKey(rows[i]) != AttemptKey(rows[j]) {
      assert AttemptKey(ToAttempt(body, targets[i])) != AttemptKey(ToAttempt(body, targets[j]));
    }
  }

  /** No open fan-out has inserted a row for the notification. */
  ghost predicate OthersHandleOtherNotes(w: World, note: int) {
    forall f, id :: f in w.fanouts && id in w.fanouts[f].rows ==> w.fanouts[f].rows[id].note != note
  }

  /** Every reachable state is like that before a fan-out begins. */
  lemma BeginsBesideOtherNotes(cfg: Settings, y: Sys, fanout: int, index: nat)
    requires Reachable(cfg, y) && CanBegin(y.notifications.stream, y.delivery, fanout, index)
    ensures OthersHandleOtherNotes(y.delivery, y.notifications.stream[index].body.note)
  {
    ReachableIsValid(cfg, y);
    MessagesAreCopies(y.notifications);
    OpenRowsAreOfOtherNotes(y.notifications.stream, y.subscriptions, y.delivery, fanout, index);
  }

  lemma OpenRowsAreOfOtherNotes(stream: seq<Message>, store: Store, w: World, fanout: int, index: nat)
    requires FanoutsOk(stream, store, w.processed, w.fanouts) && OneEventPerNote(stream)
    requires CanBegin(stream, w, fanout, index)
    ensures OthersHandleOtherNotes(w, stream[index].body.note)
  {
    forall f, id | f in w.fanouts && id in w.fanouts[f].rows
      ensures w.fanouts[f].rows[id].note != stream[index].body.note
    {
      var open := w.fanouts[f];
      assert FanoutOk(stream, store, open);
      assert RowOf(open.message.body, open.seen, open.rows[id]);
      assert stream[open.index] == open.message && open.message.event != stream[index].event;
    }
  }

  predicate CanBegin(stream: seq<Message>, w: World, fanout: int, index: nat) {
    && fanout !in w.fanouts && index < |stream|
    && stream[index].event !in w.processed && !Busy(w, stream[index].event)
  }

  /** A fan-out that finds all its targets free, begun beside any other open ones, adds its rows, jobs and
      counts and leaves the others as they were. */
  lemma FreeFanoutIsARun(cfg: Settings, stream: seq<Message>, w: World, index: nat, stores: seq<Store>,
                         ws: seq<World>, fanout: int, froms: seq<int>)
    requires cfg.pageLimit >= 1 && CanBegin(stream, w, fanout, index)
    requires ReadsPages(cfg, stores, ws, fanout, froms) && ws[0] == BeginStep(stream, w, fanout, index)
    requires var scan := ScanSubscribers(stores, stream[index].body.topic, cfg.pageLimit, None);
             scan.ending.Finished? && Free(w, stream[index].body, TargetsOf(cfg, scan.items))
    requires forall id :: id in w.drawn ==> id < froms[0]
    ensures var body, w' := stream[index].body, CommitStep(ws[|stores|], fanout);
            var targets := TargetsOf(cfg, ScanSubscribers(stores, body.topic, cfg.pageLimit, None).items);
            var ids := Fresh(froms[0], |targets|);
            var rows := NewRows(body, targets, ids);
            && w'.tracks == w.tracks + ToTracks(rows)
            && w'.processed == w.processed + {stream[index].event}
            && w'.jobs == w.jobs + SendJobs(ids, w.clock)
            && w'.counters == w.counters.(created := CountCreated(w.counters.created, rows))
            && w'.fanouts == w.fanouts
  {
    var body := stream[index].body;
    var scan := ScanSubscribers(stores, body.topic, cfg.pageLimit, None);
    var targets := TargetsOf(cfg, scan.items);
    var begun := Fanout(index, stream[index], [], None, false, false, map[]);
    assert ws[0] == w.(fanouts := w.fanouts[fanout := begun]);
    BegunStaysFree(w, fanout, begun, body, targets);
    PagesMakeWholeFanout(cfg, stores, ws, fanout, froms, body, scan);
    CommitAfterRead(w, ws[0], ws[|stores|], fanout, begun, targets, froms[0]);
  }

  lemma CommitAfterRead(w: World, w0: World, w1: World, fanout: int, begun: Fanout, targets: seq<Target>, from: int)
    requires fanout !in w.fanouts && begun.rows == map[] && w0 == w.(fanouts := w.fanouts[fanout := begun])
    requires HasRead(w0, w1, fanout, targets, from, true)
    ensures var w', ids := CommitStep(w1, fanout), Fresh(from, |targets|);
            var rows := NewRows(begun.message.body, targets, ids);
            && w'.tracks == w.tracks + ToTracks(rows)
            && w'.processed == w.processed + {begun.message.event}
            && w'.jobs == w.jobs + SendJobs(ids, w.clock)
            && w'.counters == w.counters.(created := CountCreated(w.counters.created, rows))
            && w'.fanouts == w.fanouts
  {
    var rows := NewRows(begun.message.body, targets, Fresh(from, |targets|));
    assert map[] + rows == rows;
    assert w1.fanouts[fanout].rows == rows;
    assert w1.fanouts - {fanout} == w.fanouts;
  }

  lemma BegunStaysFree(w: World, fanout: int, begun: Fanout, body: Body, targets: seq<Target>)
    requires Free(w, body, targets) && fanout !in w.fanouts && begun.rows == map[]
    ensures Free(w.(fanouts := w.fanouts[fanout := begun]), body, targets)
  {
    var w', rows := w.(fanouts := w.fanouts[fanout := begun]), ToAttempts(body, targets);
    forall i | 0 <= i < |rows| ensures !Taken(w', AttemptKey(rows[i])) {
      assert !Taken(w, AttemptKey(rows[i]));
    }
  }

  /** The whole fan-out of class DeliveryDb is this run of the machine: begin, one page after another,
      commit, whatever other fan-outs are open. */
  lemma WholeFanoutIsARun(cfg: Settings, stream: seq<Message>, w: World, index: nat, stores: seq<Store>,
                          ws: seq<World>, fanout: int, froms: seq<int>)
    requires cfg.pageLimit >= 1 && CanBegin(stream, w, fanout, index)
    requires OthersHandleOtherNotes(w, stream[index].body.note)
    requires ReadsPages(cfg, stores, ws, fanout, froms) && ws[0] == BeginStep(stream, w, fanout, index)
    requires OutcomeOf(cfg, w.tracks, w.processed, stream[index], stores).Processed?
    requires forall id :: id in w.drawn ==> id < froms[0]
    ensures var body, w' := stream[index].body, CommitStep(ws[|stores|], fanout);
            var targets := TargetsOf(cfg, ScanSubscribers(stores, body.topic, cfg.pageLimit, None).items);
            var ids := Fresh(froms[0], |targets|);
            var rows := NewRows(body, targets, ids);
            && w'.tracks == w.tracks + ToTracks(rows)
            && w'.processed == w.processed + {stream[index].event}
            && w'.jobs == w.jobs + SendJobs(ids, w.clock)
            && w'.counters == w.counters.(created := CountCreated(w.counters.created, rows))
            && w'.fanouts == w.fanouts
  {
    var body := stream[index].body;
    OthersLeaveFree(w, body, TargetsOf(cfg, ScanSubscribers(stores, body.topic, cfg.pageLimit, None).items));
    FreeFanoutIsARun(cfg, stream, w, index, stores, ws, fanout, froms);
  }

  /* ---------- An unchanging table ---------- */

  lemma ScanReadsActive(cfg: Settings, store: Store, n: nat, topic: int)
    requires cfg.pageLimit >= 1 && topic in store.topics && n >= 1 && |ActiveKeys(store, topic)| <= n * cfg.pageLimit
    ensures var scan := ScanSubscribers(seq(n, _ => store), topic, cfg.pageLimit, None);
            && scan.ending.Finished?
            && (forall i :: 0 <= i < |scan.items| ==>
                  var id := scan.items[i].id;
                  && id in store.rows && scan.items[i].prefs == store.rows[id].prefs
                  && store.rows[id].user == scan.items[i].user && store.rows[id].topic == topic
                  && store.rows[id].active)
            && (forall id :: id in store.rows && store.rows[id].topic == topic && store.rows[id].active ==>
                  exists i :: 0 <= i < |scan.items| && scan.items[i].id == id
                    && scan.items[i].user == store.rows[id].user)
            && (forall i, j :: 0 <= i < j < |scan.items| ==> KeyOf(scan.items[i]) != KeyOf(scan.items[j]))
  {
    var stores, active := seq(n, _ => store), ActiveKeys(store, topic);
    SubscriberScanOfUnchangingStore(store, n, topic, cfg.pageLimit);
    SubscriberScanSurvivesChange(stores, topic, cfg.pageLimit);
    SortSorts(active);
    var items := ScanSubscribers(stores, topic, cfg.pageLimit, None).items;
    forall i | 0 <= i < |items| ensures KeyOf(items[i]) in active {
      assert KeysOf(items)[i] in Sort(active);
    }
    forall id | id in store.rows && store.rows[id].topic == topic && store.rows[id].active
      ensures exists i :: 0 <= i < |items| && items[i].id == id && items[i].user == store.rows[id].user
    {
      assert (store.rows[id].user, id) in active;
      assert (store.rows[id].user, id) in KeysOf(items);
    }
  }

  /** On an unchanging table a fan-out that has not run before goes through and creates exactly one
      attempt per active subscription of the topic and supported channel of it, and nothing else. */
  lemma FanoutMatchesTable(cfg: Settings, store: Store, n: nat, message: Message, attempts: map<int, Track>,
                           processed: set<int>, from: int)
    requires Subscriptions.Valid(cfg.zones, store) && message.body.topic in store.topics
    requires cfg.pageLimit >= 1 && n >= 1 && |ActiveKeys(store, message.body.topic)| <= n * cfg.pageLimit
    requires message.event !in processed && forall id :: id in attempts ==> attempts[id].row.note != message.body.note
    ensures var body, stores := message.body, seq(n, _ => store);
            var targets := TargetsOf(cfg, ScanSubscribers(stores, body.topic, cfg.pageLimit, None).items);
            var rows := NewRows(body, targets, Fresh(from, |targets|));
            && OutcomeOf(cfg, attempts, processed, message, stores).Processed?
            && RowsDistinct(rows)
            && forall user, channel :: HasRow(rows, user, channel) <==>
                 channel in cfg.channels && exists id :: Subscribes(store, id, user, body.topic, channel)
  {
    var body, stores := message.body, seq(n, _ => store);
    var items := ScanSubscribers(stores, body.topic, cfg.pageLimit, None).items;
    var targets := TargetsOf(cfg, items);
    ScanReadsActive(cfg, store, n, body.topic);
    assert UsersDistinct(items);
    TargetsAreDistinct(cfg, items);
    TargetsComeFromTable(cfg, store, body.topic, items);
    TargetsFit(cfg, store, body, targets, attempts);
    RowsAreTargets(body, targets, Fresh(from, |targets|));
  }

  /** Each row of that fan-out is a new attempt with the notification's payload and the quiet hours that
      the table holds for its subscriber. */
  lemma FanoutRowsCarryPreferences(cfg: Settings, store: Store, n: nat, body: Body, from: int, r: int)
    requires Subscriptions.Valid(cfg.zones, store) && body.topic in store.topics
    requires cfg.pageLimit >= 1 && n >= 1 && |ActiveKeys(store, body.topic)| <= n * cfg.pageLimit
    requires var targets := TargetsOf(cfg, ScanSubscribers(seq(n, _ => store), body.topic, cfg.pageLimit, None).items);
             r in NewRows(body, targets, Fresh(from, |targets|))
    ensures var targets := TargetsOf(cfg, ScanSubscribers(seq(n, _ => store), body.topic, cfg.pageLimit, None).items);
            var a := NewRows(body, targets, Fresh(from, |targets|))[r];
            exists id :: && Subscribes(store, id, a.user, body.topic, a.channel)
                         && a == NewAttempt(body.note, a.user, a.channel, body.payload, WindowOf(store.rows[id].prefs))
  {
    var items := ScanSubscribers(seq(n, _ => store), body.topic, cfg.pageLimit, None).items;
    var targets := TargetsOf(cfg, items);
    var ids := Fresh(from, |targets|);
    NewRowsAre(body, targets, ids);
    var i :| 0 <= i < |ids| && ids[i] == r;
    assert targets[i] in targets;
    ScanReadsActive(cfg, store, n, body.topic);
    var id := TargetHasSubscription(cfg, store, body.topic, items, targets[i]);
  }

  lemma TargetHasSubscription(cfg: Settings, store: Store, topic: int, items: seq<Subscriber>, t: Target)
      returns (id: int)
    requires Subscriptions.Valid(cfg.zones, store) && t in TargetsOf(cfg, items)
    requires forall i :: 0 <= i < |items| ==>
               var id := items[i].id;
               && id in store.rows && items[i].prefs == store.rows[id].prefs
               && store.rows[id].user == items[i].user && store.rows[id].topic == topic && store.rows[id].active
    ensures Subscribes(store, id, t.user, topic, t.channel) && t.window == WindowOf(store.rows[id].prefs)
  {
    TargetsAre(cfg, items);
    var s :| 0 <= s < |items| && TargetFrom(cfg, items[s], t);
    id := items[s].id;
    assert RowOk(cfg.zones, store, store.rows[id]);
    NormalIsFixed(items[s].prefs.channels);
  }

  lemma TargetsFit(cfg: Settings, store: Store, body: Body, targets: seq<Target>, attempts: map<int, Track>)
    requires Subscriptions.Valid(cfg.zones, store) && DistinctTargets(targets)
    requires forall user, channel :: IsTarget(targets, user, channel) ==>
               exists id :: Subscribes(store, id, user, body.topic, channel)
    requires forall id :: id in attempts ==> attempts[id].row.note != body.note
    ensures CanInsert(attempts, body, targets)
  {
    forall i, j | 0 <= i < j < |targets|
      ensures AttemptKey(ToAttempt(body, targets[i])) != AttemptKey(ToAttempt(body, targets[j]))
    {
      assert !Clash(targets[i], targets[j]);
    }
    forall i | 0 <= i < |targets| ensures targets[i].channel in ALLOWED {
      assert IsTarget(targets, targets[i].user, targets[i].channel);
      var id :| Subscribes(store, id, targets[i].user, body.topic, targets[i].channel);
      assert RowOk(cfg.zones, store, store.rows[id]);
    }
  }

  lemma RowsAreTargets(body: Body, targets: seq<Target>, ids: seq<int>)
    requires DistinctTargets(targets) && |targets| == |ids| && Distinct(ids)
    ensures var rows := NewRows(body, targets, ids);
            && RowsDistinct(rows)
            && forall user, channel :: HasRow(rows, user, channel) <==> IsTarget(targets, user, channel)
  {
    var rows := NewRows(body, targets, ids);
    NewRowsAre(body, targets, ids);
    forall i, j | i in rows && j in rows && AttemptKey(rows[i]) == AttemptKey(rows[j]) ensures i == j {
      var p :| 0 <= p < |ids| && ids[p] == i;
      var q :| 0 <= q < |ids| && ids[q] == j;
      assert Clash(targets[p], targets[q]);
      assert Clash(targets[q], targets[p]);
    }
    forall user, channel ensures HasRow(rows, user, channel) <==> IsTarget(targets, user, channel) {
      if IsTarget(targets, user, channel) {
        var i :| 0 <= i < |targets| && targets[i].user == user && targets[i].channel == channel;
        assert ids[i] in rows;
      }
      if r :| r in rows && rows[r].user == user && rows[r].channel == channel {
        var i :| 0 <= i < |ids| && ids[i] == r;
        assert targets[i].user == user;
      }
    }
  }

  predicate IsTarget(targets: seq<Target>, user: int, channel: string) {
    exists i :: 0 <= i < |targets| && targets[i].user == user && targets[i].channel == channel
  }

  lemma TargetsComeFromTable(cfg: Settings, store: Store, topic: int, items: seq<Subscriber>)
    requires Subscriptions.Valid(cfg.zones, store)
    requires forall i :: 0 <= i < |items| ==>
               var id := items[i].id;
               && id in store.rows && items[i].prefs == store.rows[id].prefs
               && store.rows[id].user == items[i].user && store.rows[id].topic == topic && store.rows[id].active
    requires forall id :: id in store.rows && store.rows[id].topic == topic && store.rows[id].active ==>
               exists i :: 0 <= i < |items| && items[i].id == id && items[i].user == store.rows[id].user
    ensures forall user, channel :: IsTarget(TargetsOf(cfg, items), user, channel) <==>
              channel in cfg.channels && exists id :: Subscribes(store, id, user, topic, channel)
  {
    var targets := TargetsOf(cfg, items);
    TargetsAre(cfg, items);
    forall user, channel
      ensures IsTarget(targets, user, channel) <==>
                channel in cfg.channels && exists id :: Subscribes(store, id, user, topic, channel)
    {
      if i :| 0 <= i < |targets| && targets[i].user == user && targets[i].channel == channel {
        assert targets[i] in targets;
        var s :| 0 <= s < |items| && TargetFrom(cfg, items[s], targets[i]);
        NormalIsFixed(items[s].prefs.channels);
        assert Subscribes(store, items[s].id, user, topic, channel);
      }
      if channel in cfg.channels && exists id :: Subscribes(store, id, user, topic, channel) {
        var id :| Subscribes(store, id, user, topic, channel);
        var i :| 0 <= i < |items| && items[i].id == id && items[i].user == store.rows[id].user;
        ReadSubscriberIsTarget(cfg, store, items, i, id, channel);
      }
    }
  }
}
