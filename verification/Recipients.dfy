/** Nobody is reached by mistake: behind every attempt there is a moment, between the begin and the commit
    of its fan-out, at which its user had an active subscription of the topic with its channel and its
    quiet hours. */
module Recipients {
  import opened Attempts
  import opened Keyset
  import opened Channels
  import opened Subscriptions
  import opened Notifications
  import opened Delivery
  import opened DeliverySafety
  import opened DeliveryHistory
  import opened System
  import opened Coverage

  /** The states of a run from empty tables, one more than its moves. */
  ghost predicate IsRun(cfg: Settings, ys: seq<Sys>, moves: seq<Move>) {
    && |ys| == |moves| + 1
    && (exists clock :: ys[0] == Start(clock))
    && forall i :: 0 <= i < |moves| ==> ys[i + 1] == Next(cfg, ys[i], moves[i])
  }

  /** The fan-out is open, and the attempt is what it would make of a subscription as it is now. */
  ghost predicate Reads(y: Sys, fanout: int, a: Attempt) {
    && fanout in y.delivery.fanouts
    && y.delivery.fanouts[fanout].message.body.note == a.note
    && exists sub :: IsMadeFrom(y.subscriptions, sub, y.delivery.fanouts[fanout].message.body.topic, a)
  }

  predicate IsMadeFrom(store: Store, sub: int, topic: int, a: Attempt) {
    Subscribes(store, sub, a.user, topic, a.channel) && a.window == WindowOf(store.rows[sub].prefs)
  }

  /** The fan-out is open and has inserted the attempt. */
  predicate Holds(y: Sys, fanout: int, id: int, a: Attempt) {
    fanout in y.delivery.fanouts && id in y.delivery.fanouts[fanout].rows && y.delivery.fanouts[fanout].rows[id] == a
  }

  /** The fan-out read the attempt's subscription in state k and has held its row ever since. */
  ghost predicate ReadAt(ys: seq<Sys>, k: nat, fanout: int, id: int, a: Attempt) {
    && k + 1 < |ys|
    && Reads(ys[k], fanout, a)
    && forall j :: k < j < |ys| ==> Holds(ys[j], fanout, id, a)
  }

  /** Read in state k, held until state c, committed by the move from there. */
  ghost predicate Origin(ys: seq<Sys>, moves: seq<Move>, id: int, k: nat, c: nat, fanout: int, a: Attempt)
    requires |ys| == |moves| + 1
  {
    && k < c < |moves|
    && ReadAt(ys[..c + 1], k, fanout, id, a)
    && moves[c] == OfDelivery(Commit(fanout))
    && id !in ys[c].delivery.tracks
    && id in ys[c + 1].delivery.tracks && ys[c + 1].delivery.tracks[id].row == a
  }

  lemma {:induction false} StatesAreReachable(cfg: Settings, ys: seq<Sys>, moves: seq<Move>, i: nat)
    requires IsRun(cfg, ys, moves) && i < |ys|
    ensures Reachable(cfg, ys[i])
    decreases i
  {
    if i == 0 {
      var clock :| ys[0] == Start(clock);
      assert ys[0] == System.Run(cfg, Start(clock), []);
    } else {
      StatesAreReachable(cfg, ys, moves, i - 1);
      NextIsReachable(cfg, ys[i - 1], moves[i - 1]);
    }
  }

  lemma RunPrefix(cfg: Settings, ys: seq<Sys>, moves: seq<Move>)
    requires IsRun(cfg, ys, moves) && moves != []
    ensures IsRun(cfg, ys[..|moves|], moves[..|moves| - 1])
  {
    assert ys[..|moves|][0] == ys[0];
  }

  /* ---------- Where rows come from ---------- */

  /** Every target of a page is made from a subscription that the page has read. */
  lemma TargetIsMadeFrom(cfg: Settings, stream: seq<Message>, store: Store, f: Fanout, t: Target)
    requires Subscriptions.Valid(cfg.zones, store) && FanoutOk(stream, store, f)
    requires cfg.pageLimit >= 1 && f.message.body.topic in store.topics
    requires t in TargetsOf(cfg, NextListing(cfg, store, f).items)
    ensures exists sub :: IsMadeFrom(store, sub, f.message.body.topic, ToAttempt(f.message.body, t))
  {
    var items, topic := NextListing(cfg, store, f).items, f.message.body.topic;
    TargetsAre(cfg, items);
    var s :| 0 <= s < |items| && TargetFrom(cfg, items[s], t);
    ListedIsActive(cfg, stream, store, f, s);
    assert IsMadeFrom(store, items[s].id, topic, ToAttempt(f.message.body, t));
  }

  lemma ListedIsActive(cfg: Settings, stream: seq<Message>, store: Store, f: Fanout, s: nat)
    requires Subscriptions.Valid(cfg.zones, store) && FanoutOk(stream, store, f)
    requires cfg.pageLimit >= 1 && f.message.body.topic in store.topics
    requires s < |NextListing(cfg, store, f).items|
    ensures var item := NextListing(cfg, store, f).items[s];
            && Normalize(item.prefs.channels) == item.prefs.channels
            && item.id in store.rows && item.prefs == store.rows[item.id].prefs
            && forall c :: c in item.prefs.channels ==> Subscribes(store, item.id, item.user, f.message.body.topic, c)
  {
    var active := ActiveKeys(store, f.message.body.topic);
    var page, item := Keyset.FetchPage(active, cfg.pageLimit, f.cursor), NextListing(cfg, store, f).items[s];
    PageItems(cfg, stream, store, f);
    PageIsGapless(active, cfg.pageLimit, f.cursor);
    assert KeyOf(item) == page.items[s] && page.items[s] in page.items;
    var id :| id in store.rows && store.rows[id].topic == f.message.body.topic && store.rows[id].active
              && (store.rows[id].user, id) == page.items[s];
    assert RowOk(cfg.zones, store, store.rows[id]);
    NormalIsFixed(item.prefs.channels);
  }

  lemma FetchedRowWasRead(cfg: Settings, stream: seq<Message>, store: Store, w: World, fanout: int, ids: seq<int>,
                          id: int)
    requires Safe(cfg, stream, store, w) && Subscriptions.Valid(cfg.zones, store)
    requires fanout in w.fanouts && id in FetchPageStep(cfg, store, w, fanout, ids).fanouts[fanout].rows
    ensures var f, a := w.fanouts[fanout], FetchPageStep(cfg, store, w, fanout, ids).fanouts[fanout].rows[id];
            || (id in f.rows && f.rows[id] == a)
            || (a.note == f.message.body.note && exists sub :: IsMadeFrom(store, sub, f.message.body.topic, a))
  {
    var f, w' := w.fanouts[fanout], FetchPageStep(cfg, store, w, fanout, ids);
    PageIsDone(cfg, store, w, fanout, ids);
    if CanFetch(cfg, store, w, fanout) && FreshIds(w, ids)
       && PageThrough(cfg, NextListing(cfg, store, f), w, w', fanout, ids) {
      assert FanoutOk(stream, store, f);
      NewRowWasRead(cfg, stream, store, f, ids, id);
    }
  }

  lemma NewRowWasRead(cfg: Settings, stream: seq<Message>, store: Store, f: Fanout, ids: seq<int>, id: int)
    requires FanoutOk(stream, store, f) && Subscriptions.Valid(cfg.zones, store) && Distinct(ids)
    requires cfg.pageLimit >= 1 && f.message.body.topic in store.topics
    requires |ids| == |TargetsOf(cfg, NextListing(cfg, store, f).items)|
    requires id in Fetched(cfg, f, NextListing(cfg, store, f), ids).rows
    ensures var a := Fetched(cfg, f, NextListing(cfg, store, f), ids).rows[id];
            || (id in f.rows && f.rows[id] == a)
            || (a.note == f.message.body.note && exists sub :: IsMadeFrom(store, sub, f.message.body.topic, a))
  {
    var targets := TargetsOf(cfg, NextListing(cfg, store, f).items);
    NewRowsAre(f.message.body, targets, ids);
    if id in NewRows(f.message.body, targets, ids) {
      var i :| 0 <= i < |ids| && ids[i] == id;
      assert targets[i] in targets;
      TargetIsMadeFrom(cfg, stream, store, f, targets[i]);
    }
  }

  lemma FetchedFanoutWasOpen(cfg: Settings, store: Store, w: World, fanout: int, ids: seq<int>)
    requires fanout in FetchPageStep(cfg, store, w, fanout, ids).fanouts
    ensures fanout in w.fanouts
  {
  }

  lemma PageWasRead(cfg: Settings, y: Sys, fanout: int, ids: seq<int>, id: int)
    requires Reachable(cfg, y) && fanout in y.delivery.fanouts
    requires id in FetchPageStep(cfg, y.subscriptions, y.delivery, fanout, ids).fanouts[fanout].rows
    ensures var a := FetchPageStep(cfg, y.subscriptions, y.delivery, fanout, ids).fanouts[fanout].rows[id];
            Holds(y, fanout, id, a) || Reads(y, fanout, a)
  {
    ReachableIsValid(cfg, y);
    FetchedRowWasRead(cfg, y.notifications.stream, y.subscriptions, y.delivery, fanout, ids, id);
  }

  /** A row of an open fan-out was there before the move, or the move has just read it. */
  lemma RowsComeFrom(cfg: Settings, y: Sys, m: Move, fanout: int, id: int)
    requires Reachable(cfg, y)
    requires fanout in Next(cfg, y, m).delivery.fanouts && id in Next(cfg, y, m).delivery.fanouts[fanout].rows
    ensures var a := Next(cfg, y, m).delivery.fanouts[fanout].rows[id]; Holds(y, fanout, id, a) || Reads(y, fanout, a)
  {
    if m.OfDelivery? && m.deliver.FetchPage? && m.deliver.fanout == fanout {
      FetchedFanoutWasOpen(cfg, y.subscriptions, y.delivery, fanout, m.deliver.ids);
      PageWasRead(cfg, y, fanout, m.deliver.ids, id);
    } else if m.OfDelivery? {
      OtherFanoutsStay(cfg, y.notifications.stream, y.subscriptions, y.delivery, m.deliver, fanout);
    }
  }

  /** A new attempt was a row of the fan-out that the move commits. */
  lemma TracksComeFrom(cfg: Settings, y: Sys, m: Move, id: int)
    requires Reachable(cfg, y) && id in Next(cfg, y, m).delivery.tracks && id !in y.delivery.tracks
    ensures m.OfDelivery? && m.deliver.Commit?
    ensures Holds(y, m.deliver.fanout, id, Next(cfg, y, m).delivery.tracks[id].row)
  {
    if m.OfDelivery? && !m.deliver.Commit? && !m.deliver.Work? && !m.deliver.Raise? {
      OthersMoveNothing(cfg, y.notifications.stream, y.subscriptions, y.delivery, m.deliver);
    }
  }

  /* ---------- Over a run ---------- */

  lemma {:induction false} HeldRowsWereRead(cfg: Settings, ys: seq<Sys>, moves: seq<Move>, fanout: int, id: int,
                                            a: Attempt)
    requires IsRun(cfg, ys, moves) && Holds(ys[|moves|], fanout, id, a)
    ensures exists k: nat :: ReadAt(ys, k, fanout, id, a)
    decreases |moves|
  {
    var n := |moves|;
    if n > 0 {
      var before := ys[..n];
      RunPrefix(cfg, ys, moves);
      StatesAreReachable(cfg, ys, moves, n - 1);
      assert before[n - 1] == ys[n - 1] && ys[n] == Next(cfg, ys[n - 1], moves[n - 1]);
      RowsComeFrom(cfg, ys[n - 1], moves[n - 1], fanout, id);
      if Holds(ys[n - 1], fanout, id, a) {
        HeldRowsWereRead(cfg, before, moves[..n - 1], fanout, id, a);
        var k: nat :| ReadAt(before, k, fanout, id, a);
        forall j | k < j < |ys| ensures Holds(ys[j], fanout, id, a) {
          assert j < n ==> before[j] == ys[j];
        }
        assert before[k] == ys[k];
        assert ReadAt(ys, k, fanout, id, a);
      } else {
        assert ReadAt(ys, n - 1, fanout, id, a);
      }
    }
  }

  /** Sound fan-out: over every run, each attempt was made from a subscription that was active, on that
      channel and with those quiet hours, in some state between the begin and the commit of its fan-out. */
  lemma {:induction false} EveryAttemptWasRead(cfg: Settings, ys: seq<Sys>, moves: seq<Move>, id: int)
      returns (k: nat, c: nat, fanout: int, a: Attempt)
    requires IsRun(cfg, ys, moves) && id in ys[|moves|].delivery.tracks
    ensures Origin(ys, moves, id, k, c, fanout, a)
    ensures var row := ys[|moves|].delivery.tracks[id].row; AttemptKey(a) == AttemptKey(row) && a.window == row.window
    decreases |moves|, 1
  {
    NoTracksAtStart(cfg, ys, moves);
    if id in ys[|moves| - 1].delivery.tracks {
      k, c, fanout, a := OldTrackOrigin(cfg, ys, moves, id);
    } else {
      c := |moves| - 1;
      k, fanout, a := NewTrackOrigin(cfg, ys, moves, id);
    }
  }

  lemma {:induction false} OldTrackOrigin(cfg: Settings, ys: seq<Sys>, moves: seq<Move>, id: int)
      returns (k: nat, c: nat, fanout: int, a: Attempt)
    requires IsRun(cfg, ys, moves) && moves != [] && id in ys[|moves| - 1].delivery.tracks
    ensures Origin(ys, moves, id, k, c, fanout, a)
    ensures id in ys[|moves|].delivery.tracks
    ensures var row := ys[|moves|].delivery.tracks[id].row; AttemptKey(a) == AttemptKey(row) && a.window == row.window
    decreases |moves|, 0
  {
    var n := |moves|;
    var before := ys[..n];
    RunPrefix(cfg, ys, moves);
    assert before[n - 1] == ys[n - 1];
    k, c, fanout, a := EveryAttemptWasRead(cfg, before, moves[..n - 1], id);
    OriginStays(ys, moves, id, k, c, fanout, a);
    LastMoveKeepsIdentity(cfg, ys, moves, id);
  }

  lemma LastMoveKeepsIdentity(cfg: Settings, ys: seq<Sys>, moves: seq<Move>, id: int)
    requires IsRun(cfg, ys, moves) && moves != [] && id in ys[|moves| - 1].delivery.tracks
    ensures var before, after := ys[|moves| - 1].delivery.tracks, ys[|moves|].delivery.tracks;
            && id in after && AttemptKey(after[id].row) == AttemptKey(before[id].row)
            && after[id].row.window == before[id].row.window
  {
    var n := |moves|;
    StatesAreReachable(cfg, ys, moves, n - 1);
    assert ys[n] == Next(cfg, ys[n - 1], moves[n - 1]);
    TrackKeepsIdentity(cfg, ys[n - 1], moves[n - 1], id);
  }

  lemma NoTracksAtStart(cfg: Settings, ys: seq<Sys>, moves: seq<Move>)
    requires IsRun(cfg, ys, moves)
    ensures ys[|moves|].delivery.tracks != map[] ==> moves != []
  {
  }

  lemma NewTrackOrigin(cfg: Settings, ys: seq<Sys>, moves: seq<Move>, id: int) returns (k: nat, fanout: int, a: Attempt)
    requires IsRun(cfg, ys, moves) && moves != []
    requires id in ys[|moves|].delivery.tracks && id !in ys[|moves| - 1].delivery.tracks
    ensures Origin(ys, moves, id, k, |moves| - 1, fanout, a) && a == ys[|moves|].delivery.tracks[id].row
  {
    var n := |moves|;
    var before := ys[..n];
    RunPrefix(cfg, ys, moves);
    StatesAreReachable(cfg, ys, moves, n - 1);
    assert before[n - 1] == ys[n - 1] && ys[n] == Next(cfg, ys[n - 1], moves[n - 1]);
    TracksComeFrom(cfg, ys[n - 1], moves[n - 1], id);
    fanout, a := moves[n - 1].deliver.fanout, ys[n].delivery.tracks[id].row;
    HeldRowsWereRead(cfg, before, moves[..n - 1], fanout, id, a);
    k :| ReadAt(before, k, fanout, id, a);
    assert ys[..n - 1 + 1] == before;
  }

  lemma OriginStays(ys: seq<Sys>, moves: seq<Move>, id: int, k: nat, c: nat, fanout: int, a: Attempt)
    requires |ys| == |moves| + 1 && moves != []
    requires Origin(ys[..|moves|], moves[..|moves| - 1], id, k, c, fanout, a)
    ensures Origin(ys, moves, id, k, c, fanout, a)
  {
    assert ys[..|moves|][..c + 1] == ys[..c + 1];
  }

  lemma TrackKeepsIdentity(cfg: Settings, y: Sys, m: Move, id: int)
    requires Reachable(cfg, y) && id in y.delivery.tracks
    ensures var tracks' := Next(cfg, y, m).delivery.tracks;
            && id in tracks'
            && AttemptKey(tracks'[id].row) == AttemptKey(y.delivery.tracks[id].row)
            && tracks'[id].row.window == y.delivery.tracks[id].row.window
  {
    ReachableIsValid(cfg, y);
    if m.OfDelivery? {
      StepExtends(cfg, y.notifications.stream, y.subscriptions, y.delivery, m.deliver);
      assert TrackGrows(y.delivery.tracks[id], Next(cfg, y, m).delivery.tracks[id]);
    }
  }

  /* ---------- Whoever has an attempt has subscribed ---------- */

  lemma {:induction false} StatesOf(cfg: Settings, clock: int, moves: seq<Move>) returns (ys: seq<Sys>)
    ensures IsRun(cfg, ys, moves) && ys[|moves|] == System.Run(cfg, Start(clock), moves)
    decreases |moves|
  {
    if moves == [] {
      ys := [Start(clock)];
    } else {
      var n := |moves| - 1;
      var before := StatesOf(cfg, clock, moves[..n]);
      ys := before + [Next(cfg, before[n], moves[n])];
      assert moves[..n] + [moves[n]] == moves;
      RunSplits(cfg, Start(clock), moves[..n], moves[n]);
      assert ys[0] == before[0];
    }
  }

  lemma {:induction false} StatesExtend(cfg: Settings, ys: seq<Sys>, moves: seq<Move>, k: nat)
    requires IsRun(cfg, ys, moves) && k < |ys|
    ensures System.Extends(ys[k], ys[|moves|])
    decreases |moves|
  {
    if k == |moves| {
      ExtendsIsReflexive(ys[k]);
    } else {
      var n := |moves|;
      RunPrefix(cfg, ys, moves);
      StatesExtend(cfg, ys[..n], moves[..n - 1], k);
      StatesAreReachable(cfg, ys, moves, n - 1);
      StatesAreReachable(cfg, ys, moves, k);
      ExtendsToNext(cfg, ys[k], ys[n - 1], moves[n - 1]);
    }
  }

  lemma ExtendsToNext(cfg: Settings, y0: Sys, y1: Sys, m: Move)
    requires Reachable(cfg, y0) && Reachable(cfg, y1) && System.Extends(y0, y1)
    ensures System.Extends(y0, Next(cfg, y1, m))
  {
    ReachableIsValid(cfg, y0);
    ReachableIsValid(cfg, y1);
    NextKeepsValid(cfg, y1, m);
    ExtendsIsTransitive(y0, y1, Next(cfg, y1, m));
  }

  /** In every reachable state, whoever has an attempt for a notification has a subscription to its topic. */
  lemma OnlySubscribersAreReached(cfg: Settings, y: Sys, id: int)
    requires Reachable(cfg, y) && id in y.delivery.tracks
    ensures var a, notes, rows := y.delivery.tracks[id].row, y.notifications.notes, y.subscriptions.rows;
            && a.note in notes
            && exists sub :: sub in rows && rows[sub].user == a.user && rows[sub].topic == notes[a.note].topic
  {
    var clock, moves :| y == System.Run(cfg, Start(clock), moves);
    var ys := StatesOf(cfg, clock, moves);
    var k, c, fanout, a := EveryAttemptWasRead(cfg, ys, moves, id);
    assert ys[..c + 1][k] == ys[k];
    StatesAreReachable(cfg, ys, moves, k);
    StatesExtend(cfg, ys, moves, k);
    ReadSubscriptionStays(cfg, ys[k], y, fanout, a);
  }

  lemma ReadSubscriptionStays(cfg: Settings, y: Sys, y': Sys, fanout: int, a: Attempt)
    requires Reachable(cfg, y) && Reads(y, fanout, a) && System.Extends(y, y')
    ensures var notes, rows := y'.notifications.notes, y'.subscriptions.rows;
            && a.note in notes
            && exists sub :: sub in rows && rows[sub].user == a.user && rows[sub].topic == notes[a.note].topic
  {
    ReachableIsValid(cfg, y);
    var f, s := y.delivery.fanouts[fanout], y.notifications;
    assert FanoutOk(s.stream, y.subscriptions, f);
    assert Outbox.EventMatches(s.notes, s.outbox[s.stream[f.index].event]);
    assert Outbox.MayBecome(s.notes[a.note], y'.notifications.notes[a.note]);
    var sub :| IsMadeFrom(y.subscriptions, sub, f.message.body.topic, a);
    assert sub in y.subscriptions.rows && sub in y'.subscriptions.rows;
  }
}
