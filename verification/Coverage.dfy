/** Nobody is skipped: whoever stays subscribed with a channel while a fan-out runs has an attempt on
    that channel once it commits, whatever else happens in between. */
module Coverage {
  import opened Attempts
  import opened Keyset
  import opened Channels
  import opened Subscriptions
  import opened Notifications
  import opened Delivery
  import opened DeliverySafety
  import opened DeliveryHistory
  import opened System

  predicate Subscribes(store: Store, id: int, user: int, topic: int, channel: string) {
    && id in store.rows
    && store.rows[id].user == user
    && store.rows[id].topic == topic
    && store.rows[id].active
    && channel in store.rows[id].prefs.channels
  }

  predicate HasRow(rows: map<int, Attempt>, user: int, channel: string) {
    exists r :: r in rows && rows[r].user == user && rows[r].channel == channel
  }

  /** Once the fan-out has read past the key, it has a row for it. */
  predicate Covers(f: Fanout, k: Key, channel: string) {
    f.done || (f.cursor.Some? && !Lt(f.cursor.value, k)) ==> HasRow(f.rows, k.0, channel)
  }

  lemma FetchedCovers(cfg: Settings, stream: seq<Message>, store: Store, f: Fanout, ids: seq<int>,
                      user: int, id: int, channel: string)
    requires FanoutOk(stream, store, f) && Subscriptions.Valid(cfg.zones, store) && !f.done
    requires cfg.pageLimit >= 1 && f.message.body.topic in store.topics
    requires |ids| == |TargetsOf(cfg, NextListing(cfg, store, f).items)| && Distinct(ids)
    requires forall i :: i in ids ==> i !in f.rows
    requires Subscribes(store, id, user, f.message.body.topic, channel) && channel in cfg.channels
    requires Covers(f, (user, id), channel)
    ensures Covers(Fetched(cfg, f, NextListing(cfg, store, f), ids), (user, id), channel)
  {
    var k: Key, active := (user, id), ActiveKeys(store, f.message.body.topic);
    var listing := NextListing(cfg, store, f);
    var targets := TargetsOf(cfg, listing.items);
    var rows := NewRows(f.message.body, targets, ids);
    var page := Keyset.FetchPage(active, cfg.pageLimit, f.cursor);
    PageIsGapless(active, cfg.pageLimit, f.cursor);
    NewRowIds(f.message.body, targets, ids);
    assert k in active;
    if !Follows(k, f.cursor) {
      var r :| r in f.rows && f.rows[r].user == user && f.rows[r].channel == channel;
      assert r !in rows;
      assert (f.rows + rows)[r] == f.rows[r];
    } else if k in page.items {
      var i :| 0 <= i < |page.items| && page.items[i] == k;
      ReadSubscriberHasRow(cfg, store, f.message.body, f.rows, listing.items, ids, i, id, channel);
      assert HasRow(f.rows + rows, user, channel);
    }
  }

  lemma ReadSubscriberHasRow(cfg: Settings, store: Store, body: Body, rows: map<int, Attempt>, items: seq<Subscriber>,
                             ids: seq<int>, i: nat, id: int, channel: string)
    requires i < |items| && id in store.rows && Subscriptions.Valid(cfg.zones, store)
    requires items[i].prefs == store.rows[id].prefs
    requires channel in store.rows[id].prefs.channels && channel in cfg.channels
    requires |ids| == |TargetsOf(cfg, items)| && Distinct(ids)
    ensures HasRow(rows + NewRows(body, TargetsOf(cfg, items), ids), items[i].user, channel)
  {
    var targets := TargetsOf(cfg, items);
    ReadSubscriberIsTarget(cfg, store, items, i, id, channel);
    var t :| 0 <= t < |targets| && targets[t].user == items[i].user && targets[t].channel == channel;
    NewRowsAre(body, targets, ids);
    assert (rows + NewRows(body, targets, ids))[ids[t]] == ToAttempt(body, targets[t]);
  }

  lemma ReadSubscriberIsTarget(cfg: Settings, store: Store, items: seq<Subscriber>, i: nat, id: int, channel: string)
    requires i < |items| && id in store.rows && Subscriptions.Valid(cfg.zones, store)
    requires items[i].prefs == store.rows[id].prefs
    requires channel in store.rows[id].prefs.channels && channel in cfg.channels
    ensures var targets := TargetsOf(cfg, items);
            exists t :: 0 <= t < |targets| && targets[t].user == items[i].user && targets[t].channel == channel
  {
    var target := Target(items[i].user, channel, WindowOf(items[i].prefs));
    NormalIsFixed(store.rows[id].prefs.channels);
    TargetsAre(cfg, items);
    assert TargetFrom(cfg, items[i], target);
    assert Sourced(cfg, items, target);
    assert target in TargetsOf(cfg, items);
  }

  /** A step that leaves the fan-out open keeps it covering. */
  lemma StepCovers(cfg: Settings, stream: seq<Message>, store: Store, w: World, a: Delivery.Action,
                   fanout: int, user: int, id: int, channel: string)
    requires Safe(cfg, stream, store, w) && OneEventPerNote(stream) && Subscriptions.Valid(cfg.zones, store)
    requires fanout in w.fanouts && Covers(w.fanouts[fanout], (user, id), channel)
    requires Subscribes(store, id, user, w.fanouts[fanout].message.body.topic, channel) && channel in cfg.channels
    ensures var w' := Delivery.Step(cfg, stream, store, w, a);
            fanout in w'.fanouts ==>
              w'.fanouts[fanout].message == w.fanouts[fanout].message && Covers(w'.fanouts[fanout], (user, id), channel)
  {
    if a.FetchPage? && a.fanout == fanout {
      PageCovers(cfg, stream, store, w, fanout, a.ids, user, id, channel);
    } else {
      OtherFanoutsStay(cfg, stream, store, w, a, fanout);
    }
  }

  lemma PageCovers(cfg: Settings, stream: seq<Message>, store: Store, w: World, fanout: int, ids: seq<int>,
                   user: int, id: int, channel: string)
    requires Safe(cfg, stream, store, w) && Subscriptions.Valid(cfg.zones, store)
    requires fanout in w.fanouts && Covers(w.fanouts[fanout], (user, id), channel)
    requires Subscribes(store, id, user, w.fanouts[fanout].message.body.topic, channel) && channel in cfg.channels
    ensures var w', f := FetchPageStep(cfg, store, w, fanout, ids), w.fanouts[fanout];
            && fanout in w'.fanouts && w'.fanouts[fanout].message == f.message
            && Covers(w'.fanouts[fanout], (user, id), channel)
  {
    var f, w' := w.fanouts[fanout], FetchPageStep(cfg, store, w, fanout, ids);
    PageIsDone(cfg, store, w, fanout, ids);
    if CanFetch(cfg, store, w, fanout) && FreshIds(w, ids)
       && PageThrough(cfg, NextListing(cfg, store, f), w, w', fanout, ids) {
      assert FanoutOk(stream, store, f);
      assert forall i :: i in ids ==> i !in f.rows;
      FetchedCovers(cfg, stream, store, f, ids, user, id, channel);
    }
  }

  /** In every state of the run, the fan-out is open and the subscription is active with the channel. */
  ghost predicate Throughout(cfg: Settings, y: Sys, moves: seq<Move>, fanout: int, user: int, id: int, channel: string)
    decreases |moves|
  {
    && fanout in y.delivery.fanouts
    && Subscribes(y.subscriptions, id, user, y.delivery.fanouts[fanout].message.body.topic, channel)
    && (moves != [] ==> Throughout(cfg, Next(cfg, y, moves[0]), moves[1..], fanout, user, id, channel))
  }

  lemma NextCovers(cfg: Settings, y: Sys, m: Move, fanout: int, user: int, id: int, channel: string)
    requires Reachable(cfg, y) && channel in cfg.channels
    requires fanout in y.delivery.fanouts && Covers(y.delivery.fanouts[fanout], (user, id), channel)
    requires Subscribes(y.subscriptions, id, user, y.delivery.fanouts[fanout].message.body.topic, channel)
    ensures var w' := Next(cfg, y, m).delivery;
            fanout in w'.fanouts ==>
              && w'.fanouts[fanout].message == y.delivery.fanouts[fanout].message
              && Covers(w'.fanouts[fanout], (user, id), channel)
  {
    if m.OfDelivery? {
      ReachableIsValid(cfg, y);
      MessagesAreCopies(y.notifications);
      StepCovers(cfg, y.notifications.stream, y.subscriptions, y.delivery, m.deliver, fanout, user, id, channel);
    }
  }

  lemma {:induction false} RunCovers(cfg: Settings, y: Sys, moves: seq<Move>, fanout: int, user: int, id: int,
                                     channel: string)
    requires Reachable(cfg, y) && Throughout(cfg, y, moves, fanout, user, id, channel) && channel in cfg.channels
    requires Covers(y.delivery.fanouts[fanout], (user, id), channel)
    ensures var w' := System.Run(cfg, y, moves).delivery;
            && fanout in w'.fanouts
            && w'.fanouts[fanout].message == y.delivery.fanouts[fanout].message
            && Covers(w'.fanouts[fanout], (user, id), channel)
    decreases |moves|
  {
    if moves != [] {
      NextIsReachable(cfg, y, moves[0]);
      NextCovers(cfg, y, moves[0], fanout, user, id, channel);
      RunCovers(cfg, Next(cfg, y, moves[0]), moves[1..], fanout, user, id, channel);
    }
  }

  /** Complete fan-out: when the commit comes, everyone who has been subscribed with a supported channel
      ever since the fan-out began has exactly one attempt for the notification on that channel. */
  lemma EverySubscriberIsReached(cfg: Settings, y: Sys, moves: seq<Move>, fanout: int, user: int, id: int,
                                 channel: string)
    requires Reachable(cfg, y) && Throughout(cfg, y, moves, fanout, user, id, channel) && channel in cfg.channels
    requires y.delivery.fanouts[fanout].cursor.None? && !y.delivery.fanouts[fanout].done
    requires var w := System.Run(cfg, y, moves).delivery; fanout in w.fanouts ==> w.fanouts[fanout].done
    ensures var note := y.delivery.fanouts[fanout].message.body.note;
            var w' := CommitStep(System.Run(cfg, y, moves).delivery, fanout);
            exists r :: && r in w'.tracks && AttemptKey(w'.tracks[r].row) == (note, user, channel)
                        && forall s :: s in w'.tracks && AttemptKey(w'.tracks[s].row) == (note, user, channel)
                             ==> s == r
  {
    RunCovers(cfg, y, moves, fanout, user, id, channel);
    RunIsReachable(cfg, y, moves);
    CommitReaches(cfg, System.Run(cfg, y, moves), fanout, user, channel);
  }

  lemma CommitReaches(cfg: Settings, y: Sys, fanout: int, user: int, channel: string)
    requires Reachable(cfg, y) && fanout in y.delivery.fanouts && y.delivery.fanouts[fanout].done
    requires HasRow(y.delivery.fanouts[fanout].rows, user, channel)
    ensures var key := (y.delivery.fanouts[fanout].message.body.note, user, channel);
            var tracks := CommitStep(y.delivery, fanout).tracks;
            exists r :: && r in tracks && AttemptKey(tracks[r].row) == key
                        && forall s :: s in tracks && AttemptKey(tracks[s].row) == key ==> s == r
  {
    ReachableIsValid(cfg, y);
    MessagesAreCopies(y.notifications);
    CommitKeepsSafe(cfg, y.notifications.stream, y.subscriptions, y.delivery, fanout);
    CommitMakesRowsVisible(y.notifications.stream, y.subscriptions, y.delivery, fanout, user, channel);
  }

  lemma CommitMakesRowsVisible(stream: seq<Message>, store: Store, w: World, fanout: int, user: int, channel: string)
    requires fanout in w.fanouts && w.fanouts[fanout].done && FanoutOk(stream, store, w.fanouts[fanout])
    requires HasRow(w.fanouts[fanout].rows, user, channel)
    requires OneAttemptPerKey(CommitStep(w, fanout).tracks)
    ensures var key, tracks := (w.fanouts[fanout].message.body.note, user, channel), CommitStep(w, fanout).tracks;
            exists r :: && r in tracks && AttemptKey(tracks[r].row) == key
                        && forall s :: s in tracks && AttemptKey(tracks[s].row) == key ==> s == r
  {
    var f, tracks := w.fanouts[fanout], CommitStep(w, fanout).tracks;
    var r :| r in f.rows && f.rows[r].user == user && f.rows[r].channel == channel;
    assert RowOf(f.message.body, f.seen, f.rows[r]);
    assert r in tracks && tracks[r].row == f.rows[r];
  }
}
