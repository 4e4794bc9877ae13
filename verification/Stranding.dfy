/** A run that loses an attempt: the worker runs the send job before the fan-out that enqueued it
    commits. */
module Stranding {
  import opened Options
  import opened Attempts
  import opened Keyset
  import opened Channels
  import opened Subscriptions
  import opened Notifications
  import opened Delivery
  import opened DeliverySafety
  import opened System

  /** The page of a topic with one subscriber. */
  lemma SinglePage(cfg: Settings, store: Store, topic: int, user: int, id: int)
    requires cfg.pageLimit >= 1 && topic in store.topics
    requires store.rows == map[id := Subscription(user, topic, true, 0, DEFAULTS)]
    ensures ListInternalSubscribers(store, topic, cfg.pageLimit, None)
            == Ok(Listing([Subscriber(user, id, DEFAULTS)], None))
  {
    var active := ActiveKeys(store, topic);
    assert id in store.rows && (user, id) in active;
    assert forall k :: k in active ==> k == (user, id);
    assert active == {(user, id)};
    assert Keyset.After(active, None) == active;
    SortSorts(active);
    assert Sort(active)[0] in Sort(active);
    assert Sort(active) == [(user, id)];
    var page := Keyset.FetchPage(active, cfg.pageLimit, None);
    assert page == Page([(user, id)], None);
    assert ToSubscribers(store, [(user, id)]) == [Subscriber(user, id, DEFAULTS)];
  }

  lemma DefaultTargets(cfg: Settings, user: int, id: int)
    requires "push" in cfg.channels
    ensures TargetsOf(cfg, [Subscriber(user, id, DEFAULTS)]) == [Target(user, "push", WindowOf(DEFAULTS))]
  {
    var sub := Subscriber(user, id, DEFAULTS);
    DefaultsOk(cfg.zones);
    NormalIsFixed(DEFAULTS.channels);
    assert ["push"][..0] == [];
    assert Supported(cfg, sub, ["push"]) == [] + [Target(user, "push", WindowOf(DEFAULTS))];
    assert [sub][..0] == [];
    assert TargetsOf(cfg, [sub]) == [] + TargetsFor(cfg, sub);
  }

  lemma OneSubscribed(cfg: Settings) returns (y: Sys)
    ensures Reachable(cfg, y)
    ensures y.subscriptions == Store({1}, map[10 := Subscription(5, 1, true, 0, DEFAULTS)], map[])
    ensures y.notifications == EmptyTables(0) && y.delivery == EmptyWorld(0)
  {
    y := Start(0);
    assert y == System.Run(cfg, Start(0), []);
    NextIsReachable(cfg, y, OfSubscriptions(CreateTopic(1)));
    y := Next(cfg, y, OfSubscriptions(CreateTopic(1)));
    assert OfUserAndTopic(y.subscriptions, 5, 1) == {};
    NextIsReachable(cfg, y, OfSubscriptions(Insert(10, 5, 1, 0)));
    y := Next(cfg, y, OfSubscriptions(Insert(10, 5, 1, 0)));
  }

  /** One subscriber, one published notification. */
  lemma OnePublished(cfg: Settings) returns (y: Sys)
    ensures Reachable(cfg, y)
    ensures y.subscriptions == Store({1}, map[10 := Subscription(5, 1, true, 0, DEFAULTS)], map[])
    ensures y.notifications.stream == [Message(2, Content())]
    ensures y.delivery == EmptyWorld(0)
  {
    y := OneSubscribed(cfg);
    PublishedTables();
    NextIsReachable(cfg, y, OfNotifications(CheckKey(0, Request(5, 1, "hello", None, None))));
    y := Next(cfg, y, OfNotifications(CheckKey(0, Request(5, 1, "hello", None, None))));
    NextIsReachable(cfg, y, OfNotifications(InsertNote(0, 1, 2)));
    y := Next(cfg, y, OfNotifications(InsertNote(0, 1, 2)));
    NextIsReachable(cfg, y, OfNotifications(BatchLock(0, [2])));
    y := Next(cfg, y, OfNotifications(BatchLock(0, [2])));
    NextIsReachable(cfg, y, OfNotifications(Publish(0, Acked)));
    y := Next(cfg, y, OfNotifications(Publish(0, Acked)));
  }

  lemma PublishedTables()
    ensures var checked := CheckKeyStep(EmptyTables(0), 0, Request(5, 1, "hello", None, None));
            PublishStep(BatchLockStep(InsertNoteStep(checked, 0, 1, 2), 0, [2]), 0, Acked).stream
              == [Message(2, Content())]
  {
    var s0 := EmptyTables(0);
    var s1 := CheckKeyStep(s0, 0, Request(5, 1, "hello", None, None));
    var s2 := InsertNoteStep(s1, 0, 1, 2);
    assert s2.outbox == map[2 := OutboxRow(Body(1, 1, 5, "hello", None, 0), 0, false, 0, None)];
    assert HeldRows(s2.batches) == {};
    var s3 := BatchLockStep(s2, 0, [2]);
    assert s3.batches == map[0 := Batch([2], map[])];
    var s4 := PublishStep(s3, 0, Acked);
    assert s4.stream == [] + [Message(2, Body(1, 1, 5, "hello", None, 0))];
  }

  ghost function Content(): Body {
    Body(1, 1, 5, "hello", None, 0)
  }

  ghost function Row(): Attempt {
    NewAttempt(1, 5, "push", "hello", WindowOf(DEFAULTS))
  }

  ghost function Opened(): Fanout {
    Fanout(0, Message(2, Content()), [], None, false, false, map[])
  }

  lemma OnlyRow()
    ensures var targets := [Target(5, "push", WindowOf(DEFAULTS))];
            && ToAttempts(Content(), targets) == [Row()]
            && NewRows(Content(), targets, [7]) == map[7 := Row()]
            && SendJobs([7], 0) == multiset{SendJob(7, 0)}
  {
    var targets := [Target(5, "push", WindowOf(DEFAULTS))];
    assert targets[..0] == [] && [7][..0] == [];
    assert seq(1, i requires 0 <= i < 1 => SendJob([7][i], 0)) == [SendJob(7, 0)];
  }

  lemma OnlyFetched(cfg: Settings, listing: Listing)
    requires listing == Listing([Subscriber(5, 10, DEFAULTS)], None) && "push" in cfg.channels
    ensures |TargetsOf(cfg, listing.items)| == 1
    ensures Fetched(cfg, Opened(), listing, [7]) == Opened().(seen := [(5, 10)], done := true, rows := map[7 := Row()])
  {
    DefaultTargets(cfg, 5, 10);
    OnlyRow();
    assert KeysOf(listing.items) == [(5, 10)];
    assert map[] + map[7 := Row()] == map[7 := Row()];
    assert [] + [(5, 10)] == [(5, 10)];
  }

  lemma OnlyRowIsFree(cfg: Settings, w: World)
    requires "push" in cfg.channels && w.tracks == map[] && w.fanouts == map[0 := Opened()]
    ensures Insertable(w, ToAttempts(Content(), TargetsOf(cfg, [Subscriber(5, 10, DEFAULTS)])))
  {
    DefaultTargets(cfg, 5, 10);
    OnlyRow();
  }

  lemma OnlyPage(cfg: Settings, store: Store, w: World)
    requires cfg.pageLimit >= 1 && "push" in cfg.channels
    requires store == Store({1}, map[10 := Subscription(5, 1, true, 0, DEFAULTS)], map[])
    requires w == EmptyWorld(0).(fanouts := map[0 := Opened()])
    ensures FetchPageStep(cfg, store, w, 0, [7])
         == w.(fanouts := map[0 := Opened().(seen := [(5, 10)], done := true, rows := map[7 := Row()])],
               jobs := multiset{SendJob(7, 0)}, drawn := {7})
  {
    var listing := Listing([Subscriber(5, 10, DEFAULTS)], None);
    OnlyFetched(cfg, listing);
    assert NextListing(cfg, store, Opened()) == listing by {
      SinglePage(cfg, store, 1, 5, 10);
    }
    assert Insertable(w, ToAttempts(Content(), TargetsOf(cfg, listing.items))) by {
      OnlyRowIsFree(cfg, w);
    }
    FetchPageIs(cfg, store, w, 0, [7], listing);
    assert w.jobs + SendJobs([7], 0) == multiset{SendJob(7, 0)} by {
      OnlyRow();
    }
    assert w.drawn + (set id | id in [7]) == {7};
  }

  lemma EarlyJobThenCommit(cfg: Settings, w: World)
    requires w == EmptyWorld(0).(
      fanouts := map[0 := Opened().(seen := [(5, 10)], done := true, rows := map[7 := Row()])],
      jobs := multiset{SendJob(7, 0)}, drawn := {7})
    ensures var w' := CommitStep(WorkStep(cfg, w, SendJob(7, 0), Attempts.Accepted, 0, 0), 0);
            7 in w'.tracks && w'.tracks[7].row.status.Pending? && !HasAnyJob(w'.jobs, 7)
  {
    var w1 := WorkStep(cfg, w, SendJob(7, 0), Attempts.Accepted, 0, 0);
    assert w1.jobs == multiset{};
  }

  lemma OneBegun(cfg: Settings) returns (y: Sys)
    ensures Reachable(cfg, y)
    ensures y.subscriptions == Store({1}, map[10 := Subscription(5, 1, true, 0, DEFAULTS)], map[])
    ensures y.delivery == EmptyWorld(0).(fanouts := map[0 := Opened()])
  {
    y := OnePublished(cfg);
    NextIsReachable(cfg, y, OfDelivery(Begin(0, 0)));
    y := Next(cfg, y, OfDelivery(Begin(0, 0)));
  }

  lemma OneFetched(cfg: Settings) returns (y: Sys)
    requires "push" in cfg.channels && cfg.pageLimit >= 1
    ensures Reachable(cfg, y)
    ensures y.delivery == EmptyWorld(0).(
      fanouts := map[0 := Opened().(seen := [(5, 10)], done := true, rows := map[7 := Row()])],
      jobs := multiset{SendJob(7, 0)}, drawn := {7})
  {
    var y0 := OneBegun(cfg);
    y := FetchIsReachable(cfg, y0);
    OnlyPage(cfg, y0.subscriptions, y0.delivery);
  }

  lemma FetchIsReachable(cfg: Settings, y0: Sys) returns (y: Sys)
    requires Reachable(cfg, y0)
    ensures Reachable(cfg, y) && y.delivery == FetchPageStep(cfg, y0.subscriptions, y0.delivery, 0, [7])
  {
    NextIsReachable(cfg, y0, OfDelivery(Delivery.FetchPage(0, [7])));
    y := Next(cfg, y0, OfDelivery(Delivery.FetchPage(0, [7])));
  }

  /** Begin, the only page, the job, the commit: the attempt is pending and nothing will ever send it. */
  lemma AttemptsCanBeStranded(cfg: Settings) returns (y: Sys, id: int)
    requires "push" in cfg.channels && cfg.pageLimit >= 1
    ensures Reachable(cfg, y) && id in y.delivery.tracks
    ensures y.delivery.tracks[id].row.status.Pending? && !HasAnyJob(y.delivery.jobs, id)
  {
    y := OneFetched(cfg);
    id := 7;
    EarlyJobThenCommit(cfg, y.delivery);
    NextIsReachable(cfg, y, OfDelivery(Work(SendJob(7, 0), Attempts.Accepted, 0, 0)));
    y := Next(cfg, y, OfDelivery(Work(SendJob(7, 0), Attempts.Accepted, 0, 0)));
    NextIsReachable(cfg, y, OfDelivery(Commit(0)));
    y := Next(cfg, y, OfDelivery(Commit(0)));
  }
}
