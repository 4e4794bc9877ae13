/** The three services together: every interleaving of their steps, from empty tables on. The stream
    connects the notifications service to the delivery service, the subscriptions table is what the
    fan-out reads. */
module System {
  import opened Options
  import opened Attempts
  import opened Subscriptions
  import opened Notifications
  import opened Delivery
  import opened DeliverySafety
  import opened DeliveryHistory
  import opened DeliveryCounters
  import Outbox

  datatype Sys = Sys(notifications: Tables, subscriptions: Store, delivery: World)

  datatype Move =
    | OfNotifications(notify: Notifications.Action)
    | OfSubscriptions(subscribe: Subscriptions.Action)
    | OfDelivery(deliver: Delivery.Action)

  function Start(clock: int): Sys {
    Sys(EmptyTables(clock), EMPTY, EmptyWorld(clock))
  }

  ghost function Next(cfg: Settings, y: Sys, m: Move): Sys {
    match m
    case OfNotifications(a) => y.(notifications := Notifications.Step(y.notifications, a))
    case OfSubscriptions(a) => y.(subscriptions := Subscriptions.Step(cfg.zones, y.subscriptions, a))
    case OfDelivery(a) =>
      y.(delivery := Delivery.Step(cfg, y.notifications.stream, y.subscriptions, y.delivery, a))
  }

  ghost function Run(cfg: Settings, y: Sys, moves: seq<Move>): Sys
    decreases |moves|
  {
    if moves == [] then y else Run(cfg, Next(cfg, y, moves[0]), moves[1..])
  }

  ghost predicate Valid(cfg: Settings, y: Sys) {
    && Outbox.Valid(y.notifications)
    && Subscriptions.Valid(cfg.zones, y.subscriptions)
    && Safe(cfg, y.notifications.stream, y.subscriptions, y.delivery)
    && Counted(y.delivery.tracks, y.delivery.counters, y.delivery.uncreated)
  }

  ghost predicate Extends(y: Sys, y': Sys) {
    && Outbox.Extends(y.notifications, y'.notifications)
    && Subscriptions.Extends(y.subscriptions, y'.subscriptions)
    && WorldExtends(y.delivery, y'.delivery)
  }

  /** Because a notification has one event, all its messages are copies of each other. */
  lemma MessagesAreCopies(s: Tables)
    requires Outbox.Valid(s)
    ensures OneEventPerNote(s.stream)
  {
    forall i, j | 0 <= i < |s.stream| && 0 <= j < |s.stream| && s.stream[i].body.note == s.stream[j].body.note
      ensures s.stream[i] == s.stream[j]
    {
      var e, f, n := s.stream[i].event, s.stream[j].event, s.stream[i].body.note;
      assert Outbox.EventMatches(s.notes, s.outbox[e]);
      var events := Outbox.EventsOf(s.outbox, n);
      assert |events| == 1 && e in events && f in events;
      if e != f {
        assert {e, f} <= events;
        SubsetIsSmaller({e, f}, events);
      }
    }
  }

  lemma StartIsValid(cfg: Settings, clock: int)
    ensures Valid(cfg, Start(clock))
  {
  }

  lemma NotificationsKeepValid(cfg: Settings, y: Sys, a: Notifications.Action)
    requires Valid(cfg, y)
    ensures Valid(cfg, Next(cfg, y, OfNotifications(a)))
    ensures Outbox.Extends(y.notifications, Next(cfg, y, OfNotifications(a)).notifications)
  {
    var s' := Notifications.Step(y.notifications, a);
    Outbox.StepKeepsValid(y.notifications, a);
    assert Safe(cfg, s'.stream, y.subscriptions, y.delivery) by {
      SurroundingsMayGrow(cfg, y.notifications.stream, s'.stream, y.subscriptions, y.subscriptions, y.delivery);
    }
  }

  lemma SubscriptionsKeepValid(cfg: Settings, y: Sys, a: Subscriptions.Action)
    requires Valid(cfg, y)
    ensures Valid(cfg, Next(cfg, y, OfSubscriptions(a)))
    ensures Subscriptions.Extends(y.subscriptions, Next(cfg, y, OfSubscriptions(a)).subscriptions)
  {
    var store' := Subscriptions.Step(cfg.zones, y.subscriptions, a);
    Subscriptions.StepKeepsValid(cfg.zones, y.subscriptions, a);
    assert Safe(cfg, y.notifications.stream, store', y.delivery) by {
      SurroundingsMayGrow(cfg, y.notifications.stream, y.notifications.stream, y.subscriptions, store', y.delivery);
    }
  }

  lemma DeliveryKeepsValid(cfg: Settings, y: Sys, a: Delivery.Action)
    requires Valid(cfg, y)
    ensures Valid(cfg, Next(cfg, y, OfDelivery(a)))
    ensures WorldExtends(y.delivery, Next(cfg, y, OfDelivery(a)).delivery)
  {
    var stream, store, w := y.notifications.stream, y.subscriptions, y.delivery;
    assert OneEventPerNote(stream) by {
      MessagesAreCopies(y.notifications);
    }
    StepKeepsSafe(cfg, stream, store, w, a);
    StepKeepsCounted(cfg, stream, store, w, a);
    StepExtends(cfg, stream, store, w, a);
  }

  lemma NextKeepsValid(cfg: Settings, y: Sys, m: Move)
    requires Valid(cfg, y)
    ensures Valid(cfg, Next(cfg, y, m)) && Extends(y, Next(cfg, y, m))
  {
    ExtendsIsReflexive(y);
    match m
    case OfNotifications(a) => NotificationsKeepValid(cfg, y, a);
    case OfSubscriptions(a) => SubscriptionsKeepValid(cfg, y, a);
    case OfDelivery(a) => DeliveryKeepsValid(cfg, y, a);
  }

  lemma ExtendsIsReflexive(y: Sys)
    ensures Extends(y, y)
  {
  }

  lemma ExtendsIsTransitive(y0: Sys, y1: Sys, y2: Sys)
    requires Extends(y0, y1) && Extends(y1, y2) && y0.delivery.stranded <= y0.delivery.tracks.Keys
    ensures Extends(y0, y2)
  {
    Outbox.ExtendsIsTransitive(y0.notifications, y1.notifications, y2.notifications);
    WorldExtendsIsTransitive(y0.delivery, y1.delivery, y2.delivery);
  }

  lemma {:induction false} RunKeepsValid(cfg: Settings, y: Sys, moves: seq<Move>)
    requires Valid(cfg, y)
    ensures Valid(cfg, Run(cfg, y, moves)) && Extends(y, Run(cfg, y, moves))
    decreases |moves|
  {
    if moves == [] {
      ExtendsIsReflexive(y);
    } else {
      NextKeepsValid(cfg, y, moves[0]);
      RunKeepsValid(cfg, Next(cfg, y, moves[0]), moves[1..]);
      ExtendsIsTransitive(y, Next(cfg, y, moves[0]), Run(cfg, y, moves));
    }
  }

  /** Every state that the system can reach. */
  ghost predicate Reachable(cfg: Settings, y: Sys) {
    exists clock, moves :: y == Run(cfg, Start(clock), moves)
  }

  lemma ReachableIsValid(cfg: Settings, y: Sys)
    requires Reachable(cfg, y)
    ensures Valid(cfg, y)
  {
    var clock, moves :| y == Run(cfg, Start(clock), moves);
    StartIsValid(cfg, clock);
    RunKeepsValid(cfg, Start(clock), moves);
  }

  lemma {:induction false} RunSplits(cfg: Settings, y: Sys, moves: seq<Move>, m: Move)
    ensures Run(cfg, y, moves + [m]) == Next(cfg, Run(cfg, y, moves), m)
    decreases |moves|
  {
    if moves == [] {
      assert Run(cfg, Next(cfg, y, m), []) == Next(cfg, y, m);
    } else {
      assert (moves + [m])[1..] == moves[1..] + [m];
      RunSplits(cfg, Next(cfg, y, moves[0]), moves[1..], m);
    }
  }

  lemma NextIsReachable(cfg: Settings, y: Sys, m: Move)
    requires Reachable(cfg, y)
    ensures Reachable(cfg, Next(cfg, y, m))
  {
    var clock, moves :| y == Run(cfg, Start(clock), moves);
    RunSplits(cfg, Start(clock), moves, m);
  }

  lemma {:induction false} RunIsReachable(cfg: Settings, y: Sys, moves: seq<Move>)
    requires Reachable(cfg, y)
    ensures Reachable(cfg, Run(cfg, y, moves))
    decreases |moves|
  {
    if moves != [] {
      NextIsReachable(cfg, y, moves[0]);
      RunIsReachable(cfg, Next(cfg, y, moves[0]), moves[1..]);
    }
  }

  /* ---------- The guarantees ---------- */

  /** The transactional outbox: a created or queued notification has exactly one event, carrying its
      content, and a scheduled or cancelled one has none. */
  lemma OutboxAgreesWithStatus(cfg: Settings, y: Sys, n: int)
    requires Reachable(cfg, y) && n in y.notifications.notes
    ensures var note, events := y.notifications.notes[n], Outbox.EventsOf(y.notifications.outbox, n);
            && (note.status.Created? || note.status.Queued? ==> |events| == 1)
            && (note.status.Scheduled? || note.status.Cancelled? ==> events == {})
            && forall e :: e in events ==> y.notifications.outbox[e].body == BodyOf(n, note)
  {
    ReachableIsValid(cfg, y);
    assert |Outbox.EventsOf(y.notifications.outbox, n)| == Outbox.EventCount(y.notifications.notes[n].status);
    forall e | e in Outbox.EventsOf(y.notifications.outbox, n)
      ensures y.notifications.outbox[e].body == BodyOf(n, y.notifications.notes[n])
    {
      assert Outbox.EventMatches(y.notifications.notes, y.notifications.outbox[e]);
    }
  }

  /** Idempotent creation under any interleaving: calls of one user with one key that return return the
      same notification, exactly one of all calls has created it, and it has at most one event. No call
      ever raises: whoever loses the race for the key finds the winner's row. */
  lemma CreateIsIdempotent(cfg: Settings, y: Sys, c: int, d: int)
    requires Reachable(cfg, y) && c in y.notifications.calls && d in y.notifications.calls
    ensures var s, first, second := y.notifications, y.notifications.calls[c], y.notifications.calls[d];
            && (first.Returned? && second.Returned? && first.req.key.Some?
                && first.req.user == second.req.user && first.req.key == second.req.key ==>
                  && first.note == second.note
                  && |Outbox.CreatorsOf(s.calls, first.note)| == 1
                  && (first.created && second.created ==> c == d)
                  && |Outbox.EventsOf(s.outbox, first.note)| <= 1)
            && !first.Raised?
  {
    ReachableIsValid(cfg, y);
    var s, first, second := y.notifications, y.notifications.calls[c], y.notifications.calls[d];
    assert Outbox.CallMatches(s.notes, first) && Outbox.CallMatches(s.notes, second);
    if first.Returned? && second.Returned? && first.req.key.Some?
       && first.req.user == second.req.user && first.req.key == second.req.key {
      assert HasKey(s.notes, first.note, first.req.user, first.req.key.value);
      assert HasKey(s.notes, second.note, first.req.user, first.req.key.value);
      var creators := Outbox.CreatorsOf(s.calls, first.note);
      if first.created && second.created && c != d {
        assert {c, d} <= creators;
        SubsetIsSmaller({c, d}, creators);
      }
    }
  }

  /** Exactly-once fan-out, end to end: at most one fan-out commits per notification, no open one is
      ever broken by a constraint, an attempt is unique for its notification, user and channel, and it
      carries the payload of a notification that has been created or queued. */
  lemma FanoutIsExactlyOnce(cfg: Settings, y: Sys)
    requires Reachable(cfg, y)
    ensures var w, notes := y.delivery, y.notifications.notes;
            && (forall i, j :: 0 <= i < j < |w.fanned| ==> w.fanned[i].body.note != w.fanned[j].body.note)
            && (forall f :: f in w.fanouts ==> !w.fanouts[f].broken)
            && (forall i, j :: i in w.tracks && j in w.tracks
                               && AttemptKey(w.tracks[i].row) == AttemptKey(w.tracks[j].row)
                  ==> i == j)
            && (forall id :: id in w.tracks ==>
                  var a := w.tracks[id].row;
                  && a.note in notes && Outbox.IsEmitted(notes[a.note].status)
                  && a.payload == notes[a.note].payload)
  {
    ReachableIsValid(cfg, y);
    MessagesAreCopies(y.notifications);
    var w, s := y.delivery, y.notifications;
    forall i, j | 0 <= i < j < |w.fanned| ensures w.fanned[i].body.note != w.fanned[j].body.note {
      assert InStream(s.stream, w.fanned[i]) && InStream(s.stream, w.fanned[j]);
    }
    forall f | f in w.fanouts ensures !w.fanouts[f].broken {
      assert FanoutOk(s.stream, y.subscriptions, w.fanouts[f]);
    }
    forall id | id in w.tracks
      ensures var a := w.tracks[id].row;
              a.note in s.notes && Outbox.IsEmitted(s.notes[a.note].status) && a.payload == s.notes[a.note].payload
    {
      FannedMessageIsEmitted(cfg, y, id);
    }
  }

  lemma FannedMessageIsEmitted(cfg: Settings, y: Sys, id: int)
    requires Valid(cfg, y) && id in y.delivery.tracks
    ensures var a, notes := y.delivery.tracks[id].row, y.notifications.notes;
            a.note in notes && Outbox.IsEmitted(notes[a.note].status) && a.payload == notes[a.note].payload
  {
    var w, s := y.delivery, y.notifications;
    assert CameFrom(w.fanned, w.tracks[id].row);
    var i :| 0 <= i < |w.fanned| && w.fanned[i].body.note == w.tracks[id].row.note
             && w.fanned[i].body.payload == w.tracks[id].row.payload;
    assert InStream(s.stream, w.fanned[i]);
    var k :| 0 <= k < |s.stream| && s.stream[k] == w.fanned[i];
    assert Outbox.EventMatches(s.notes, s.outbox[s.stream[k].event]);
  }

  /** No event is lost, crashes after a publish included: an event is still unpublished, or has an
      unacknowledged copy on the stream, or its fan-out has committed. Acknowledged implies processed,
      published implies on the stream, and on the stream or processed implies an outbox row. */
  lemma NoEventIsLost(cfg: Settings, y: Sys)
    requires Reachable(cfg, y)
    ensures var outbox, stream, w := y.notifications.outbox, y.notifications.stream, y.delivery;
            && (forall e :: e in outbox ==>
                  || !outbox[e].published
                  || e in w.processed
                  || exists i :: 0 <= i < |stream| && stream[i].event == e && i !in w.acked)
            && (forall e :: e in outbox && outbox[e].published ==> Outbox.OnStream(stream, e))
            && (forall i :: i in w.acked ==> i < |stream| && stream[i].event in w.processed)
            && (forall i :: 0 <= i < |stream| ==>
                  stream[i].event in outbox && stream[i].body == outbox[stream[i].event].body)
            && (forall e :: e in w.processed <==> FannedEvent(w.fanned, e))
            && (forall e :: e in w.processed ==> e in outbox)
  {
    ReachableIsValid(cfg, y);
    var outbox, stream, w := y.notifications.outbox, y.notifications.stream, y.delivery;
    forall e | e in outbox && outbox[e].published && e !in w.processed
      ensures exists i :: 0 <= i < |stream| && stream[i].event == e && i !in w.acked
    {
      assert Outbox.OnStream(stream, e);
    }
    forall e | e in w.processed ensures e in outbox {
      assert FannedEvent(w.fanned, e);
      var i :| 0 <= i < |w.fanned| && w.fanned[i].event == e;
      assert InStream(stream, w.fanned[i]);
    }
  }

  /** No job is lost: an open attempt has a job that cannot run before the planned instant, either
      because the job is not due earlier or, after an execution that raised, because the instant has
      passed. The one exception are the stranded attempts, which are exactly the lost ones. */
  lemma NoOpenAttemptIsLost(cfg: Settings, y: Sys, id: int)
    requires Reachable(cfg, y) && id in y.delivery.tracks
    ensures var tr, w := y.delivery.tracks[id], y.delivery;
            && (id in w.stranded <==> IsLost(w, id))
            && (!tr.row.IsTerminal() && id !in w.stranded ==>
                  exists j :: j in w.jobs && j.attempt == id
                              && (tr.row.nextRetryAt.Some? ==>
                                    || j.due >= tr.row.nextRetryAt.value
                                    || (tr.undone != [] && w.clock >= tr.row.nextRetryAt.value)))
  {
    ReachableIsValid(cfg, y);
    LostIsStranded(y.delivery, id);
    assert JobState(y.delivery.tracks, y.delivery.jobs, y.delivery.stranded, y.delivery.clock, id);
  }

  /** Some step of the run drops the attempt's last job by raising. */
  ghost predicate DroppedIn(cfg: Settings, y: Sys, moves: seq<Move>, id: int)
    decreases |moves|
  {
    moves != [] &&
      (|| (moves[0].OfDelivery? && DropsLastJob(cfg, y.delivery, moves[0].deliver, id))
       || DroppedIn(cfg, Next(cfg, y, moves[0]), moves[1..], id))
  }

  lemma NextLosesIffDropped(cfg: Settings, y: Sys, m: Move, id: int)
    requires Reachable(cfg, y) && id in y.delivery.tracks
    ensures var w' := Next(cfg, y, m).delivery;
            && id in w'.tracks
            && (id in w'.stranded <==>
                  id in y.delivery.stranded || (m.OfDelivery? && DropsLastJob(cfg, y.delivery, m.deliver, id)))
  {
    ReachableIsValid(cfg, y);
    if m.OfDelivery? {
      StepLosesIffLastJobIsDropped(cfg, y.notifications.stream, y.subscriptions, y.delivery, m.deliver, id);
      StepExtends(cfg, y.notifications.stream, y.subscriptions, y.delivery, m.deliver);
    }
  }

  lemma {:induction false} RunLosesIffDropped(cfg: Settings, y: Sys, moves: seq<Move>, id: int)
    requires Reachable(cfg, y) && id in y.delivery.tracks
    ensures var w' := Run(cfg, y, moves).delivery;
            id in w'.tracks && (id in w'.stranded <==> id in y.delivery.stranded || DroppedIn(cfg, y, moves, id))
    decreases |moves|
  {
    if moves != [] {
      NextLosesIffDropped(cfg, y, moves[0], id);
      NextIsReachable(cfg, y, moves[0]);
      RunLosesIffDropped(cfg, Next(cfg, y, moves[0]), moves[1..], id);
    }
  }

  /** The exact condition: however the system goes on after a fan-out has committed, an attempt of it is
      lost if and only if its jobs had all run before the commit, or a later job of it, then its last,
      raises and is dropped. */
  lemma LostIffJoblessAtCommitOrDropped(cfg: Settings, y: Sys, fanout: int, id: int, moves: seq<Move>)
    requires Reachable(cfg, y) && fanout in y.delivery.fanouts && y.delivery.fanouts[fanout].done
    requires id in y.delivery.fanouts[fanout].rows
    ensures var committed := Next(cfg, y, OfDelivery(Commit(fanout)));
            IsLost(Run(cfg, committed, moves).delivery, id)
            <==> !HasAnyJob(y.delivery.jobs, id) || DroppedIn(cfg, committed, moves, id)
  {
    var committed := Next(cfg, y, OfDelivery(Commit(fanout)));
    assert && id in committed.delivery.tracks
           && (id in committed.delivery.stranded <==> !HasAnyJob(y.delivery.jobs, id)) by {
      CommitStrandsJobless(cfg, y, fanout, id);
    }
    NextIsReachable(cfg, y, OfDelivery(Commit(fanout)));
    RunLosesIffDropped(cfg, committed, moves, id);
    RunIsReachable(cfg, committed, moves);
    NoOpenAttemptIsLost(cfg, Run(cfg, committed, moves), id);
  }

  lemma CommitStrandsJobless(cfg: Settings, y: Sys, fanout: int, id: int)
    requires Reachable(cfg, y) && fanout in y.delivery.fanouts && y.delivery.fanouts[fanout].done
    requires id in y.delivery.fanouts[fanout].rows
    ensures var w' := CommitStep(y.delivery, fanout);
            id in w'.tracks && (id in w'.stranded <==> !HasAnyJob(y.delivery.jobs, id))
  {
    ReachableIsValid(cfg, y);
    assert FanoutOk(y.notifications.stream, y.subscriptions, y.delivery.fanouts[fanout]);
  }

  /** The run never works a job whose attempt is still uncommitted, and drops none by raising. */
  ghost predicate PatientRun(cfg: Settings, y: Sys, moves: seq<Move>)
    decreases |moves|
  {
    moves != [] ==>
      && (moves[0].OfDelivery? ==> Patient(y.delivery, moves[0].deliver))
      && PatientRun(cfg, Next(cfg, y, moves[0]), moves[1..])
  }

  lemma PatientNextStrandsNobody(cfg: Settings, y: Sys, m: Move)
    requires Reachable(cfg, y) && (m.OfDelivery? ==> Patient(y.delivery, m.deliver))
    requires OpenRowsHaveJobs(y.delivery.fanouts, y.delivery.jobs) && y.delivery.stranded == {}
    ensures var w' := Next(cfg, y, m).delivery; OpenRowsHaveJobs(w'.fanouts, w'.jobs) && w'.stranded == {}
  {
    ReachableIsValid(cfg, y);
    if m.OfDelivery? {
      PatientStepStrandsNobody(cfg, y.notifications.stream, y.subscriptions, y.delivery, m.deliver);
    }
  }

  lemma {:induction false} PatientRunStrandsNobody(cfg: Settings, y: Sys, moves: seq<Move>)
    requires Reachable(cfg, y) && PatientRun(cfg, y, moves)
    requires OpenRowsHaveJobs(y.delivery.fanouts, y.delivery.jobs) && y.delivery.stranded == {}
    ensures Run(cfg, y, moves).delivery.stranded == {}
    decreases |moves|
  {
    if moves != [] {
      PatientNextStrandsNobody(cfg, y, moves[0]);
      NextIsReachable(cfg, y, moves[0]);
      PatientRunStrandsNobody(cfg, Next(cfg, y, moves[0]), moves[1..]);
    }
  }

  /** A run in which no job overtakes its fan-out or is dropped loses no attempt. */
  lemma PatientRunLosesNothing(cfg: Settings, clock: int, moves: seq<Move>, id: int)
    requires PatientRun(cfg, Start(clock), moves)
    requires id in Run(cfg, Start(clock), moves).delivery.tracks
    ensures var w := Run(cfg, Start(clock), moves).delivery;
            var tr := w.tracks[id];
            || tr.row.IsTerminal()
            || HasJob(w.jobs, id, tr.row.nextRetryAt)
            || (tr.undone != [] && Reached(tr.row.nextRetryAt, w.clock) && HasAnyJob(w.jobs, id))
  {
    assert Start(clock) == Run(cfg, Start(clock), []);
    RunIsReachable(cfg, Start(clock), moves);
    PatientRunStrandsNobody(cfg, Start(clock), moves);
    NoOpenAttemptIsLost(cfg, Run(cfg, Start(clock), moves), id);
  }

  /** What each attempt's provider and the outcome stream see: the committed executions make at most the
      budget of calls, spaced by the backoff, at most one of them accepted and that one last, and publish
      one outcome event once the attempt is finished. A call that was rolled back is out of quiet hours
      and no earlier than the committed calls before it allow, too. */
  lemma ProviderSeesEachAttemptWithinBudget(cfg: Settings, y: Sys, id: int)
    requires Reachable(cfg, y) && id in y.delivery.tracks
    ensures var tr := y.delivery.tracks[id];
            && |tr.calls| <= Budget(cfg)
            && tr.row.attemptNo == Refusals(tr.calls)
            && (forall k :: 0 <= k < |tr.calls| ==>
                  && !IsQuiet(cfg, tr.row.window, tr.calls[k].at)
                  && tr.calls[k].at >= tr.calls[0].at + Spacing(cfg, k)
                  && (tr.calls[k].ok <==> tr.row.status.Sent? && k == |tr.calls| - 1))
            && (forall k :: 0 <= k < |tr.undone| && tr.undone[k].CalledProvider() ==>
                  && !IsQuiet(cfg, tr.row.window, tr.undone[k].at)
                  && IsSpaced(cfg, tr.calls, tr.undone[k]))
            && (tr.row.nextRetryAt.Some? ==> !IsQuiet(cfg, tr.row.window, tr.row.nextRetryAt.value))
            && |tr.events| == if tr.row.IsTerminal() then 1 else 0
  {
    ReachableIsValid(cfg, y);
    assert Attempts.Valid(cfg, y.delivery.tracks[id]);
    CallsOfValidTrack(cfg, y.delivery.tracks[id]);
  }

  /** All the calls of an attempt, exactly: those that count as tries, and those of executions that were
      rolled back. So the budget and the single acceptance are kept unless some execution had reached the
      provider and was rolled back; and then a dead attempt has gone over its budget. */
  lemma ProviderCallsExceedBudgetIffRolledBack(cfg: Settings, y: Sys, id: int)
    requires Reachable(cfg, y) && id in y.delivery.tracks
    ensures var tr := y.delivery.tracks[id];
            var sent := if tr.row.status.Sent? then 1 else 0;
            && ProviderCalls(tr) == tr.row.attemptNo + sent + UndoneCalls(tr.undone)
            && ProviderCalls(tr) <= Budget(cfg) + UndoneCalls(tr.undone)
            && AcceptedCalls(tr) == sent + UndoneAccepts(tr.undone)
            && (ProviderCalls(tr) == tr.row.attemptNo + sent <==> !SomeCallUndone(tr))
            && (AcceptedCalls(tr) == sent <==> !SomeAcceptUndone(tr))
            && (tr.row.status.Dead? ==> (ProviderCalls(tr) > Budget(cfg) <==> SomeCallUndone(tr)))
            && (tr.row.status.Sent? ==> (AcceptedCalls(tr) > 1 <==> SomeAcceptUndone(tr)))
  {
    assert Attempts.Valid(cfg, y.delivery.tracks[id]) by {
      ReachableIsValid(cfg, y);
    }
    ProviderCallsAre(cfg, y.delivery.tracks[id]);
  }

  /** All the outcome events of an attempt that are on the stream, exactly: one for its end, and those that
      executions published before they were rolled back. So an attempt has one event when it is finished and
      none before exactly if no execution was rolled back after publishing; only then can an open attempt
      have been announced, a dead one as delivered, or a sent one as failed. No success is announced that
      the provider has not accepted. */
  lemma OutcomesMatchStatusIffNoneRolledBack(cfg: Settings, y: Sys, id: int)
    requires Reachable(cfg, y) && id in y.delivery.tracks
    ensures var tr := y.delivery.tracks[id];
            var sent, dead := if tr.row.status.Sent? then 1 else 0, if tr.row.status.Dead? then 1 else 0;
            var successes, failures := Successes(PublishedOutcomes(tr)), Failures(PublishedOutcomes(tr));
            && successes == sent + Successes(UndoneOutcomes(tr.undone)) <= AcceptedCalls(tr)
            && failures == dead + Failures(UndoneOutcomes(tr.undone))
            && |PublishedOutcomes(tr)| == successes + failures
            && (|PublishedOutcomes(tr)| == sent + dead <==> !SomeSuccessUndone(tr) && !SomeFailureUndone(tr))
            && (!tr.row.status.Sent? ==> (successes > 0 <==> SomeSuccessUndone(tr)))
            && (!tr.row.status.Dead? ==> (failures > 0 <==> SomeFailureUndone(tr)))
            && (tr.row.status.Sent? ==> (successes > 1 <==> SomeSuccessUndone(tr)))
            && (tr.row.status.Dead? ==> (failures > 1 <==> SomeFailureUndone(tr)))
  {
    assert Attempts.Valid(cfg, y.delivery.tracks[id]) by {
      ReachableIsValid(cfg, y);
    }
    PublishedOutcomesAre(cfg, y.delivery.tracks[id]);
  }

  lemma CallsOfValidTrack(cfg: Settings, tr: Track)
    requires Attempts.Valid(cfg, tr)
    ensures |tr.calls| <= Budget(cfg) && tr.row.attemptNo == Refusals(tr.calls)
    ensures forall k :: 0 <= k < |tr.calls| ==> (tr.calls[k].ok <==> tr.row.status.Sent? && k == |tr.calls| - 1)
    ensures |tr.events| == if tr.row.IsTerminal() then 1 else 0
  {
    forall k | 0 <= k < |tr.calls| ensures tr.calls[k].ok <==> tr.row.status.Sent? && k == |tr.calls| - 1 {
      OnlyTheLastCallIsAccepted(tr.calls, k);
    }
  }

  /** When all calls but at most the last are refused, they are so one by one. */
  lemma {:induction false} OnlyTheLastCallIsAccepted(calls: seq<Attempts.Call>, k: nat)
    requires k < |calls|
    ensures Refusals(calls) <= |calls|
    ensures calls[k].ok ==> Refusals(calls) < |calls|
    ensures Refusals(calls) == |calls| - 1 && calls[|calls| - 1].ok && k < |calls| - 1 ==> !calls[k].ok
  {
    var last := |calls| - 1;
    if k < last {
      OnlyTheLastCallIsAccepted(calls[..last], k);
    } else if last > 0 {
      OnlyTheLastCallIsAccepted(calls[..last], 0);
    }
  }

  /** Sent and dead attempts never change again, whatever happens afterwards; the outbox, the stream, the
      processed events and every attempt's history only grow. */
  lemma HistoryOnlyGrows(cfg: Settings, y: Sys, moves: seq<Move>)
    requires Reachable(cfg, y)
    ensures Extends(y, Run(cfg, y, moves))
    ensures forall id :: id in y.delivery.tracks && y.delivery.tracks[id].row.IsTerminal() ==>
              && id in Run(cfg, y, moves).delivery.tracks
              && Run(cfg, y, moves).delivery.tracks[id] == y.delivery.tracks[id]
  {
    ReachableIsValid(cfg, y);
    RunKeepsValid(cfg, y, moves);
    var w, w' := y.delivery, Run(cfg, y, moves).delivery;
    forall id | id in w.tracks && w.tracks[id].row.IsTerminal()
      ensures id in w'.tracks && w'.tracks[id] == w.tracks[id]
    {
      assert TrackGrows(w.tracks[id], w'.tracks[id]);
    }
  }

  /** The totals are counts over the table, but for what was counted and then rolled back: attempts sent,
      dead and created on each channel, and refused calls, each of which is counted as failed or as dead. */
  lemma TotalsAgreeWithAttempts(cfg: Settings, y: Sys)
    requires Reachable(cfg, y)
    ensures var w := y.delivery;
            var counters := w.counters;
            && counters.sent == |WithStatus(w.tracks, Sent)| + Undos(w.tracks, SentTotal)
            && counters.dead == |WithStatus(w.tracks, Dead)| + Undos(w.tracks, DeadTotal)
            && counters.failed + counters.dead
                 == Tries(w.tracks) + Undos(w.tracks, FailedTotal) + Undos(w.tracks, DeadTotal)
            && forall c :: Get(counters.created, c) == |OnChannel(w.tracks, c)| + Get(w.uncreated, c)
  {
    ReachableIsValid(cfg, y);
  }

  /** Without corrections a total is right exactly as long as nothing of its kind has been counted and
      then rolled back. */
  lemma TotalsAreRightIffNothingUndone(cfg: Settings, y: Sys)
    requires Reachable(cfg, y)
    ensures var w := y.delivery;
            var counters := w.counters;
            && (counters.sent == |WithStatus(w.tracks, Sent)| <==> NoneUndone(w.tracks, SentTotal))
            && (counters.dead == |WithStatus(w.tracks, Dead)| <==> NoneUndone(w.tracks, DeadTotal))
            && (counters.failed + counters.dead == Tries(w.tracks) <==>
                  NoneUndone(w.tracks, FailedTotal) && NoneUndone(w.tracks, DeadTotal))
            && forall c :: Get(counters.created, c) == |OnChannel(w.tracks, c)| <==> Get(w.uncreated, c) == 0
  {
    TotalsAgreeWithAttempts(cfg, y);
    UndosAreNoneIff(y.delivery.tracks, SentTotal);
    UndosAreNoneIff(y.delivery.tracks, DeadTotal);
    UndosAreNoneIff(y.delivery.tracks, FailedTotal);
  }
}
