/** What workers achieve that keep up with the queue: from the commit of its fan-out on, an attempt is
    executed when its jobs fall due, at most twice per permitted call and within a bounded time, and it is
    sent or dead once its jobs are worked off. */
module Workers {
  import opened Options
  import opened QuietHours
  import opened Attempts
  import opened Subscriptions
  import opened Notifications
  import opened Delivery
  import opened DeliverySafety
  import opened DeliveryHistory
  import opened System
  import opened Completion

  /* ---------- Executions that are late by a bounded time ---------- */

  /** The executions all find the attempt open, and each comes at most the slack after it was ready. */
  predicate Within(cfg: Settings, tr: Track, last: int, es: seq<Execution>, slack: nat)
    decreases |es|
  {
    es != [] ==>
      && !tr.row.IsTerminal()
      && ReadyAt(tr.row.nextRetryAt, last) <= es[0].now <= ReadyAt(tr.row.nextRetryAt, last) + slack
      && Within(cfg, After(cfg, tr, es[0]), es[0].now, es[1..], slack)
  }

  /** Tries left and a pending quiet delay, folded into one number. */
  ghost function Remaining(cfg: Settings, tr: Track, last: int): int {
    if tr.row.IsTerminal() then
      0
    else
      2 * (Budget(cfg) - tr.row.attemptNo)
      - if Settled(cfg, tr.row.window, Some(ReadyAt(tr.row.nextRetryAt, last))) then 1 else 0
  }

  lemma LateExecutionProgresses(cfg: Settings, tr: Track, last: int, e: Execution, slack: nat)
    requires Attempts.Valid(cfg, tr) && !tr.row.IsTerminal() && slack < DAY - QuietSpan(tr.row.window)
    requires ReadyAt(tr.row.nextRetryAt, last) <= e.now <= ReadyAt(tr.row.nextRetryAt, last) + slack
    ensures 0 <= Remaining(cfg, After(cfg, tr, e), e.now) < Remaining(cfg, tr, last)
    ensures var tr' := After(cfg, tr, e);
            && Attempts.Valid(cfg, tr') && tr'.row.window == tr.row.window
            && ReadyAt(tr'.row.nextRetryAt, e.now) <= e.now + LongestGap(cfg, tr.row.window)
  {
    TimelyExecution(cfg, tr, e);
    if IsQuiet(cfg, tr.row.window, e.now) {
      QuietDelaySettles(cfg, tr.row.window, e.now);
    }
  }

  /** Bounded lateness leaves at most two executions per permitted call, however refusals and quiet hours
      fall, and bounds the time of each. */
  lemma {:induction false} LateExecutionsFinish(cfg: Settings, tr: Track, last: int, es: seq<Execution>, slack: nat)
    requires Attempts.Valid(cfg, tr) && slack < DAY - QuietSpan(tr.row.window) && Within(cfg, tr, last, es, slack)
    ensures |es| <= Remaining(cfg, tr, last) <= 2 * Budget(cfg)
    decreases |es|
  {
    if es != [] {
      LateExecutionProgresses(cfg, tr, last, es[0], slack);
      LateExecutionsFinish(cfg, After(cfg, tr, es[0]), es[0].now, es[1..], slack);
    }
  }

  lemma {:induction false} LateExecutionsCome(cfg: Settings, tr: Track, last: int, es: seq<Execution>, slack: nat,
                                              i: nat)
    requires Attempts.Valid(cfg, tr) && slack < DAY - QuietSpan(tr.row.window) && Within(cfg, tr, last, es, slack)
    requires i < |es|
    ensures es[i].now <= ReadyAt(tr.row.nextRetryAt, last) + slack + Gaps(i, LongestGap(cfg, tr.row.window) + slack)
    decreases |es|
  {
    if i > 0 {
      LateExecutionProgresses(cfg, tr, last, es[0], slack);
      LateExecutionsCome(cfg, After(cfg, tr, es[0]), es[0].now, es[1..], slack, i - 1);
    }
  }

  /** The longest time to the i-th execution of a fresh attempt. */
  function LatestAfter(cfg: Settings, w: Window, slack: nat, i: nat): int {
    slack + i * (LongestGap(cfg, w) + slack)
  }

  lemma LatestAfterAreGaps(cfg: Settings, w: Window, slack: nat, i: nat)
    ensures LatestAfter(cfg, w, slack, i) == slack + Gaps(i, LongestGap(cfg, w) + slack)
  {
    GapsMultiply(i, LongestGap(cfg, w) + slack);
  }

  lemma ExecutionComesLate(cfg: Settings, tr: Track, start: int, es: seq<Execution>, slack: nat, i: nat)
    requires Attempts.Valid(cfg, tr) && tr.row.status.Pending? && slack < DAY - QuietSpan(tr.row.window)
    requires Within(cfg, tr, start, es, slack) && i < |es|
    ensures es[i].now - start <= LatestAfter(cfg, tr.row.window, slack, i)
  {
    LateExecutionsCome(cfg, tr, start, es, slack, i);
    LatestAfterAreGaps(cfg, tr.row.window, slack, i);
  }

  lemma FreshAttemptFinishesLate(cfg: Settings, tr: Track, start: int, es: seq<Execution>, slack: nat)
    requires Attempts.Valid(cfg, tr) && tr.row.status.Pending? && slack < DAY - QuietSpan(tr.row.window)
    requires Within(cfg, tr, start, es, slack)
    ensures |es| <= 2 * Budget(cfg)
    ensures forall i :: 0 <= i < |es| ==> es[i].now - start <= LatestAfter(cfg, tr.row.window, slack, i)
  {
    LateExecutionsFinish(cfg, tr, start, es, slack);
    forall i | 0 <= i < |es| ensures es[i].now - start <= LatestAfter(cfg, tr.row.window, slack, i) {
      ExecutionComesLate(cfg, tr, start, es, slack, i);
    }
  }

  lemma ExecutionComesOnTime(cfg: Settings, tr: Track, start: int, es: seq<Execution>, i: nat)
    requires Attempts.Valid(cfg, tr) && tr.row.status.Pending? && Prompt(cfg, tr, start, es) && i < |es|
    ensures |es| <= Budget(cfg) + 1 && es[i].now - start <= LatestInTime(cfg, tr.row.window)
  {
    FreshAttemptFinishesInTime(cfg, tr, start, es, i);
  }

  lemma FreshAttemptFinishesOnTime(cfg: Settings, tr: Track, start: int, es: seq<Execution>)
    requires Attempts.Valid(cfg, tr) && tr.row.status.Pending? && Within(cfg, tr, start, es, 0)
    ensures |es| <= Budget(cfg) + 1
    ensures forall i :: 0 <= i < |es| ==> es[i].now - start <= LatestInTime(cfg, tr.row.window)
  {
    WithinNothingIsPrompt(cfg, tr, start, es);
    forall i | 0 <= i < |es| ensures |es| <= Budget(cfg) + 1 && es[i].now - start <= LatestInTime(cfg, tr.row.window) {
      ExecutionComesOnTime(cfg, tr, start, es, i);
    }
  }

  lemma {:induction false} WithinNothingIsPrompt(cfg: Settings, tr: Track, last: int, es: seq<Execution>)
    requires Within(cfg, tr, last, es, 0)
    ensures Prompt(cfg, tr, last, es)
    decreases |es|
  {
    if es != [] {
      WithinNothingIsPrompt(cfg, After(cfg, tr, es[0]), es[0].now, es[1..]);
    }
  }

  /* ---------- Jobs of attempts that are not visible yet ---------- */

  /** A job whose attempt is not visible is due. */
  ghost predicate OrphansAreDue(w: World) {
    forall j :: j in w.jobs && j.attempt !in w.tracks ==> j.due <= w.clock
  }

  lemma StepKeepsOrphansDue(cfg: Settings, stream: seq<Message>, store: Store, w: World, a: Delivery.Action)
    requires OrphansAreDue(w)
    ensures OrphansAreDue(Delivery.Step(cfg, stream, store, w, a))
  {
    if a.FetchPage? {
      FetchActionKeepsOrphansDue(cfg, stream, store, w, a);
    } else if a.Work? {
      WorkActionKeepsOrphansDue(cfg, stream, store, w, a);
    } else if a.Raise? {
      RaiseActionKeepsOrphansDue(cfg, stream, store, w, a);
    } else {
      OthersKeepOrphansDue(cfg, stream, store, w, a);
    }
  }

  lemma FetchActionKeepsOrphansDue(cfg: Settings, stream: seq<Message>, store: Store, w: World, a: Delivery.Action)
    requires OrphansAreDue(w) && a.FetchPage?
    ensures OrphansAreDue(Delivery.Step(cfg, stream, store, w, a))
  {
    FetchKeepsOrphansDue(cfg, store, w, a.fanout, a.ids);
  }

  lemma WorkActionKeepsOrphansDue(cfg: Settings, stream: seq<Message>, store: Store, w: World, a: Delivery.Action)
    requires OrphansAreDue(w) && a.Work?
    ensures OrphansAreDue(Delivery.Step(cfg, stream, store, w, a))
  {
    WorkKeepsOrphansDue(cfg, w, a.job, a.reply, a.jitter, a.enqueuedAt);
  }

  lemma RaiseActionKeepsOrphansDue(cfg: Settings, stream: seq<Message>, store: Store, w: World, a: Delivery.Action)
    requires OrphansAreDue(w) && a.Raise?
    ensures OrphansAreDue(Delivery.Step(cfg, stream, store, w, a))
  {
    RaiseKeepsOrphansDue(cfg, w, a.job, a.reply, a.jitter, a.enqueuedAt, a.stage, a.kept);
  }

  lemma FetchKeepsOrphansDue(cfg: Settings, store: Store, w: World, fanout: int, ids: seq<int>)
    requires OrphansAreDue(w)
    ensures OrphansAreDue(FetchPageStep(cfg, store, w, fanout, ids))
  {
    SendJobsAre(ids, w.clock);
    PageIsDone(cfg, store, w, fanout, ids);
  }

  lemma OthersKeepOrphansDue(cfg: Settings, stream: seq<Message>, store: Store, w: World, a: Delivery.Action)
    requires OrphansAreDue(w) && !a.FetchPage? && !a.Work? && !a.Raise?
    ensures OrphansAreDue(Delivery.Step(cfg, stream, store, w, a))
  {
    var w' := Delivery.Step(cfg, stream, store, w, a);
    assert w.clock <= w'.clock && w.tracks.Keys <= w'.tracks.Keys;
    assert forall j :: j in w'.jobs ==> j in w.jobs;
  }

  lemma WorkKeepsOrphansDue(cfg: Settings, w: World, job: Job, reply: Attempts.Reply, jitter: nat, enqueuedAt: int)
    requires OrphansAreDue(w)
    ensures OrphansAreDue(WorkStep(cfg, w, job, reply, jitter, enqueuedAt))
  {
    var w' := WorkStep(cfg, w, job, reply, jitter, enqueuedAt);
    forall j | j in w'.jobs && j.attempt !in w'.tracks ensures j.due <= w'.clock {
      assert j in w.jobs || j == SendJob(job.attempt, enqueuedAt);
    }
  }

  lemma RaiseKeepsOrphansDue(cfg: Settings, w: World, job: Job, reply: Attempts.Reply, jitter: nat, enqueuedAt: int,
                             stage: Stage, kept: bool)
    requires OrphansAreDue(w)
    ensures OrphansAreDue(RaiseStep(cfg, w, job, reply, jitter, enqueuedAt, stage, kept))
  {
    var w' := RaiseStep(cfg, w, job, reply, jitter, enqueuedAt, stage, kept);
    forall j | j in w'.jobs && j.attempt !in w'.tracks ensures j.due <= w'.clock {
      assert j in w.jobs;
    }
  }

  lemma {:induction false} RunKeepsOrphansDue(cfg: Settings, y: Sys, moves: seq<Move>)
    requires OrphansAreDue(y.delivery)
    ensures OrphansAreDue(System.Run(cfg, y, moves).delivery)
    decreases |moves|
  {
    if moves != [] {
      if moves[0].OfDelivery? {
        StepKeepsOrphansDue(cfg, y.notifications.stream, y.subscriptions, y.delivery, moves[0].deliver);
      }
      RunKeepsOrphansDue(cfg, Next(cfg, y, moves[0]), moves[1..]);
    }
  }

  lemma ReachableOrphansAreDue(cfg: Settings, y: Sys)
    requires Reachable(cfg, y)
    ensures OrphansAreDue(y.delivery)
  {
    var clock, moves :| y == System.Run(cfg, Start(clock), moves);
    RunKeepsOrphansDue(cfg, Start(clock), moves);
  }

  /* ---------- Workers that keep up ---------- */

  /** A job of the attempt is worked at most the lag after it is due, or after the start if it was due
      before; what it enqueues, it enqueues within the lag; and it does not raise. */
  predicate KeepsUp(cfg: Settings, w: World, a: Delivery.Action, id: int, start: int, lag: nat) {
    match a
    case Work(job, _, jitter, enqueuedAt) =>
      job.attempt == id && CanWork(cfg, w, job, jitter, enqueuedAt) ==>
        w.clock <= Max(job.due, start) + lag && enqueuedAt <= w.clock + lag
    case Raise(job, _, jitter, enqueuedAt, _, _) => job.attempt == id ==> !CanWork(cfg, w, job, jitter, enqueuedAt)
    case _ => true
  }

  ghost predicate KeepingUp(cfg: Settings, y: Sys, moves: seq<Move>, id: int, start: int, lag: nat)
    decreases |moves|
  {
    moves != [] ==>
      && (moves[0].OfDelivery? ==> KeepsUp(cfg, y.delivery, moves[0].deliver, id, start, lag))
      && KeepingUp(cfg, Next(cfg, y, moves[0]), moves[1..], id, start, lag)
  }

  /** The attempt's jobs fall due soon after it is ready: a retry job after one lag, and the send job that
      it enqueues after three. */
  predicate JobsBy(jobs: multiset<Job>, id: int, ready: int, lag: nat) {
    forall j :: j in jobs && j.attempt == id ==> j.due <= ready + if j.RetryJob? then lag else 3 * lag
  }

  lemma WorkKeepsJobsBy(cfg: Settings, w: World, job: Job, reply: Attempts.Reply, jitter: nat, enqueuedAt: int,
                        id: int, start: int, ready: int, lag: nat)
    requires id in w.tracks && JobsBy(w.jobs, id, ready, lag) && start <= ready
    requires KeepsUp(cfg, w, Work(job, reply, jitter, enqueuedAt), id, start, lag)
    requires job == SendJob(id, job.due) && CanWork(cfg, w, job, jitter, enqueuedAt)
             ==> Decide(cfg, w.tracks[id].row, w.clock, reply, jitter).Skip?
    ensures JobsBy(WorkStep(cfg, w, job, reply, jitter, enqueuedAt).jobs, id, ready, lag)
  {
    var w' := WorkStep(cfg, w, job, reply, jitter, enqueuedAt);
    forall j | j in w'.jobs && j.attempt == id ensures j.due <= ready + if j.RetryJob? then lag else 3 * lag {
      assert j in w.jobs || (job.RetryJob? && j == SendJob(id, enqueuedAt));
    }
  }

  lemma RaiseKeepsJobsBy(cfg: Settings, w: World, job: Job, reply: Attempts.Reply, jitter: nat, enqueuedAt: int,
                         stage: Stage, kept: bool, id: int, ready: int, lag: nat)
    requires JobsBy(w.jobs, id, ready, lag) && (job.attempt == id ==> !CanWork(cfg, w, job, jitter, enqueuedAt))
    ensures JobsBy(RaiseStep(cfg, w, job, reply, jitter, enqueuedAt, stage, kept).jobs, id, ready, lag)
  {
    var w' := RaiseStep(cfg, w, job, reply, jitter, enqueuedAt, stage, kept);
    forall j | j in w'.jobs && j.attempt == id ensures j in w.jobs {
    }
  }

  lemma StepKeepsJobsBy(cfg: Settings, stream: seq<Message>, store: Store, w: World, a: Delivery.Action,
                        id: int, start: int, ready: int, lag: nat)
    requires IdsAreDrawn(w.tracks, w.fanouts, w.jobs, w.drawn) && id in w.tracks
    requires KeepsUp(cfg, w, a, id, start, lag) && JobsBy(w.jobs, id, ready, lag) && start <= ready
    requires a.Work? && a.job == SendJob(id, a.job.due) && CanWork(cfg, w, a.job, a.jitter, a.enqueuedAt)
             ==> Decide(cfg, w.tracks[id].row, w.clock, a.reply, a.jitter).Skip?
    ensures JobsBy(Delivery.Step(cfg, stream, store, w, a).jobs, id, ready, lag)
  {
    match a
    case FetchPage(fanout, ids) =>
      SendJobsAre(ids, w.clock);
      PageIsDone(cfg, store, w, fanout, ids);
    case Work(job, reply, jitter, enqueuedAt) =>
      WorkKeepsJobsBy(cfg, w, job, reply, jitter, enqueuedAt, id, start, ready, lag);
    case Raise(job, reply, jitter, enqueuedAt, stage, kept) =>
      RaiseKeepsJobsBy(cfg, w, job, reply, jitter, enqueuedAt, stage, kept, id, ready, lag);
    case _ =>
  }

  /** An execution enqueues its follow-up for soon after the new plan. */
  lemma ExecutionKeepsJobsBy(cfg: Settings, w: World, job: Job, reply: Attempts.Reply, jitter: nat, enqueuedAt: int,
                             last: int, lag: nat)
    requires job.SendJob? && job.attempt in w.tracks && CanWork(cfg, w, job, jitter, enqueuedAt) && last <= w.clock
    requires JobsBy(w.jobs, job.attempt, ReadyAt(w.tracks[job.attempt].row.nextRetryAt, last), lag)
    requires enqueuedAt <= w.clock + lag
    requires !Decide(cfg, w.tracks[job.attempt].row, w.clock, reply, jitter).Skip?
    ensures var w', id := WorkStep(cfg, w, job, reply, jitter, enqueuedAt), job.attempt;
            id in w'.tracks && JobsBy(w'.jobs, id, ReadyAt(w'.tracks[id].row.nextRetryAt, w.clock), lag)
  {
    var w', id := WorkStep(cfg, w, job, reply, jitter, enqueuedAt), job.attempt;
    var effect := Decide(cfg, w.tracks[id].row, w.clock, reply, jitter);
    var ready' := ReadyAt(w'.tracks[id].row.nextRetryAt, w.clock);
    forall j | j in w'.jobs && j.attempt == id ensures j.due <= ready' + if j.RetryJob? then lag else 3 * lag {
      assert j in w.jobs
             || (Deferral(effect, w.clock).Some? && j == RetryJob(id, enqueuedAt + Deferral(effect, w.clock).value));
    }
  }

  lemma UnexecutedTrackStays(cfg: Settings, y: Sys, m: Move, id: int, start: int, lag: nat)
    requires Reachable(cfg, y) && id in y.delivery.tracks && !Executes(cfg, y, m, id)
    requires m.OfDelivery? ==> KeepsUp(cfg, y.delivery, m.deliver, id, start, lag)
    ensures var tracks' := Next(cfg, y, m).delivery.tracks; id in tracks' && tracks'[id] == y.delivery.tracks[id]
  {
    if m.OfDelivery? {
      var a := m.deliver;
      if a.Commit? {
        CommitLeavesTracks(cfg, y, a.fanout, id);
      } else if a.Work? {
        SwallowedJobLeavesTrack(cfg, y, m, id);
      } else if a.Raise? && CanWork(cfg, y.delivery, a.job, a.jitter, a.enqueuedAt) {
        RaiseMovesOne(cfg, y.delivery, a.job, a.reply, a.jitter, a.enqueuedAt, a.stage, a.kept);
      } else if !a.Raise? {
        OthersMoveNothing(cfg, y.notifications.stream, y.subscriptions, y.delivery, a);
      }
    }
  }

  lemma UnexecutedKeepsJobsBy(cfg: Settings, y: Sys, m: Move, id: int, start: int, ready: int, lag: nat)
    requires Reachable(cfg, y) && id in y.delivery.tracks && !Executes(cfg, y, m, id)
    requires m.OfDelivery? ==> KeepsUp(cfg, y.delivery, m.deliver, id, start, lag)
    requires JobsBy(y.delivery.jobs, id, ready, lag) && start <= ready
    ensures JobsBy(Next(cfg, y, m).delivery.jobs, id, ready, lag)
  {
    if m.OfDelivery? {
      IdsOfReachableAreDrawn(cfg, y);
      StepKeepsJobsBy(cfg, y.notifications.stream, y.subscriptions, y.delivery, m.deliver, id, start, ready, lag);
    }
  }

  lemma IdsOfReachableAreDrawn(cfg: Settings, y: Sys)
    requires Reachable(cfg, y)
    ensures IdsAreDrawn(y.delivery.tracks, y.delivery.fanouts, y.delivery.jobs, y.delivery.drawn)
  {
    ReachableIsValid(cfg, y);
  }

  lemma ClockAdvances(cfg: Settings, y: Sys, m: Move)
    requires Reachable(cfg, y)
    ensures y.delivery.clock <= Next(cfg, y, m).delivery.clock
  {
    ReachableIsValid(cfg, y);
    NextKeepsValid(cfg, y, m);
  }

  /** One execution by a worker that keeps up: it comes when the attempt is ready, but for four lags. */
  lemma ExecutionIsWithin(cfg: Settings, y: Sys, m: Move, id: int, start: int, last: int, lag: nat)
    requires Executes(cfg, y, m, id) && KeepsUp(cfg, y.delivery, m.deliver, id, start, lag)
    requires start <= last <= y.delivery.clock
    requires JobsBy(y.delivery.jobs, id, ReadyAt(y.delivery.tracks[id].row.nextRetryAt, last), lag)
    ensures var tr, now := y.delivery.tracks[id], y.delivery.clock;
            var ready := ReadyAt(tr.row.nextRetryAt, last);
            var w' := Next(cfg, y, m).delivery;
            && !tr.row.IsTerminal() && ready <= now <= ready + 4 * lag
            && id in w'.tracks && w'.tracks[id] == After(cfg, tr, Execution(now, m.deliver.reply, m.deliver.jitter))
            && now <= w'.clock && JobsBy(w'.jobs, id, ReadyAt(w'.tracks[id].row.nextRetryAt, now), lag)
  {
    var a := m.deliver;
    ExecutionKeepsJobsBy(cfg, y.delivery, a.job, a.reply, a.jitter, a.enqueuedAt, last, lag);
  }

  /** What workers that keep up make of the queue. */
  lemma {:induction false} QueueKeepsWithin(cfg: Settings, y: Sys, moves: seq<Move>, id: int, start: int, last: int,
                                            lag: nat)
    requires Reachable(cfg, y) && id in y.delivery.tracks && KeepingUp(cfg, y, moves, id, start, lag)
    requires start <= last <= y.delivery.clock
    requires JobsBy(y.delivery.jobs, id, ReadyAt(y.delivery.tracks[id].row.nextRetryAt, last), lag)
    ensures Within(cfg, y.delivery.tracks[id], last, ExecutionsOf(cfg, y, moves, id), 4 * lag)
    decreases |moves|
  {
    if moves != [] {
      var m := moves[0];
      var tr, now, y' := y.delivery.tracks[id], y.delivery.clock, Next(cfg, y, m);
      NextIsReachable(cfg, y, m);
      if Executes(cfg, y, m, id) {
        ExecutionIsWithin(cfg, y, m, id, start, last, lag);
        QueueKeepsWithin(cfg, y', moves[1..], id, start, now, lag);
        var es := ExecutionsOf(cfg, y, moves, id);
        assert es == [Execution(now, m.deliver.reply, m.deliver.jitter)] + ExecutionsOf(cfg, y', moves[1..], id);
        assert es[1..] == ExecutionsOf(cfg, y', moves[1..], id);
      } else {
        UnexecutedTrackStays(cfg, y, m, id, start, lag);
        UnexecutedKeepsJobsBy(cfg, y, m, id, start, ReadyAt(tr.row.nextRetryAt, last), lag);
        ClockAdvances(cfg, y, m);
        QueueKeepsWithin(cfg, y', moves[1..], id, start, last, lag);
        assert ExecutionsOf(cfg, y, moves, id) == ExecutionsOf(cfg, y', moves[1..], id);
      }
    }
  }

  lemma {:induction false} KeepingUpDropsNothing(cfg: Settings, y: Sys, moves: seq<Move>, id: int, start: int, lag: nat)
    requires KeepingUp(cfg, y, moves, id, start, lag)
    ensures !DroppedIn(cfg, y, moves, id)
    decreases |moves|
  {
    if moves != [] {
      KeepingUpDropsNothing(cfg, Next(cfg, y, moves[0]), moves[1..], id, start, lag);
    }
  }

  /* ---------- From the commit on ---------- */

  lemma CommittedAttemptIsFresh(cfg: Settings, y: Sys, fanout: int, id: int, lag: nat)
    requires Reachable(cfg, y) && fanout in y.delivery.fanouts && y.delivery.fanouts[fanout].done
    requires id in y.delivery.fanouts[fanout].rows
    ensures var w' := CommitStep(y.delivery, fanout);
            && w'.clock == y.delivery.clock
            && id in w'.tracks && w'.tracks[id] == Track(y.delivery.fanouts[fanout].rows[id], [], [], [])
            && w'.tracks[id].row.status.Pending? && w'.tracks[id].row.nextRetryAt.None?
            && JobsBy(w'.jobs, id, w'.clock, lag)
  {
    RowsAreNew(cfg, y, fanout);
    ReachableOrphansAreDue(cfg, y);
    OpenRowIsPending(cfg, y, fanout, id);
  }

  lemma OpenRowIsPending(cfg: Settings, y: Sys, fanout: int, id: int)
    requires Reachable(cfg, y) && fanout in y.delivery.fanouts && id in y.delivery.fanouts[fanout].rows
    ensures !y.delivery.fanouts[fanout].broken
    ensures var a := y.delivery.fanouts[fanout].rows[id]; a.status.Pending? && a.nextRetryAt.None?
  {
    ReachableIsValid(cfg, y);
    var f := y.delivery.fanouts[fanout];
    assert FanoutOk(y.notifications.stream, y.subscriptions, f);
    NewRowsArePending(f.message.body, f.seen, f.rows);
  }

  lemma CommittedExecutionsAreWithin(cfg: Settings, y: Sys, fanout: int, id: int, moves: seq<Move>, lag: nat)
    requires Reachable(cfg, y) && fanout in y.delivery.fanouts && y.delivery.fanouts[fanout].done
    requires id in y.delivery.fanouts[fanout].rows
    requires KeepingUp(cfg, Next(cfg, y, OfDelivery(Commit(fanout))), moves, id, y.delivery.clock, lag)
    ensures var committed := Next(cfg, y, OfDelivery(Commit(fanout)));
            && id in committed.delivery.tracks && committed.delivery.tracks[id].row.status.Pending?
            && committed.delivery.tracks[id].row == y.delivery.fanouts[fanout].rows[id]
            && committed.delivery.tracks[id].row.nextRetryAt.None?
            && Attempts.Valid(cfg, committed.delivery.tracks[id])
            && Within(cfg, committed.delivery.tracks[id], y.delivery.clock, ExecutionsOf(cfg, committed, moves, id),
                      4 * lag)
  {
    var committed := Next(cfg, y, OfDelivery(Commit(fanout)));
    NextIsReachable(cfg, y, OfDelivery(Commit(fanout)));
    CommittedAttemptIsFresh(cfg, y, fanout, id, lag);
    TracksAreValid(cfg, committed);
    QueueKeepsWithin(cfg, committed, moves, id, y.delivery.clock, y.delivery.clock, lag);
  }

  /** Workers that keep up with the queue finish every attempt whose fan-out has committed, unless its jobs
      had all run before: at most two executions per permitted call, each within a bounded time, and once
      no job of it is left the attempt is sent or dead. */
  lemma WorkersFinishAttempt(cfg: Settings, y: Sys, fanout: int, id: int, moves: seq<Move>, lag: nat)
    requires Reachable(cfg, y) && fanout in y.delivery.fanouts && y.delivery.fanouts[fanout].done
    requires id in y.delivery.fanouts[fanout].rows
    requires KeepingUp(cfg, Next(cfg, y, OfDelivery(Commit(fanout))), moves, id, y.delivery.clock, lag)
    requires 4 * lag < DAY - QuietSpan(y.delivery.fanouts[fanout].rows[id].window)
    ensures var committed, w := Next(cfg, y, OfDelivery(Commit(fanout))), y.delivery;
            var es := ExecutionsOf(cfg, committed, moves, id);
            && |es| <= 2 * Budget(cfg)
            && forall i :: 0 <= i < |es| ==>
                 es[i].now - w.clock <= LatestAfter(cfg, w.fanouts[fanout].rows[id].window, 4 * lag, i)
    ensures var w' := System.Run(cfg, Next(cfg, y, OfDelivery(Commit(fanout))), moves).delivery;
            && id in w'.tracks
            && (w'.tracks[id].row.IsTerminal() || HasAnyJob(w'.jobs, id) || !HasAnyJob(y.delivery.jobs, id))
  {
    var committed := Next(cfg, y, OfDelivery(Commit(fanout)));
    CommittedExecutionsAreWithin(cfg, y, fanout, id, moves, lag);
    FreshAttemptFinishesLate(cfg, committed.delivery.tracks[id], y.delivery.clock,
                             ExecutionsOf(cfg, committed, moves, id), 4 * lag);
    JoblessIsFinished(cfg, y, fanout, id, moves, lag);
  }

  lemma JoblessIsFinished(cfg: Settings, y: Sys, fanout: int, id: int, moves: seq<Move>, lag: nat)
    requires Reachable(cfg, y) && fanout in y.delivery.fanouts && y.delivery.fanouts[fanout].done
    requires id in y.delivery.fanouts[fanout].rows
    requires KeepingUp(cfg, Next(cfg, y, OfDelivery(Commit(fanout))), moves, id, y.delivery.clock, lag)
    ensures var w' := System.Run(cfg, Next(cfg, y, OfDelivery(Commit(fanout))), moves).delivery;
            && id in w'.tracks
            && (w'.tracks[id].row.IsTerminal() || HasAnyJob(w'.jobs, id) || !HasAnyJob(y.delivery.jobs, id))
  {
    var committed := Next(cfg, y, OfDelivery(Commit(fanout)));
    NextIsReachable(cfg, y, OfDelivery(Commit(fanout)));
    CommittedAttemptIsFresh(cfg, y, fanout, id, lag);
    RunProjects(cfg, committed, moves, id);
    KeepingUpDropsNothing(cfg, committed, moves, id, y.delivery.clock, lag);
    LostIffJoblessAtCommitOrDropped(cfg, y, fanout, id, moves);
  }

  /** When every job is worked exactly when it falls due, there is at most one quiet delay in the whole
      life, and all executions lie within one window and, per retry, the longest delay and one window. */
  lemma PunctualWorkersFinishInTime(cfg: Settings, y: Sys, fanout: int, id: int, moves: seq<Move>)
    requires Reachable(cfg, y) && fanout in y.delivery.fanouts && y.delivery.fanouts[fanout].done
    requires id in y.delivery.fanouts[fanout].rows
    requires KeepingUp(cfg, Next(cfg, y, OfDelivery(Commit(fanout))), moves, id, y.delivery.clock, 0)
    ensures var es := ExecutionsOf(cfg, Next(cfg, y, OfDelivery(Commit(fanout))), moves, id);
            && |es| <= Budget(cfg) + 1
            && forall i :: 0 <= i < |es| ==>
                 es[i].now - y.delivery.clock <= LatestInTime(cfg, y.delivery.fanouts[fanout].rows[id].window)
  {
    var committed := Next(cfg, y, OfDelivery(Commit(fanout)));
    CommittedExecutionsAreWithin(cfg, y, fanout, id, moves, 0);
    FreshAttemptFinishesOnTime(cfg, committed.delivery.tracks[id], y.delivery.clock,
                               ExecutionsOf(cfg, committed, moves, id));
  }

  /* ---------- Whoever is not lost can still be sent ---------- */

  predicate IsDueSend(w: World, job: Job, id: int) {
    job in w.jobs && job == SendJob(id, job.due) && job.due <= w.clock
  }

  /** A send job that runs at or after the plan executes its attempt, and unless that finishes it, there is
      a job for the new plan. */
  lemma DueJobExecutes(cfg: Settings, w: World, job: Job, id: int, reply: Attempts.Reply)
    requires IsOpen(w.tracks, id) && IsDueSend(w, job, id) && Reached(w.tracks[id].row.nextRetryAt, w.clock)
    ensures var w' := WorkStep(cfg, w, job, reply, 0, w.clock);
            && w'.clock == w.clock && id in w'.tracks
            && w'.tracks[id] == Execute(cfg, w.tracks[id], w.clock, reply, 0)
            && (w'.tracks[id].row.IsTerminal() || IsPlanned(w', id))
  {
    DecisionIsFollowedUp(cfg, w.tracks[id], w.clock, reply);
    var effect := Decide(cfg, w.tracks[id].row, w.clock, reply, 0);
    if Deferral(effect, w.clock).Some? {
      assert RetryJob(id, w.clock + Deferral(effect, w.clock).value) in FollowUp(id, effect, w.clock, w.clock);
    }
  }

  lemma DecisionIsFollowedUp(cfg: Settings, tr: Track, now: int, reply: Attempts.Reply)
    requires !tr.row.IsTerminal() && Reached(tr.row.nextRetryAt, now)
    ensures var a, deferral := Execute(cfg, tr, now, reply, 0).row, Deferral(Decide(cfg, tr.row, now, reply, 0), now);
            && (a.IsTerminal() <==> deferral.None?)
            && (deferral.Some? ==> a.nextRetryAt.Some? && now + deferral.value == ReadyAt(a.nextRetryAt, now))
  {
  }

  /** The attempt is planned again and has a retry job that is due when it is ready. */
  predicate IsPlanned(w: World, id: int) {
    && IsOpen(w.tracks, id) && w.tracks[id].row.nextRetryAt.Some?
    && RetryJob(id, ReadyAt(w.tracks[id].row.nextRetryAt, w.clock)) in w.jobs
  }

  lemma RunsOf(cfg: Settings, y: Sys, m: Move)
    ensures System.Run(cfg, y, [m]) == Next(cfg, y, m)
  {
    assert System.Run(cfg, Next(cfg, y, m), []) == Next(cfg, y, m);
  }

  lemma {:induction false} RunJoins(cfg: Settings, y: Sys, first: seq<Move>, second: seq<Move>)
    ensures System.Run(cfg, y, first + second) == System.Run(cfg, System.Run(cfg, y, first), second)
    decreases |first|
  {
    if first == [] {
      assert first + second == second;
    } else {
      assert (first + second)[1..] == first[1..] + second;
      RunJoins(cfg, Next(cfg, y, first[0]), first[1..], second);
    }
  }

  /** Waiting for a job, and turning it into a send job. */
  lemma JobCanBecomeSend(cfg: Settings, y: Sys, j: Job) returns (moves: seq<Move>, send: Job)
    requires j in y.delivery.jobs
    ensures var w, w' := y.delivery, System.Run(cfg, y, moves).delivery;
            && w'.clock == Max(w.clock, j.due) && w'.tracks == w.tracks && IsDueSend(w', send, j.attempt)
  {
    var now := Max(y.delivery.clock, j.due);
    var wait := OfDelivery(Delivery.Advance(now));
    moves, send := [wait], j;
    RunsOf(cfg, y, wait);
    if j.RetryJob? {
      var retry := OfDelivery(Work(j, Attempts.Accepted, 0, now));
      RunSplits(cfg, y, moves, retry);
      moves, send := moves + [retry], SendJob(j.attempt, now);
    }
  }

  /** Whatever job an open attempt has, if it cannot run before the plan, the attempt can be executed. */
  lemma JobCanExecute(cfg: Settings, y: Sys, j: Job, reply: Attempts.Reply) returns (moves: seq<Move>)
    requires j in y.delivery.jobs && IsOpen(y.delivery.tracks, j.attempt)
    requires Reached(y.delivery.tracks[j.attempt].row.nextRetryAt, Max(y.delivery.clock, j.due))
    ensures var w, w', id := y.delivery, System.Run(cfg, y, moves).delivery, j.attempt;
            && w'.clock == Max(w.clock, j.due) && id in w'.tracks
            && w'.tracks[id] == Execute(cfg, w.tracks[id], w'.clock, reply, 0)
            && (w'.tracks[id].row.IsTerminal() || IsPlanned(w', id))
  {
    var before, send := JobCanBecomeSend(cfg, y, j);
    var y1 := System.Run(cfg, y, before);
    var work := OfDelivery(Work(send, reply, 0, y1.delivery.clock));
    moves := before + [work];
    RunSplits(cfg, y, before, work);
    WorkIsNext(cfg, y1, send, reply);
    DueJobExecutes(cfg, y1.delivery, send, j.attempt, reply);
  }

  lemma WorkIsNext(cfg: Settings, y: Sys, job: Job, reply: Attempts.Reply)
    ensures Next(cfg, y, OfDelivery(Work(job, reply, 0, y.delivery.clock))).delivery
            == WorkStep(cfg, y.delivery, job, reply, 0, y.delivery.clock)
  {
  }

  /** Out of quiet hours the provider decides; in them the attempt is planned for their end. */
  lemma ExecutionDecides(cfg: Settings, tr: Track, now: int, reply: Attempts.Reply)
    requires !tr.row.IsTerminal() && Reached(tr.row.nextRetryAt, now)
    ensures var a := Execute(cfg, tr, now, reply, 0).row;
            && a.window == tr.row.window
            && if IsQuiet(cfg, tr.row.window, now) then
                 && a.status.Failed? && a.attemptNo == tr.row.attemptNo
                 && a.nextRetryAt.Some? && now < a.nextRetryAt.value
                 && !IsQuiet(cfg, a.window, a.nextRetryAt.value)
               else
                 && (reply.Accepted? ==> a.status.Sent?)
                 && (reply.Refused? ==> a.status.Dead? || (a.status.Failed? && a.attemptNo == tr.row.attemptNo + 1))
                 && (a.nextRetryAt.Some? ==> !IsQuiet(cfg, a.window, ReadyAt(a.nextRetryAt, now)))
  {
    QuietRetryIffQuiet(cfg, tr.row.window, now);
    RetryAtBounds(cfg, tr.row, now, 0);
  }

  /** An open attempt that is not lost can be brought to an execution out of quiet hours. */
  lemma OpenAttemptCanBeReady(cfg: Settings, y: Sys, id: int) returns (moves: seq<Move>, j: Job)
    requires Reachable(cfg, y) && IsOpen(y.delivery.tracks, id) && !IsLost(y.delivery, id)
    ensures var w' := System.Run(cfg, y, moves).delivery; IsReady(cfg, w', j, id)
  {
    var w := y.delivery;
    NoOpenAttemptIsLost(cfg, y, id);
    j :| j in w.jobs && j.attempt == id && Reached(w.tracks[id].row.nextRetryAt, Max(w.clock, j.due));
    if IsQuiet(cfg, w.tracks[id].row.window, Max(w.clock, j.due)) {
      moves := JobCanExecute(cfg, y, j, Attempts.Accepted);
      ExecutionDecides(cfg, w.tracks[id], Max(w.clock, j.due), Attempts.Accepted);
      var w' := System.Run(cfg, y, moves).delivery;
      j := RetryJob(id, ReadyAt(w'.tracks[id].row.nextRetryAt, w'.clock));
    } else {
      moves := [];
    }
  }

  /** The job, when it is due, finds the attempt due and out of quiet hours. */
  predicate IsReady(cfg: Settings, w: World, j: Job, id: int) {
    && j in w.jobs && j.attempt == id && IsOpen(w.tracks, id)
    && Reached(w.tracks[id].row.nextRetryAt, Max(w.clock, j.due))
    && !IsQuiet(cfg, w.tracks[id].row.window, Max(w.clock, j.due))
  }

  lemma OpenAttemptCanBeSent(cfg: Settings, y: Sys, id: int) returns (moves: seq<Move>)
    requires Reachable(cfg, y) && IsOpen(y.delivery.tracks, id) && !IsLost(y.delivery, id)
    ensures IsSent(System.Run(cfg, y, moves), id)
  {
    var before, j := OpenAttemptCanBeReady(cfg, y, id);
    var y1 := System.Run(cfg, y, before);
    var rest := JobCanExecute(cfg, y1, j, Attempts.Accepted);
    ExecutionDecides(cfg, y1.delivery.tracks[id], Max(y1.delivery.clock, j.due), Attempts.Accepted);
    RunJoins(cfg, y, before, rest);
    moves := before + rest;
  }

  /** Refusal after refusal, until no try is left. */
  lemma {:induction false} ReadyAttemptCanDie(cfg: Settings, y: Sys, j: Job, id: int) returns (moves: seq<Move>)
    requires Reachable(cfg, y) && IsReady(cfg, y.delivery, j, id)
    requires y.delivery.tracks[id].row.attemptNo < Budget(cfg)
    ensures IsDead(System.Run(cfg, y, moves), id)
    decreases Budget(cfg) - y.delivery.tracks[id].row.attemptNo
  {
    moves := JobCanExecute(cfg, y, j, Attempts.Refused(None));
    ExecutionDecides(cfg, y.delivery.tracks[id], Max(y.delivery.clock, j.due), Attempts.Refused(None));
    var y1 := System.Run(cfg, y, moves);
    if !IsDead(y1, id) {
      var a := y1.delivery.tracks[id].row;
      RunIsReachable(cfg, y, moves);
      TriesAreLeft(cfg, y1, id);
      var rest := ReadyAttemptCanDie(cfg, y1, RetryJob(id, ReadyAt(a.nextRetryAt, y1.delivery.clock)), id);
      RunJoins(cfg, y, moves, rest);
      moves := moves + rest;
    }
  }

  lemma TriesAreLeft(cfg: Settings, y: Sys, id: int)
    requires Reachable(cfg, y) && IsOpen(y.delivery.tracks, id)
    ensures y.delivery.tracks[id].row.attemptNo < Budget(cfg)
  {
    TracksAreValid(cfg, y);
    assert Attempts.Valid(cfg, y.delivery.tracks[id]);
  }

  lemma OpenAttemptCanDie(cfg: Settings, y: Sys, id: int) returns (moves: seq<Move>)
    requires Reachable(cfg, y) && IsOpen(y.delivery.tracks, id) && !IsLost(y.delivery, id)
    ensures IsDead(System.Run(cfg, y, moves), id)
  {
    var before, j := OpenAttemptCanBeReady(cfg, y, id);
    var y1 := System.Run(cfg, y, before);
    RunIsReachable(cfg, y, before);
    TriesAreLeft(cfg, y1, id);
    var rest := ReadyAttemptCanDie(cfg, y1, j, id);
    RunJoins(cfg, y, before, rest);
    moves := before + rest;
  }

  /** What being lost means: an open attempt has lost its last job if and only if no continuation at all
      will ever send it. */
  lemma LostIffNeverSent(cfg: Settings, y: Sys, id: int)
    requires Reachable(cfg, y) && IsOpen(y.delivery.tracks, id)
    ensures IsLost(y.delivery, id) <==> forall moves :: !IsSent(System.Run(cfg, y, moves), id)
  {
    if IsLost(y.delivery, id) {
      forall moves ensures !IsSent(System.Run(cfg, y, moves), id) {
        LostStaysOpen(cfg, y, id, moves);
      }
    } else {
      var sending := OpenAttemptCanBeSent(cfg, y, id);
      assert exists moves :: IsSent(System.Run(cfg, y, moves), id) by {
        assert IsSent(System.Run(cfg, y, sending), id);
      }
    }
  }

  /** Nor will any ever give it up. */
  lemma LostIffNeverDead(cfg: Settings, y: Sys, id: int)
    requires Reachable(cfg, y) && IsOpen(y.delivery.tracks, id)
    ensures IsLost(y.delivery, id) <==> forall moves :: !IsDead(System.Run(cfg, y, moves), id)
  {
    if IsLost(y.delivery, id) {
      forall moves ensures !IsDead(System.Run(cfg, y, moves), id) {
        LostStaysOpen(cfg, y, id, moves);
      }
    } else {
      var refusing := OpenAttemptCanDie(cfg, y, id);
      assert exists moves :: IsDead(System.Run(cfg, y, moves), id) by {
        assert IsDead(System.Run(cfg, y, refusing), id);
      }
    }
  }

  predicate IsDead(y: Sys, id: int) {
    id in y.delivery.tracks && y.delivery.tracks[id].row.status.Dead?
  }

  predicate IsSent(y: Sys, id: int) {
    id in y.delivery.tracks && y.delivery.tracks[id].row.status.Sent?
  }

  lemma LostStaysOpen(cfg: Settings, y: Sys, id: int, moves: seq<Move>)
    requires Reachable(cfg, y) && IsLost(y.delivery, id)
    ensures var tracks' := System.Run(cfg, y, moves).delivery.tracks;
            id in tracks' && tracks'[id] == y.delivery.tracks[id]
  {
    NoOpenAttemptIsLost(cfg, y, id);
    HistoryOnlyGrows(cfg, y, moves);
    assert TrackGrows(y.delivery.tracks[id], System.Run(cfg, y, moves).delivery.tracks[id]);
  }
}
