/** Runs in which what was rolled back still counts: executions that raise past the provider call or past
    the outcome event and are repeated as often as one likes, and a fan-out that is rolled back after
    counting. */
module Repeating {
  import opened Options
  import opened Attempts
  import opened Delivery
  import opened DeliveryHistory
  import opened DeliveryCounters
  import opened System
  import opened Stranding
  import opened Workers

  /** One execution that was accepted, published its outcome and raised at the commit. */
  function AcceptedAndUndone(): Undone {
    Undone(Deliver, AtCommit, 0, 0)
  }

  function Repeated(n: nat): seq<Undone> {
    seq(n, _ => AcceptedAndUndone())
  }

  /** The attempt after n such executions. */
  ghost function Tried(n: nat): Track {
    Track(Row(), [], [], Repeated(n))
  }

  ghost predicate HasTried(y: Sys, n: nat) {
    && y.delivery.clock == 0
    && y.delivery.tracks == map[7 := Tried(n)]
    && y.delivery.jobs == multiset{SendJob(7, 0)}
    && y.delivery.counters.sent == n
  }

  lemma OneCommitted(cfg: Settings) returns (y: Sys)
    requires "push" in cfg.channels && cfg.pageLimit >= 1
    ensures Reachable(cfg, y) && HasTried(y, 0)
  {
    var y0 := OneFetched(cfg);
    NextIsReachable(cfg, y0, OfDelivery(Commit(0)));
    y := Next(cfg, y0, OfDelivery(Commit(0)));
    assert Repeated(0) == [];
    assert y.delivery.tracks == map[7 := Track(Row(), [], [], [])];
  }

  lemma RowIsAccepted(cfg: Settings, jitter: nat)
    ensures Decide(cfg, Row(), 0, Attempts.Accepted, jitter) == Deliver
  {
  }

  lemma RaiseTriesOnceMore(cfg: Settings, w: World, n: nat)
    requires w.clock == 0 && w.tracks == map[7 := Tried(n)] && w.jobs == multiset{SendJob(7, 0)} && w.counters.sent == n
    ensures var w' := RaiseStep(cfg, w, SendJob(7, 0), Attempts.Accepted, 0, 0, AtCommit, true);
            w'.clock == 0 && w'.tracks == map[7 := Tried(n + 1)] && w'.jobs == w.jobs && w'.counters.sent == n + 1
  {
    RowIsAccepted(cfg, 0);
    assert Repeated(n) + [AcceptedAndUndone()] == Repeated(n + 1);
    assert Rollback(Tried(n), Deliver, AtCommit, 0) == Tried(n + 1);
  }

  lemma {:induction false} ManyTried(cfg: Settings, n: nat) returns (y: Sys)
    requires "push" in cfg.channels && cfg.pageLimit >= 1
    ensures Reachable(cfg, y) && HasTried(y, n)
  {
    if n == 0 {
      y := OneCommitted(cfg);
    } else {
      var y0 := ManyTried(cfg, n - 1);
      var again := OfDelivery(Raise(SendJob(7, 0), Attempts.Accepted, 0, 0, AtCommit, true));
      RaiseTriesOnceMore(cfg, y0.delivery, n - 1);
      NextIsReachable(cfg, y0, again);
      y := Next(cfg, y0, again);
    }
  }

  lemma SuccessAfterMany(cfg: Settings, w: World, n: nat)
    requires w.clock == 0 && w.tracks == map[7 := Tried(n)] && w.jobs == multiset{SendJob(7, 0)} && w.counters.sent == n
    ensures var w' := WorkStep(cfg, w, SendJob(7, 0), Attempts.Accepted, 0, 0);
            && 7 in w'.tracks && w'.counters.sent == n + 1
            && w'.tracks[7].row.status.Sent? && w'.tracks[7].undone == Repeated(n)
            && w'.tracks[7].calls == [Call(0, true)]
            && WithStatus(w'.tracks, Sent) == {7}
  {
    RowIsAccepted(cfg, 0);
  }

  lemma {:induction false} RepeatedCalls(n: nat)
    ensures UndoneCalls(Repeated(n)) == n && UndoneAccepts(Repeated(n)) == n
    ensures Successes(UndoneOutcomes(Repeated(n))) == n && Failures(UndoneOutcomes(Repeated(n))) == 0
  {
    if n > 0 {
      RepeatedCalls(n - 1);
      assert Repeated(n)[..n - 1] == Repeated(n - 1);
      UndoneOutcomesAppend(Repeated(n));
    }
  }

  /** Whatever the budget: the provider may be called more than n times for one attempt, accept every time
      and at the same instant, and as many outcome events may be published, while the sent counter exceeds
      the number of sent attempts by n. */
  lemma CallsAreUnbounded(cfg: Settings, n: nat) returns (y: Sys, id: int)
    requires "push" in cfg.channels && cfg.pageLimit >= 1
    ensures Reachable(cfg, y) && id in y.delivery.tracks
    ensures var w, tr := y.delivery, y.delivery.tracks[id];
            && ProviderCalls(tr) == AcceptedCalls(tr) == n + 1
            && (forall k :: 0 <= k < |tr.calls| ==> tr.calls[k].at == 0)
            && (forall k :: 0 <= k < |tr.undone| ==> tr.undone[k].WasAccepted() && tr.undone[k].at == 0)
            && Successes(PublishedOutcomes(tr)) == n + 1
            && w.counters.sent == |WithStatus(w.tracks, Sent)| + n
  {
    y := SentAfterMany(cfg, n);
    id := 7;
    RepeatedCalls(n);
    assert Refusals([Call(0, true)]) == 0;
    SentPublishesOneMore(cfg, y, id);
  }

  lemma SentAfterMany(cfg: Settings, n: nat) returns (y: Sys)
    requires "push" in cfg.channels && cfg.pageLimit >= 1
    ensures Reachable(cfg, y) && IsSent(y, 7)
    ensures var tr := y.delivery.tracks[7]; tr.undone == Repeated(n) && tr.calls == [Call(0, true)]
    ensures WithStatus(y.delivery.tracks, Sent) == {7} && y.delivery.counters.sent == n + 1
  {
    var y0 := ManyTried(cfg, n);
    var last := OfDelivery(Work(SendJob(7, 0), Attempts.Accepted, 0, 0));
    SuccessAfterMany(cfg, y0.delivery, n);
    NextIsReachable(cfg, y0, last);
    y := Next(cfg, y0, last);
  }

  lemma SentPublishesOneMore(cfg: Settings, y: Sys, id: int)
    requires Reachable(cfg, y) && IsSent(y, id)
    ensures var tr := y.delivery.tracks[id];
            Successes(PublishedOutcomes(tr)) == 1 + Successes(UndoneOutcomes(tr.undone))
  {
    OutcomesMatchStatusIffNoneRolledBack(cfg, y, id);
  }

  /** An attempt may be announced as delivered before it has ended, n times over. */
  lemma PendingMayBeAnnounced(cfg: Settings, n: nat) returns (y: Sys, id: int)
    requires "push" in cfg.channels && cfg.pageLimit >= 1
    ensures Reachable(cfg, y) && id in y.delivery.tracks && y.delivery.tracks[id].row.status.Pending?
    ensures Successes(PublishedOutcomes(y.delivery.tracks[id])) == n && HasAnyJob(y.delivery.jobs, id)
  {
    y := ManyTried(cfg, n);
    id := 7;
    RepeatedCalls(n);
    assert PublishedOutcomes(Tried(n)) == UndoneOutcomes(Repeated(n));
    assert SendJob(7, 0) in y.delivery.jobs;
  }

  lemma {:induction false} AnnouncedStay(before: seq<Undone>, after: seq<Undone>)
    requires before <= after
    ensures Successes(UndoneOutcomes(before)) <= Successes(UndoneOutcomes(after))
    decreases |after|
  {
    if |before| < |after| {
      UndoneOutcomesAppend(after);
      AnnouncedStay(before, after[..|after| - 1]);
    } else {
      assert before == after;
    }
  }

  /** And then be given up: dead, although delivered and announced as delivered n times. */
  lemma DeadMayBeAnnouncedAsDelivered(cfg: Settings, n: nat) returns (y: Sys, id: int)
    requires "push" in cfg.channels && cfg.pageLimit >= 1
    ensures Reachable(cfg, y) && IsDead(y, id)
    ensures n <= Successes(PublishedOutcomes(y.delivery.tracks[id])) <= AcceptedCalls(y.delivery.tracks[id])
  {
    var y0, id0 := PendingMayBeAnnounced(cfg, n);
    var moves := OpenAttemptCanDie(cfg, y0, id0);
    y, id := System.Run(cfg, y0, moves), id0;
    RunIsReachable(cfg, y0, moves);
    OutcomesMatchStatusIffNoneRolledBack(cfg, y0, id);
    OutcomesMatchStatusIffNoneRolledBack(cfg, y, id);
    UndoneStays(cfg, y0, moves, id);
  }

  lemma UndoneStays(cfg: Settings, y: Sys, moves: seq<Move>, id: int)
    requires Reachable(cfg, y) && id in y.delivery.tracks
    ensures var tracks, tracks' := y.delivery.tracks, System.Run(cfg, y, moves).delivery.tracks;
            && id in tracks'
            && Successes(UndoneOutcomes(tracks[id].undone)) <= Successes(UndoneOutcomes(tracks'[id].undone))
  {
    HistoryOnlyGrows(cfg, y, moves);
    var before, after := y.delivery.tracks[id].undone, System.Run(cfg, y, moves).delivery.tracks[id].undone;
    assert TrackGrows(y.delivery.tracks[id], System.Run(cfg, y, moves).delivery.tracks[id]);
    AnnouncedStay(before, after);
  }

  /* ---------- Without running any job twice ---------- */

  /** The move neither runs a job a second time nor duplicates one. */
  predicate RunsOnce(m: Move) {
    m.OfDelivery? ==> (m.deliver.Raise? ==> !m.deliver.kept) && !m.deliver.Duplicate?
  }

  /** The attempt is as new after n calls, and its one job is due. */
  ghost predicate HasRefused(w: World, n: nat) {
    && w.tracks.Keys == {7}
    && w.tracks[7] == Track(Row(), [], [], w.tracks[7].undone)
    && UndoneCalls(w.tracks[7].undone) == n
    && w.jobs == multiset{SendJob(7, w.clock)}
  }

  lemma RowIsRefused(cfg: Settings, now: int)
    requires cfg.maxAttempts >= 2
    ensures Decide(cfg, Row(), now, Attempts.Refused(None), 0).Retry?
  {
    QuietRetryIffQuiet(cfg, Row().window, now);
  }

  /** The refused execution raises at the commit: its follow-up job stays, and the row is as before. */
  lemma RefusalLeavesFollowUp(cfg: Settings, w: World, n: nat)
    requires cfg.maxAttempts >= 2 && HasRefused(w, n)
    ensures var effect := Decide(cfg, Row(), w.clock, Attempts.Refused(None), 0);
            var w' := RaiseStep(cfg, w, SendJob(7, w.clock), Attempts.Refused(None), 0, w.clock, AtCommit, false);
            && Deferral(effect, w.clock).Some?
            && w'.clock == w.clock && w'.jobs == multiset{RetryJob(7, w.clock + Deferral(effect, w.clock).value)}
            && w'.tracks.Keys == {7} && w'.tracks[7] == Track(Row(), [], [], w'.tracks[7].undone)
            && UndoneCalls(w'.tracks[7].undone) == n + 1
  {
    RowIsRefused(cfg, w.clock);
    var effect := Decide(cfg, Row(), w.clock, Attempts.Refused(None), 0);
    var undone, u := w.tracks[7].undone, Undone(effect, AtCommit, w.clock, 0);
    assert (undone + [u])[..|undone|] == undone;
    assert w.jobs - multiset{SendJob(7, w.clock)} == multiset{};
  }

  /** Waiting for the only job, a retry job, and turning it into a send job. */
  lemma RetryBecomesSend(cfg: Settings, y: Sys, due: int) returns (moves: seq<Move>)
    requires y.delivery.jobs == multiset{RetryJob(7, due)} && y.delivery.clock <= due
    ensures System.Run(cfg, y, moves).delivery == y.delivery.(clock := due, jobs := multiset{SendJob(7, due)})
    ensures forall m :: m in moves ==> RunsOnce(m)
  {
    var wait := OfDelivery(Delivery.Advance(due));
    var retry := OfDelivery(Work(RetryJob(7, due), Attempts.Accepted, 0, due));
    moves := [wait] + [retry];
    RunsOf(cfg, y, wait);
    RunSplits(cfg, y, [wait], retry);
    assert y.delivery.jobs - multiset{RetryJob(7, due)} == multiset{};
  }

  /** The refusal as a move. */
  lemma RefusalIsNext(cfg: Settings, y: Sys, n: nat) returns (m: Move, due: int)
    requires cfg.maxAttempts >= 2 && HasRefused(y.delivery, n)
    ensures RunsOnce(m) && y.delivery.clock <= due
    ensures var w' := Next(cfg, y, m).delivery;
            && w'.clock == y.delivery.clock && w'.jobs == multiset{RetryJob(7, due)}
            && HasRefused(w'.(clock := due, jobs := multiset{SendJob(7, due)}), n + 1)
  {
    var now, effect := y.delivery.clock, Decide(cfg, Row(), y.delivery.clock, Attempts.Refused(None), 0);
    m := OfDelivery(Raise(SendJob(7, now), Attempts.Refused(None), 0, now, AtCommit, false));
    RaiseIsNext(cfg, y, now);
    RefusalLeavesFollowUp(cfg, y.delivery, n);
    due := now + Deferral(effect, now).value;
  }

  lemma RaiseIsNext(cfg: Settings, y: Sys, now: int)
    ensures Next(cfg, y, OfDelivery(Raise(SendJob(7, now), Attempts.Refused(None), 0, now, AtCommit, false))).delivery
            == RaiseStep(cfg, y.delivery, SendJob(7, now), Attempts.Refused(None), 0, now, AtCommit, false)
  {
  }

  lemma RefusedOnceMore(cfg: Settings, y: Sys, n: nat) returns (moves: seq<Move>)
    requires cfg.maxAttempts >= 2 && HasRefused(y.delivery, n)
    ensures HasRefused(System.Run(cfg, y, moves).delivery, n + 1) && forall m :: m in moves ==> RunsOnce(m)
  {
    var refusal, due := RefusalIsNext(cfg, y, n);
    var rest := RetryBecomesSend(cfg, Next(cfg, y, refusal), due);
    RunsOf(cfg, y, refusal);
    RunJoins(cfg, y, [refusal], rest);
    moves := [refusal] + rest;
  }

  /** With two tries or more, the provider may be called for one attempt more often than any n although no
      job runs twice and no try is counted: each refused execution leaves a follow-up job and is then
      rolled back. */
  lemma {:induction false} RefusalsAreUnbounded(cfg: Settings, n: nat) returns (y: Sys, moves: seq<Move>)
    requires "push" in cfg.channels && cfg.pageLimit >= 1 && cfg.maxAttempts >= 2
    ensures Reachable(cfg, y) && HasRefused(y.delivery, 0)
    ensures HasRefused(System.Run(cfg, y, moves).delivery, n) && forall m :: m in moves ==> RunsOnce(m)
  {
    if n == 0 {
      y := OneCommitted(cfg);
      moves := [];
      assert System.Run(cfg, y, []) == y;
    } else {
      var before;
      y, before := RefusalsAreUnbounded(cfg, n - 1);
      var more := RefusedOnceMore(cfg, System.Run(cfg, y, before), n - 1);
      RunJoins(cfg, y, before, more);
      moves := before + more;
    }
  }

  /** A fan-out that is rolled back after counting leaves a created counter without an attempt. */
  lemma CreatedMayExceedAttempts(cfg: Settings) returns (y: Sys)
    requires "push" in cfg.channels && cfg.pageLimit >= 1
    ensures Reachable(cfg, y) && y.delivery.tracks == map[] && Get(y.delivery.counters.created, "push") == 1
  {
    var y0 := OneFetched(cfg);
    NextIsReachable(cfg, y0, OfDelivery(Abort(0, true)));
    y := Next(cfg, y0, OfDelivery(Abort(0, true)));
    GetAfterCount(map[], map[7 := Row()], "push");
    assert OfChannel(map[7 := Row()], "push") == {7};
  }
}
