/** Every attempt finishes, over runs of the whole system: the executions that a run commits for one
    attempt, and what they leave of its tries. */
module Completion {
  import opened QuietHours
  import opened Attempts
  import opened Delivery
  import opened DeliverySafety
  import opened DeliveryHistory
  import opened System

  /** The move runs a send job of the attempt that is not swallowed. */
  predicate Executes(cfg: Settings, y: Sys, m: Move, id: int) {
    && m.OfDelivery? && m.deliver.Work?
    && m.deliver.job.SendJob? && m.deliver.job.attempt == id
    && CanWork(cfg, y.delivery, m.deliver.job, m.deliver.jitter, m.deliver.enqueuedAt)
    && id in y.delivery.tracks
    && !Decide(cfg, y.delivery.tracks[id].row, y.delivery.clock, m.deliver.reply, m.deliver.jitter).Skip?
  }

  /** The committed executions of the attempt in a run, in order. */
  ghost function ExecutionsOf(cfg: Settings, y: Sys, moves: seq<Move>, id: int): seq<Execution>
    decreases |moves|
  {
    if moves == [] then
      []
    else
      (if Executes(cfg, y, moves[0], id)
       then [Execution(y.delivery.clock, moves[0].deliver.reply, moves[0].deliver.jitter)] else [])
      + ExecutionsOf(cfg, Next(cfg, y, moves[0]), moves[1..], id)
  }

  /** Less than the free part of a day has passed since the planned instant. Enqueueing late and both
      jobs, the retry and the send, count towards it. */
  predicate InTime(tr: Track, now: int) {
    tr.row.nextRetryAt.Some? ==> now < tr.row.nextRetryAt.value + DAY - QuietSpan(tr.row.window)
  }

  ghost predicate OnTime(cfg: Settings, y: Sys, moves: seq<Move>, id: int)
    decreases |moves|
  {
    moves != [] ==>
      && (Executes(cfg, y, moves[0], id) ==> InTime(y.delivery.tracks[id], y.delivery.clock))
      && OnTime(cfg, Next(cfg, y, moves[0]), moves[1..], id)
  }

  /** What is left of the attempt's tries and quiet delays, all of it before it is visible. */
  ghost function Left(cfg: Settings, tracks: map<int, Track>, id: int): int {
    if id in tracks then Measure(cfg, tracks[id]) else 2 * Budget(cfg)
  }

  lemma LeftBounds(cfg: Settings, tracks: map<int, Track>, id: int)
    requires TracksValid(cfg, tracks)
    ensures 0 <= Left(cfg, tracks, id) <= 2 * Budget(cfg)
    ensures id in tracks ==> (Left(cfg, tracks, id) == 0 <==> tracks[id].row.IsTerminal())
  {
  }

  lemma ExecutionLowersLeft(cfg: Settings, tr: Track, now: int, reply: Attempts.Reply, jitter: nat)
    requires Attempts.Valid(cfg, tr) && !Decide(cfg, tr.row, now, reply, jitter).Skip? && InTime(tr, now)
    ensures Measure(cfg, Execute(cfg, tr, now, reply, jitter)) < Measure(cfg, tr)
  {
    PunctualExecutionProgresses(cfg, tr, Execution(now, reply, jitter));
  }

  lemma NextLowersLeft(cfg: Settings, y: Sys, m: Move, id: int)
    requires Reachable(cfg, y)
    requires Executes(cfg, y, m, id) ==> InTime(y.delivery.tracks[id], y.delivery.clock)
    ensures Left(cfg, Next(cfg, y, m).delivery.tracks, id) + (if Executes(cfg, y, m, id) then 1 else 0)
         <= Left(cfg, y.delivery.tracks, id)
  {
    if Executes(cfg, y, m, id) {
      TracksAreValid(cfg, y);
      assert Attempts.Valid(cfg, y.delivery.tracks[id]);
      ExecutionLowersLeft(cfg, y.delivery.tracks[id], y.delivery.clock, m.deliver.reply, m.deliver.jitter);
    } else {
      OthersKeepLeft(cfg, y, m, id);
    }
  }

  lemma TracksAreValid(cfg: Settings, y: Sys)
    requires Reachable(cfg, y)
    ensures TracksValid(cfg, y.delivery.tracks)
  {
    ReachableIsValid(cfg, y);
  }

  /** Nothing but an execution uses up tries; a new attempt has them all. */
  lemma OthersKeepLeft(cfg: Settings, y: Sys, m: Move, id: int)
    requires Reachable(cfg, y) && !Executes(cfg, y, m, id)
    ensures Left(cfg, Next(cfg, y, m).delivery.tracks, id) <= Left(cfg, y.delivery.tracks, id)
  {
    var tracks, tracks' := y.delivery.tracks, Next(cfg, y, m).delivery.tracks;
    if id in tracks {
      RowStays(cfg, y, m, id);
    } else if id in tracks' {
      NextIsReachable(cfg, y, m);
      TracksAreValid(cfg, Next(cfg, y, m));
      LeftBounds(cfg, tracks', id);
    }
  }

  lemma SwallowedJobLeavesTrack(cfg: Settings, y: Sys, m: Move, id: int)
    requires m.OfDelivery? && m.deliver.Work? && !Executes(cfg, y, m, id) && id in y.delivery.tracks
    ensures var tracks' := Next(cfg, y, m).delivery.tracks; id in tracks' && tracks'[id] == y.delivery.tracks[id]
  {
  }

  lemma RaiseLeavesRow(cfg: Settings, y: Sys, m: Move, id: int)
    requires m.OfDelivery? && m.deliver.Raise? && id in y.delivery.tracks
    ensures var tracks' := Next(cfg, y, m).delivery.tracks;
            id in tracks' && tracks'[id] == y.delivery.tracks[id].(undone := tracks'[id].undone)
  {
    var a := m.deliver;
    if CanWork(cfg, y.delivery, a.job, a.jitter, a.enqueuedAt) {
      RaiseMovesOne(cfg, y.delivery, a.job, a.reply, a.jitter, a.enqueuedAt, a.stage, a.kept);
    }
  }

  lemma RowStays(cfg: Settings, y: Sys, m: Move, id: int)
    requires Reachable(cfg, y) && !Executes(cfg, y, m, id) && id in y.delivery.tracks
    ensures var tracks' := Next(cfg, y, m).delivery.tracks;
            id in tracks' && tracks'[id] == y.delivery.tracks[id].(undone := tracks'[id].undone)
  {
    if m.OfDelivery? {
      if m.deliver.Commit? {
        CommitLeavesTracks(cfg, y, m.deliver.fanout, id);
      } else if m.deliver.Work? {
        SwallowedJobLeavesTrack(cfg, y, m, id);
      } else if m.deliver.Raise? {
        RaiseLeavesRow(cfg, y, m, id);
      } else {
        OthersMoveNothing(cfg, y.notifications.stream, y.subscriptions, y.delivery, m.deliver);
      }
    }
  }

  lemma CommitLeavesTracks(cfg: Settings, y: Sys, fanout: int, id: int)
    requires Reachable(cfg, y) && id in y.delivery.tracks
    ensures var tracks' := CommitStep(y.delivery, fanout).tracks; id in tracks' && tracks'[id] == y.delivery.tracks[id]
  {
    if fanout in y.delivery.fanouts {
      RowsAreNew(cfg, y, fanout);
    }
  }

  lemma RowsAreNew(cfg: Settings, y: Sys, fanout: int)
    requires Reachable(cfg, y) && fanout in y.delivery.fanouts
    ensures y.delivery.fanouts[fanout].rows.Keys !! y.delivery.tracks.Keys
  {
    ReachableIsValid(cfg, y);
  }

  lemma {:induction false} RunLowersLeft(cfg: Settings, y: Sys, moves: seq<Move>, id: int)
    requires Reachable(cfg, y) && OnTime(cfg, y, moves, id)
    ensures Left(cfg, Run(cfg, y, moves).delivery.tracks, id) + |ExecutionsOf(cfg, y, moves, id)|
         <= Left(cfg, y.delivery.tracks, id)
    decreases |moves|
  {
    if moves != [] {
      NextLowersLeft(cfg, y, moves[0], id);
      NextIsReachable(cfg, y, moves[0]);
      RunLowersLeft(cfg, Next(cfg, y, moves[0]), moves[1..], id);
    }
  }

  /** However refusals, quiet hours, duplicates and aborted executions fall, an attempt whose executions
      are on time is sent or dead after at most two of them per permitted provider call; and as long as
      it is open, fewer have happened. */
  lemma AttemptFinishesInRun(cfg: Settings, y: Sys, moves: seq<Move>, id: int)
    requires Reachable(cfg, y) && OnTime(cfg, y, moves, id)
    ensures var n, tracks' := |ExecutionsOf(cfg, y, moves, id)|, Run(cfg, y, moves).delivery.tracks;
            && n <= 2 * Budget(cfg)
            && (id in tracks' && n == 2 * Budget(cfg) ==> tracks'[id].row.IsTerminal())
  {
    RunLowersLeft(cfg, y, moves, id);
    RunIsReachable(cfg, y, moves);
    TracksAreValid(cfg, y);
    TracksAreValid(cfg, Run(cfg, y, moves));
    LeftBounds(cfg, y.delivery.tracks, id);
    LeftBounds(cfg, Run(cfg, y, moves).delivery.tracks, id);
  }

  /* ---------- The run of one attempt inside the run of the system ---------- */

  function AfterAll(cfg: Settings, tr: Track, es: seq<Execution>): Track
    decreases |es|
  {
    if es == [] then tr else AfterAll(cfg, After(cfg, tr, es[0]), es[1..])
  }

  /** The attempt without what was rolled back. */
  function Committed(tr: Track): Track {
    tr.(undone := [])
  }

  lemma {:induction false} AfterAllIgnoresUndone(cfg: Settings, tr: Track, tr': Track, es: seq<Execution>)
    requires Committed(tr) == Committed(tr')
    ensures Committed(AfterAll(cfg, tr, es)) == Committed(AfterAll(cfg, tr', es))
    decreases |es|
  {
    if es != [] {
      AfterAllIgnoresUndone(cfg, After(cfg, tr, es[0]), After(cfg, tr', es[0]), es[1..]);
    }
  }

  lemma NextProjects(cfg: Settings, y: Sys, m: Move, id: int, rest: seq<Execution>)
    requires Reachable(cfg, y) && id in y.delivery.tracks
    ensures var tracks' := Next(cfg, y, m).delivery.tracks;
            && id in tracks'
            && Committed(AfterAll(cfg, tracks'[id], rest))
               == Committed(AfterAll(cfg, y.delivery.tracks[id],
                              (if Executes(cfg, y, m, id)
                               then [Execution(y.delivery.clock, m.deliver.reply, m.deliver.jitter)] else []) + rest))
  {
    var tr := y.delivery.tracks[id];
    if Executes(cfg, y, m, id) {
      var e := Execution(y.delivery.clock, m.deliver.reply, m.deliver.jitter);
      assert ([e] + rest)[1..] == rest;
      assert Next(cfg, y, m).delivery.tracks[id] == After(cfg, tr, e);
    } else {
      RowStays(cfg, y, m, id);
      assert [] + rest == rest;
      AfterAllIgnoresUndone(cfg, tr, Next(cfg, y, m).delivery.tracks[id], rest);
    }
  }

  /** Nothing else in the system touches the attempt: what a run makes of it is what its executions make
      of it one after the other. */
  lemma {:induction false} RunProjects(cfg: Settings, y: Sys, moves: seq<Move>, id: int)
    requires Reachable(cfg, y) && id in y.delivery.tracks
    ensures var tracks' := Run(cfg, y, moves).delivery.tracks;
            && id in tracks'
            && Committed(tracks'[id])
                 == Committed(AfterAll(cfg, y.delivery.tracks[id], ExecutionsOf(cfg, y, moves, id)))
    decreases |moves|
  {
    if moves != [] {
      var y' := Next(cfg, y, moves[0]);
      NextProjects(cfg, y, moves[0], id, ExecutionsOf(cfg, y', moves[1..], id));
      NextIsReachable(cfg, y, moves[0]);
      RunProjects(cfg, y', moves[1..], id);
    }
  }

  /** When nothing is late, all executions of a fresh attempt lie within one window and, per retry, the
      longest delay and one window. */
  lemma PromptRunFinishesInTime(cfg: Settings, y: Sys, moves: seq<Move>, id: int, start: int, i: nat)
    requires Reachable(cfg, y) && id in y.delivery.tracks && y.delivery.tracks[id].row.status.Pending?
    requires Prompt(cfg, y.delivery.tracks[id], start, ExecutionsOf(cfg, y, moves, id))
    requires i < |ExecutionsOf(cfg, y, moves, id)|
    ensures |ExecutionsOf(cfg, y, moves, id)| <= Budget(cfg) + 1
    ensures ExecutionsOf(cfg, y, moves, id)[i].now - start <= LatestInTime(cfg, y.delivery.tracks[id].row.window)
  {
    TracksAreValid(cfg, y);
    assert Attempts.Valid(cfg, y.delivery.tracks[id]);
    FreshAttemptFinishesInTime(cfg, y.delivery.tracks[id], start, ExecutionsOf(cfg, y, moves, id), i);
  }
}
