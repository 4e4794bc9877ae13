/** What only grows in the delivery service, and what becomes of jobs that come too early, too late or
    for nothing. */
module DeliveryHistory {
  import opened Attempts
  import opened Subscriptions
  import opened Notifications
  import opened Delivery
  import opened DeliverySafety

  /** An attempt keeps its identity and its history; sent and dead are absorbing. */
  predicate TrackGrows(before: Track, after: Track) {
    && AttemptKey(after.row) == AttemptKey(before.row)
    && after.row.payload == before.row.payload
    && after.row.window == before.row.window
    && before.row.attemptNo <= after.row.attemptNo
    && before.calls <= after.calls
    && before.events <= after.events
    && before.undone <= after.undone
    && (before.row.IsTerminal() ==> after == before)
  }

  ghost predicate TracksGrow(before: map<int, Track>, after: map<int, Track>) {
    forall id :: id in before ==> id in after && TrackGrows(before[id], after[id])
  }

  /** Attempts, processed events, acknowledgements and committed fan-outs are never taken back, and a
      stranded attempt never moves again. */
  ghost predicate WorldExtends(w: World, w': World) {
    && w.clock <= w'.clock
    && w.processed <= w'.processed
    && w.acked <= w'.acked
    && w.fanned <= w'.fanned
    && TracksGrow(w.tracks, w'.tracks)
    && w.stranded <= w'.stranded
    && forall id :: id in w.stranded && id in w.tracks && id in w'.tracks ==> w'.tracks[id] == w.tracks[id]
  }

  lemma ExecuteGrows(cfg: Settings, tr: Track, now: int, reply: Attempts.Reply, jitter: nat)
    ensures TrackGrows(tr, Execute(cfg, tr, now, reply, jitter))
  {
  }

  lemma WorkExtends(cfg: Settings, w: World, job: Job, reply: Attempts.Reply, jitter: nat, enqueuedAt: int)
    requires NoJobIsLost(w.tracks, w.jobs, w.stranded, w.clock)
    ensures WorldExtends(w, WorkStep(cfg, w, job, reply, jitter, enqueuedAt))
  {
    if CanWork(cfg, w, job, jitter, enqueuedAt) && job.attempt in w.tracks {
      assert JobState(w.tracks, w.jobs, w.stranded, w.clock, job.attempt);
      ExecuteGrows(cfg, w.tracks[job.attempt], w.clock, reply, jitter);
    }
  }

  /** Only the attempt of the job moves, and it was not stranded. */
  lemma OneMovedExtends(w: World, w': World, id: int)
    requires id in w.tracks ==> id in w'.tracks && TrackGrows(w.tracks[id], w'.tracks[id]) && id !in w.stranded
    requires w'.tracks.Keys == w.tracks.Keys && forall i :: i in w.tracks && i != id ==> w'.tracks[i] == w.tracks[i]
    requires w'.fanned == w.fanned && w'.processed == w.processed && w.stranded <= w'.stranded
    requires w.clock <= w'.clock && w.acked <= w'.acked
    ensures WorldExtends(w, w')
  {
  }

  lemma RaiseExtends(cfg: Settings, w: World, job: Job, reply: Attempts.Reply, jitter: nat, enqueuedAt: int,
                     stage: Stage, kept: bool)
    requires NoJobIsLost(w.tracks, w.jobs, w.stranded, w.clock)
    ensures WorldExtends(w, RaiseStep(cfg, w, job, reply, jitter, enqueuedAt, stage, kept))
  {
    var w' := RaiseStep(cfg, w, job, reply, jitter, enqueuedAt, stage, kept);
    if CanWork(cfg, w, job, jitter, enqueuedAt) {
      assert job.attempt in w.tracks ==> job.attempt !in w.stranded by {
        assert HasAnyJob(w.jobs, job.attempt);
        assert job.attempt in w.tracks ==> JobState(w.tracks, w.jobs, w.stranded, w.clock, job.attempt);
      }
      RaiseMovesOne(cfg, w, job, reply, jitter, enqueuedAt, stage, kept);
      OneMovedExtends(w, w', job.attempt);
    } else {
      UnmovedExtends(w, w');
    }
  }

  lemma RaiseMovesOne(cfg: Settings, w: World, job: Job, reply: Attempts.Reply, jitter: nat, enqueuedAt: int,
                      stage: Stage, kept: bool)
    requires CanWork(cfg, w, job, jitter, enqueuedAt)
    ensures var w', id := RaiseStep(cfg, w, job, reply, jitter, enqueuedAt, stage, kept), job.attempt;
            && w'.tracks == (if IsOpen(w.tracks, id)
                             then var effect := EffectOf(cfg, w, job, reply, jitter);
                                  w.tracks[id := Rollback(w.tracks[id], effect, stage, w.clock)]
                             else w.tracks)
            && w'.fanned == w.fanned && w'.processed == w.processed && w'.acked == w.acked && w'.fanouts == w.fanouts
            && w.stranded <= w'.stranded && w.clock <= w'.clock
  {
  }

  lemma UnmovedExtends(w: World, w': World)
    requires w'.tracks == w.tracks && w'.fanned == w.fanned && w'.stranded == w.stranded && w'.processed == w.processed
    requires w.clock <= w'.clock && w.acked <= w'.acked
    ensures WorldExtends(w, w')
  {
  }

  lemma CommitExtends(w: World, fanout: int)
    requires fanout in w.fanouts ==> w.fanouts[fanout].rows.Keys !! w.tracks.Keys
    ensures WorldExtends(w, CommitStep(w, fanout))
  {
    var w' := CommitStep(w, fanout);
    forall id | id in w.tracks ensures id in w'.tracks && w'.tracks[id] == w.tracks[id] {
    }
  }

  lemma StepExtends(cfg: Settings, stream: seq<Message>, store: Store, w: World, a: Delivery.Action)
    requires NoJobIsLost(w.tracks, w.jobs, w.stranded, w.clock) && IdsAreDrawn(w.tracks, w.fanouts, w.jobs, w.drawn)
    ensures WorldExtends(w, Delivery.Step(cfg, stream, store, w, a))
  {
    var w' := Delivery.Step(cfg, stream, store, w, a);
    match a {
      case Commit(fanout) =>
        CommitExtends(w, fanout);
      case Work(job, reply, jitter, enqueuedAt) =>
        WorkExtends(cfg, w, job, reply, jitter, enqueuedAt);
      case Raise(job, reply, jitter, enqueuedAt, stage, kept) =>
        RaiseExtends(cfg, w, job, reply, jitter, enqueuedAt, stage, kept);
      case _ =>
        OthersMoveNothing(cfg, stream, store, w, a);
        UnmovedExtends(w, w');
    }
  }

  lemma FetchPageMovesNothing(cfg: Settings, store: Store, w: World, fanout: int, ids: seq<int>)
    ensures var w' := FetchPageStep(cfg, store, w, fanout, ids);
            w' == w.(fanouts := w'.fanouts, jobs := w'.jobs, drawn := w'.drawn)
  {
  }

  /** Only commits and jobs touch attempts. */
  lemma OthersMoveNothing(cfg: Settings, stream: seq<Message>, store: Store, w: World, a: Delivery.Action)
    requires !a.Commit? && !a.Work? && !a.Raise?
    ensures var w' := Delivery.Step(cfg, stream, store, w, a);
            w'.tracks == w.tracks && w'.fanned == w.fanned && w'.stranded == w.stranded && w'.processed == w.processed
  {
    if a.FetchPage? {
      FetchPageMovesNothing(cfg, store, w, a.fanout, a.ids);
    } else if a.Begin? {
      BeginMovesNothing(stream, w, a.fanout, a.index);
    }
  }

  lemma BeginMovesNothing(stream: seq<Message>, w: World, fanout: int, index: nat)
    ensures var w' := BeginStep(stream, w, fanout, index); w' == w.(fanouts := w'.fanouts)
  {
  }

  /** Nothing but its own pages changes what an open fan-out has inserted; a new one has nothing. */
  lemma OtherFanoutsStay(cfg: Settings, stream: seq<Message>, store: Store, w: World, a: Delivery.Action, fanout: int)
    requires !(a.FetchPage? && a.fanout == fanout)
    ensures var w' := Delivery.Step(cfg, stream, store, w, a);
            fanout in w'.fanouts ==>
              if fanout in w.fanouts then w'.fanouts[fanout] == w.fanouts[fanout] else w'.fanouts[fanout].rows == map[]
  {
    if a.FetchPage? {
      PageIsDone(cfg, store, w, a.fanout, a.ids);
    } else if a.Raise? && CanWork(cfg, w, a.job, a.jitter, a.enqueuedAt) {
      RaiseMovesOne(cfg, w, a.job, a.reply, a.jitter, a.enqueuedAt, a.stage, a.kept);
    }
  }

  lemma WorldExtendsIsTransitive(w0: World, w1: World, w2: World)
    requires WorldExtends(w0, w1) && WorldExtends(w1, w2) && w0.stranded <= w0.tracks.Keys
    ensures WorldExtends(w0, w2)
  {
    forall id | id in w0.tracks ensures id in w2.tracks && TrackGrows(w0.tracks[id], w2.tracks[id]) {
      assert TrackGrows(w0.tracks[id], w1.tracks[id]) && TrackGrows(w1.tracks[id], w2.tracks[id]);
    }
  }

  /** A job without a visible attempt, for a finished one, or before the planned instant changes nothing
      but the clock and the queue. */
  lemma IdleJobsChangeNothing(cfg: Settings, w: World, job: Job, reply: Attempts.Reply, jitter: nat, enqueuedAt: int)
    requires job.attempt in w.tracks ==>
               var a := w.tracks[job.attempt].row;
               a.IsTerminal() || (a.nextRetryAt.Some? && w.clock < a.nextRetryAt.value)
    ensures var w' := WorkStep(cfg, w, job, reply, jitter, enqueuedAt);
            w' == w.(clock := w'.clock, jobs := w'.jobs)
  {
  }

  /* ---------- Jobs that run before their fan-out commits ---------- */

  ghost predicate OpenRowsHaveJobs(fanouts: map<int, Fanout>, jobs: multiset<Job>) {
    forall f, id :: f in fanouts && id in fanouts[f].rows ==> HasAnyJob(jobs, id)
  }

  /** The action neither runs a job whose attempt is still uncommitted nor drops a job by raising. */
  predicate Patient(w: World, a: Delivery.Action) {
    match a
    case Work(job, _, _, _) => forall f :: f in w.fanouts ==> job.attempt !in w.fanouts[f].rows
    case Raise(_, _, _, _, _, kept) => kept
    case _ => true
  }

  lemma JobsRemain(jobs: multiset<Job>, jobs': multiset<Job>, id: int)
    requires HasAnyJob(jobs, id) && forall j :: j in jobs && j.attempt == id ==> j in jobs'
    ensures HasAnyJob(jobs', id)
  {
    var j :| j in jobs && j.attempt == id;
    assert j in jobs';
  }

  /** As long as no job overtakes its fan-out or is dropped, nothing is stranded. */
  lemma PatientStepStrandsNobody(cfg: Settings, stream: seq<Message>, store: Store, w: World, a: Delivery.Action)
    requires OpenRowsHaveJobs(w.fanouts, w.jobs) && w.stranded == {} && Patient(w, a)
    ensures var w' := Delivery.Step(cfg, stream, store, w, a);
            OpenRowsHaveJobs(w'.fanouts, w'.jobs) && w'.stranded == {}
  {
    var w' := Delivery.Step(cfg, stream, store, w, a);
    match a
    case FetchPage(fanout, ids) => FetchedRowsHaveJobs(cfg, store, w, fanout, ids);
    case Commit(fanout) => PatientCommitStrandsNobody(w, fanout);
    case Work(job, reply, jitter, enqueuedAt) => PatientWorkKeepsJobs(cfg, w, job, reply, jitter, enqueuedAt);
    case Raise(job, reply, jitter, enqueuedAt, stage, kept) =>
      KeptRaiseStrandsNobody(cfg, w, job, reply, jitter, enqueuedAt, stage);
    case Duplicate(job) => MoreJobsRemain(w.fanouts, w.jobs, w'.jobs);
    case _ =>
  }

  lemma PatientCommitStrandsNobody(w: World, fanout: int)
    requires OpenRowsHaveJobs(w.fanouts, w.jobs) && w.stranded == {}
    ensures var w' := CommitStep(w, fanout); OpenRowsHaveJobs(w'.fanouts, w'.jobs) && w'.stranded == {}
  {
    if fanout in w.fanouts {
      assert forall id :: id in w.fanouts[fanout].rows ==> HasAnyJob(w.jobs, id);
      assert CommitStep(w, fanout).stranded == {};
    }
  }

  lemma PatientWorkKeepsJobs(cfg: Settings, w: World, job: Job, reply: Attempts.Reply, jitter: nat, enqueuedAt: int)
    requires OpenRowsHaveJobs(w.fanouts, w.jobs)
    requires forall f :: f in w.fanouts ==> job.attempt !in w.fanouts[f].rows
    ensures OpenRowsHaveJobs(w.fanouts, WorkStep(cfg, w, job, reply, jitter, enqueuedAt).jobs)
  {
    var jobs := WorkStep(cfg, w, job, reply, jitter, enqueuedAt).jobs;
    assert forall j: Job :: j in w.jobs && j.attempt != job.attempt ==> j in jobs;
    forall f, id | f in w.fanouts && id in w.fanouts[f].rows ensures HasAnyJob(jobs, id) {
      JobsRemain(w.jobs, jobs, id);
    }
  }

  lemma KeptRaiseStrandsNobody(cfg: Settings, w: World, job: Job, reply: Attempts.Reply, jitter: nat, enqueuedAt: int,
                               stage: Stage)
    requires OpenRowsHaveJobs(w.fanouts, w.jobs)
    ensures var w' := RaiseStep(cfg, w, job, reply, jitter, enqueuedAt, stage, true);
            OpenRowsHaveJobs(w'.fanouts, w'.jobs) && w'.stranded == w.stranded
  {
    var w' := RaiseStep(cfg, w, job, reply, jitter, enqueuedAt, stage, true);
    MoreJobsRemain(w.fanouts, w.jobs, w'.jobs);
    if CanWork(cfg, w, job, jitter, enqueuedAt) {
      assert job in w'.jobs;
    }
  }

  lemma MoreJobsRemain(fanouts: map<int, Fanout>, jobs: multiset<Job>, jobs': multiset<Job>)
    requires OpenRowsHaveJobs(fanouts, jobs) && forall j :: j in jobs ==> j in jobs'
    ensures OpenRowsHaveJobs(fanouts, jobs')
  {
    forall f, id | f in fanouts && id in fanouts[f].rows ensures HasAnyJob(jobs', id) {
      JobsRemain(jobs, jobs', id);
    }
  }

  lemma FetchedRowsHaveJobs(cfg: Settings, store: Store, w: World, fanout: int, ids: seq<int>)
    requires OpenRowsHaveJobs(w.fanouts, w.jobs)
    ensures var w' := FetchPageStep(cfg, store, w, fanout, ids); OpenRowsHaveJobs(w'.fanouts, w'.jobs)
  {
    var w' := FetchPageStep(cfg, store, w, fanout, ids);
    PageIsDone(cfg, store, w, fanout, ids);
    if CanFetch(cfg, store, w, fanout) && FreshIds(w, ids)
       && PageThrough(cfg, NextListing(cfg, store, w.fanouts[fanout]), w, w', fanout, ids) {
      PageRowsHaveJobs(cfg, NextListing(cfg, store, w.fanouts[fanout]), w, w', fanout, ids);
    }
  }

  lemma PageRowsHaveJobs(cfg: Settings, listing: Listing, w: World, w': World, fanout: int, ids: seq<int>)
    requires OpenRowsHaveJobs(w.fanouts, w.jobs) && fanout in w.fanouts && Distinct(ids)
    requires PageThrough(cfg, listing, w, w', fanout, ids)
    ensures OpenRowsHaveJobs(w'.fanouts, w'.jobs)
  {
    SendJobsAre(ids, w.clock);
    NewRowIds(w.fanouts[fanout].message.body, TargetsOf(cfg, listing.items), ids);
    forall f, id | f in w'.fanouts && id in w'.fanouts[f].rows ensures HasAnyJob(w'.jobs, id) {
      if f in w.fanouts && id in w.fanouts[f].rows {
        JobsRemain(w.jobs, w'.jobs, id);
      } else {
        assert SendJob(id, w.clock) in w'.jobs;
      }
    }
  }

  /** The exact condition: a send job that is the attempt's last and runs before the commit strands it. */
  lemma EarlyLastJobStrands(cfg: Settings, w: World, fanout: int, id: int, job: Job,
                            reply: Attempts.Reply, jitter: nat, enqueuedAt: int)
    requires fanout in w.fanouts && w.fanouts[fanout].done && !w.fanouts[fanout].broken
    requires id in w.fanouts[fanout].rows && id !in w.tracks && id !in w.stranded
    requires job.SendJob? && job.attempt == id && CanWork(cfg, w, job, jitter, enqueuedAt)
    ensures var w' := CommitStep(WorkStep(cfg, w, job, reply, jitter, enqueuedAt), fanout);
            && id in w'.tracks
            && (id in w'.stranded <==> forall j :: j in w.jobs && j.attempt == id ==> j == job && w.jobs[j] == 1)
  {
    var w1 := WorkStep(cfg, w, job, reply, jitter, enqueuedAt);
    assert w1.jobs == w.jobs - multiset{job};
    if forall j :: j in w.jobs && j.attempt == id ==> j == job && w.jobs[j] == 1 {
      assert !HasAnyJob(w1.jobs, id);
    } else {
      var j :| j in w.jobs && j.attempt == id && !(j == job && w.jobs[j] == 1);
      assert j in w1.jobs;
    }
  }

  /* ---------- Jobs that raise ---------- */

  /** An open attempt that nothing will ever send. */
  predicate IsLost(w: World, id: int) {
    IsOpen(w.tracks, id) && !HasAnyJob(w.jobs, id)
  }

  /** The attempt's only job raises, the queue forgets it, and no follow-up job was enqueued. */
  predicate DropsLastJob(cfg: Settings, w: World, a: Delivery.Action, id: int) {
    && a.Raise? && !a.kept && a.job.attempt == id
    && CanWork(cfg, w, a.job, a.jitter, a.enqueuedAt)
    && IsOpen(w.tracks, id)
    && !HasAnyJob(w.jobs - multiset{a.job}, id)
    && (a.stage.AtCommit? ==> Deferral(EffectOf(cfg, w, a.job, a.reply, a.jitter), w.clock).None?)
  }

  lemma LostIsStranded(w: World, id: int)
    requires NoJobIsLost(w.tracks, w.jobs, w.stranded, w.clock) && id in w.tracks
    ensures id in w.stranded <==> IsLost(w, id)
  {
    assert JobState(w.tracks, w.jobs, w.stranded, w.clock, id);
  }

  lemma RaiseStrandsIffLastJob(cfg: Settings, w: World, a: Delivery.Action, id: int)
    requires a.Raise? && id in w.tracks && id !in w.stranded
    ensures id in RaiseStep(cfg, w, a.job, a.reply, a.jitter, a.enqueuedAt, a.stage, a.kept).stranded
       <==> DropsLastJob(cfg, w, a, id)
  {
    if CanWork(cfg, w, a.job, a.jitter, a.enqueuedAt) && a.job.attempt == id && IsOpen(w.tracks, id) {
      var effect := EffectOf(cfg, w, a.job, a.reply, a.jitter);
      JobsAfterRaise(w.jobs, a.job, a.kept, if a.stage.AtCommit? then effect else Skip, w.clock, a.enqueuedAt);
    }
  }

  lemma JobsAfterRaise(jobs: multiset<Job>, job: Job, kept: bool, effect: Effect, now: int, enqueuedAt: int)
    requires job in jobs
    ensures var left := if kept then jobs else jobs - multiset{job};
            HasAnyJob(left + FollowUp(job.attempt, effect, now, enqueuedAt), job.attempt)
            <==> kept || Deferral(effect, now).Some? || HasAnyJob(jobs - multiset{job}, job.attempt)
  {
    var left := if kept then jobs else jobs - multiset{job};
    var all := left + FollowUp(job.attempt, effect, now, enqueuedAt);
    if Deferral(effect, now).Some? {
      assert RetryJob(job.attempt, enqueuedAt + Deferral(effect, now).value) in all;
    } else {
      assert all == left;
      assert kept ==> job in left;
    }
  }

  /** Once visible, an attempt gets lost by a step exactly if the step drops its last job, and a lost one
      stays lost. */
  lemma StepLosesIffLastJobIsDropped(cfg: Settings, stream: seq<Message>, store: Store, w: World, a: Delivery.Action,
                                     id: int)
    requires NoJobIsLost(w.tracks, w.jobs, w.stranded, w.clock) && IdsAreDrawn(w.tracks, w.fanouts, w.jobs, w.drawn)
    requires id in w.tracks
    ensures var w' := Delivery.Step(cfg, stream, store, w, a);
            id in w'.stranded <==> id in w.stranded || DropsLastJob(cfg, w, a, id)
  {
    if a.Raise? {
      RaiseLosesIffLastJobIsDropped(cfg, stream, store, w, a, id);
    } else if a.Commit? {
      CommitLosesNoVisible(w, a.fanout, id);
    } else if a.Work? {
      WorkLosesNothing(cfg, w, a.job, a.reply, a.jitter, a.enqueuedAt);
    } else {
      OthersMoveNothing(cfg, stream, store, w, a);
    }
  }

  lemma RaiseLosesIffLastJobIsDropped(cfg: Settings, stream: seq<Message>, store: Store, w: World, a: Delivery.Action,
                                      id: int)
    requires NoJobIsLost(w.tracks, w.jobs, w.stranded, w.clock) && id in w.tracks && a.Raise?
    ensures var w' := Delivery.Step(cfg, stream, store, w, a);
            id in w'.stranded <==> id in w.stranded || DropsLastJob(cfg, w, a, id)
  {
    if id !in w.stranded {
      RaiseStrandsIffLastJob(cfg, w, a, id);
    } else {
      assert JobState(w.tracks, w.jobs, w.stranded, w.clock, id);
    }
  }

  lemma CommitLosesNoVisible(w: World, fanout: int, id: int)
    requires id in w.tracks && (fanout in w.fanouts ==> w.fanouts[fanout].rows.Keys !! w.tracks.Keys)
    ensures id in CommitStep(w, fanout).stranded <==> id in w.stranded
  {
  }

  lemma WorkLosesNothing(cfg: Settings, w: World, job: Job, reply: Attempts.Reply, jitter: nat, enqueuedAt: int)
    ensures WorkStep(cfg, w, job, reply, jitter, enqueuedAt).stranded == w.stranded
  {
  }
}
