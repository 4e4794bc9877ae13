/** The delivery service's totals agree with its table over every run: the counters of created, sent,
    failed and dead are what one would count in the attempts. */
module DeliveryCounters {
  import opened Attempts
  import opened Subscriptions
  import opened Notifications
  import opened Delivery
  import opened DeliverySafety
  import opened DeliveryHistory

  /** The sum of some number over all attempts. */
  ghost function Sum(tracks: map<int, Track>, value: Track -> nat): nat
    decreases |tracks|
  {
    if exists id :: id in tracks then
      var id :| id in tracks;
      value(tracks[id]) + Sum(tracks - {id}, value)
    else
      0
  }

  function AttemptNo(tr: Track): nat {
    tr.row.attemptNo
  }

  ghost function Tries(tracks: map<int, Track>): nat {
    Sum(tracks, AttemptNo)
  }

  /** The counters that an execution of an attempt may raise. */
  datatype Total = SentTotal | FailedTotal | DeadTotal

  predicate Feeds(effect: Effect, total: Total) {
    match total
    case SentTotal => effect.Deliver?
    case FailedTotal => effect.Retry?
    case DeadTotal => effect.Bury?
  }

  /** How many rolled-back executions have raised the counter. */
  function UndosOf(undone: seq<Undone>, total: Total): nat {
    if undone == [] then
      0
    else
      var last := undone[|undone| - 1];
      UndosOf(undone[..|undone| - 1], total) + if WasCountedFor(last, total) then 1 else 0
  }

  function UndosIn(total: Total): Track -> nat {
    (tr: Track) => UndosOf(tr.undone, total)
  }

  ghost function Undos(tracks: map<int, Track>, total: Total): nat {
    Sum(tracks, UndosIn(total))
  }

  function WithStatus(tracks: map<int, Track>, status: Status): set<int> {
    set id | id in tracks && tracks[id].row.status == status
  }

  function OnChannel(tracks: map<int, Track>, channel: string): set<int> {
    set id | id in tracks && tracks[id].row.channel == channel
  }

  /** Every total is a count over the attempts plus what was counted and rolled back; each refused call is
      in exactly one of failed and dead. */
  ghost predicate Counted(tracks: map<int, Track>, counters: Counters, uncreated: map<string, nat>) {
    && ExecutionsCounted(tracks, counters)
    && forall c :: Get(counters.created, c) == |OnChannel(tracks, c)| + Get(uncreated, c)
  }

  ghost predicate ExecutionsCounted(tracks: map<int, Track>, counters: Counters) {
    && counters.sent == |WithStatus(tracks, Sent)| + Undos(tracks, SentTotal)
    && counters.dead == |WithStatus(tracks, Dead)| + Undos(tracks, DeadTotal)
    && counters.failed + counters.dead == Tries(tracks) + Undos(tracks, FailedTotal) + Undos(tracks, DeadTotal)
  }

  lemma {:induction false} SumWithout(tracks: map<int, Track>, value: Track -> nat, id: int)
    requires id in tracks
    ensures Sum(tracks, value) == value(tracks[id]) + Sum(tracks - {id}, value)
    decreases |tracks|
  {
    var first :| first in tracks && Sum(tracks, value) == value(tracks[first]) + Sum(tracks - {first}, value);
    if first != id {
      SumWithout(tracks - {first}, value, id);
      SumWithout(tracks - {id}, value, first);
      assert tracks - {first} - {id} == tracks - {id} - {first};
    }
  }

  lemma {:induction false} SumIsZeroIff(tracks: map<int, Track>, value: Track -> nat)
    ensures Sum(tracks, value) == 0 <==> forall id :: id in tracks ==> value(tracks[id]) == 0
    decreases |tracks|
  {
    if id :| id in tracks {
      SumWithout(tracks, value, id);
      SumIsZeroIff(tracks - {id}, value);
      assert forall i :: i in tracks ==> i == id || (i in tracks - {id} && (tracks - {id})[i] == tracks[i]);
    }
  }

  /** No execution that feeds the counter was rolled back after counting. */
  ghost predicate NoneUndone(tracks: map<int, Track>, total: Total) {
    forall id, k :: id in tracks && 0 <= k < |tracks[id].undone| ==> !WasCountedFor(tracks[id].undone[k], total)
  }

  predicate WasCountedFor(u: Undone, total: Total) {
    u.stage.IsCounted() && Feeds(u.effect, total)
  }

  lemma {:induction false} UndosOfIsZeroIff(undone: seq<Undone>, total: Total)
    ensures UndosOf(undone, total) == 0 <==> forall k :: 0 <= k < |undone| ==> !WasCountedFor(undone[k], total)
    decreases |undone|
  {
    if undone != [] {
      UndosOfIsZeroIff(undone[..|undone| - 1], total);
      assert forall k :: 0 <= k < |undone| - 1 ==> undone[..|undone| - 1][k] == undone[k];
    }
  }

  lemma UndosAreNoneIff(tracks: map<int, Track>, total: Total)
    ensures Undos(tracks, total) == 0 <==> NoneUndone(tracks, total)
  {
    SumIsZeroIff(tracks, UndosIn(total));
    forall id | id in tracks
      ensures UndosIn(total)(tracks[id]) == 0
         <==> forall k :: 0 <= k < |tracks[id].undone| ==> !WasCountedFor(tracks[id].undone[k], total)
    {
      UndosOfIsZeroIff(tracks[id].undone, total);
    }
  }

  lemma SumAfterUpdate(tracks: map<int, Track>, value: Track -> nat, id: int, tr: Track)
    requires id in tracks
    ensures Sum(tracks[id := tr], value) == Sum(tracks, value) - value(tracks[id]) + value(tr)
  {
    SumWithout(tracks, value, id);
    SumWithout(tracks[id := tr], value, id);
    assert tracks[id := tr] - {id} == tracks - {id};
  }

  lemma InsertSplits(tracks: map<int, Track>, rows: map<int, Attempt>, id: int)
    requires id in rows && id !in tracks
    ensures tracks + ToTracks(rows) - {id} == tracks + ToTracks(rows - {id})
  {
  }

  lemma {:induction false} SumAfterInsert(tracks: map<int, Track>, value: Track -> nat, rows: map<int, Attempt>)
    requires tracks.Keys !! rows.Keys && forall id :: id in rows ==> value(Track(rows[id], [], [], [])) == 0
    ensures Sum(tracks + ToTracks(rows), value) == Sum(tracks, value)
    decreases |rows|
  {
    if id :| id in rows {
      SumAfterInsert(tracks, value, rows - {id});
      SumWithout(tracks + ToTracks(rows), value, id);
      InsertSplits(tracks, rows, id);
    } else {
      assert forall id :: id in tracks + ToTracks(rows) <==> id in tracks;
      assert tracks + ToTracks(rows) == tracks;
    }
  }

  lemma StatusAfterInsert(tracks: map<int, Track>, rows: map<int, Attempt>, status: Status)
    requires tracks.Keys !! rows.Keys && forall id :: id in rows ==> rows[id].status != status
    ensures WithStatus(tracks + ToTracks(rows), status) == WithStatus(tracks, status)
  {
    var tracks' := tracks + ToTracks(rows);
    assert forall id :: id in WithStatus(tracks', status) <==> id in WithStatus(tracks, status);
  }

  lemma GetAfterCount(created: map<string, nat>, rows: map<int, Attempt>, c: string)
    ensures Get(CountCreated(created, rows), c) == Get(created, c) + |OfChannel(rows, c)|
  {
    if c !in CountCreated(created, rows) {
      forall id | id in rows ensures rows[id].channel != c {
        assert rows[id].channel in (set i | i in rows :: rows[i].channel);
      }
      assert OfChannel(rows, c) == {};
    }
  }

  lemma ChannelAfterInsert(tracks: map<int, Track>, rows: map<int, Attempt>, c: string)
    requires tracks.Keys !! rows.Keys
    ensures |OnChannel(tracks + ToTracks(rows), c)| == |OnChannel(tracks, c)| + |OfChannel(rows, c)|
  {
    var tracks', before, added := tracks + ToTracks(rows), OnChannel(tracks, c), OfChannel(rows, c);
    assert forall id :: id in OnChannel(tracks', c) <==> id in before || id in added;
    assert OnChannel(tracks', c) == before + added;
    assert before !! added;
  }

  /** Committing a fan-out counts its rows on their channels and touches no other total. */
  lemma CommitKeepsCounted(tracks: map<int, Track>, counters: Counters, uncreated: map<string, nat>,
                           rows: map<int, Attempt>)
    requires Counted(tracks, counters, uncreated) && tracks.Keys !! rows.Keys
    requires forall id :: id in rows ==> rows[id].status.Pending? && rows[id].attemptNo == 0
    ensures Counted(tracks + ToTracks(rows), counters.(created := CountCreated(counters.created, rows)), uncreated)
  {
    SumAfterInsert(tracks, AttemptNo, rows);
    SumAfterInsert(tracks, UndosIn(SentTotal), rows);
    SumAfterInsert(tracks, UndosIn(FailedTotal), rows);
    SumAfterInsert(tracks, UndosIn(DeadTotal), rows);
    StatusAfterInsert(tracks, rows, Sent);
    StatusAfterInsert(tracks, rows, Dead);
    forall c
      ensures Get(CountCreated(counters.created, rows), c)
              == |OnChannel(tracks + ToTracks(rows), c)| + Get(uncreated, c)
    {
      GetAfterCount(counters.created, rows, c);
      ChannelAfterInsert(tracks, rows, c);
    }
  }

  /** A fan-out rolled back after counting raises the counter and what is known not to be created alike. */
  lemma AbortKeepsCounted(tracks: map<int, Track>, counters: Counters, uncreated: map<string, nat>,
                          rows: map<int, Attempt>)
    requires Counted(tracks, counters, uncreated)
    ensures Counted(tracks, counters.(created := CountCreated(counters.created, rows)), CountCreated(uncreated, rows))
  {
    forall c
      ensures Get(CountCreated(counters.created, rows), c)
              == |OnChannel(tracks, c)| + Get(CountCreated(uncreated, rows), c)
    {
      GetAfterCount(counters.created, rows, c);
      GetAfterCount(uncreated, rows, c);
    }
  }

  lemma ChannelsStay(tracks: map<int, Track>, id: int, tr: Track)
    requires id in tracks && tr.row.channel == tracks[id].row.channel
    ensures forall c :: OnChannel(tracks[id := tr], c) == OnChannel(tracks, c)
  {
  }

  lemma UndosAfterUpdate(tracks: map<int, Track>, id: int, tr: Track, total: Total)
    requires id in tracks
    ensures Undos(tracks[id := tr], total)
            == Undos(tracks, total) - UndosOf(tracks[id].undone, total) + UndosOf(tr.undone, total)
  {
    SumAfterUpdate(tracks, UndosIn(total), id, tr);
  }

  /** One execution moves its attempt and the totals together. */
  lemma ExecuteKeepsCounted(cfg: Settings, tracks: map<int, Track>, counters: Counters, id: int,
                            now: int, reply: Attempts.Reply, jitter: nat)
    requires ExecutionsCounted(tracks, counters) && id in tracks
    ensures var effect := Decide(cfg, tracks[id].row, now, reply, jitter);
            ExecutionsCounted(tracks[id := Apply(tracks[id], effect, now)], Count(counters, effect))
  {
    ApplyKeepsCounted(tracks, counters, id, Decide(cfg, tracks[id].row, now, reply, jitter), now);
  }

  lemma ApplyKeepsCounted(tracks: map<int, Track>, counters: Counters, id: int, effect: Effect, now: int)
    requires ExecutionsCounted(tracks, counters) && id in tracks && (tracks[id].row.IsTerminal() ==> effect.Skip?)
    ensures ExecutionsCounted(tracks[id := Apply(tracks[id], effect, now)], Count(counters, effect))
  {
    var tr := Apply(tracks[id], effect, now);
    SumAfterUpdate(tracks, AttemptNo, id, tr);
    UndosStay(tracks, id, tr);
    StatusMoves(tracks, id, tr, Sent);
    StatusMoves(tracks, id, tr, Dead);
  }

  lemma UndosStay(tracks: map<int, Track>, id: int, tr: Track)
    requires id in tracks && tr.undone == tracks[id].undone
    ensures forall total :: Undos(tracks[id := tr], total) == Undos(tracks, total)
  {
    forall total ensures Undos(tracks[id := tr], total) == Undos(tracks, total) {
      UndosAfterUpdate(tracks, id, tr, total);
    }
  }

  lemma UndosAppend(undone: seq<Undone>, u: Undone, total: Total)
    ensures UndosOf(undone + [u], total) == UndosOf(undone, total) + if WasCountedFor(u, total) then 1 else 0
  {
    assert (undone + [u])[..|undone|] == undone;
  }

  /** An execution that is rolled back after counting is known not to have happened. */
  lemma RollbackKeepsCounted(tracks: map<int, Track>, counters: Counters, id: int, effect: Effect, stage: Stage,
                             now: int)
    requires ExecutionsCounted(tracks, counters) && id in tracks
    ensures ExecutionsCounted(tracks[id := Rollback(tracks[id], effect, stage, now)],
                              if stage.IsCounted() then Count(counters, effect) else counters)
  {
    UndosAfterRollback(tracks, id, effect, stage, now, SentTotal);
    UndosAfterRollback(tracks, id, effect, stage, now, FailedTotal);
    UndosAfterRollback(tracks, id, effect, stage, now, DeadTotal);
    RollbackLeavesRows(tracks, id, effect, stage, now);
  }

  lemma StatusStays(tracks: map<int, Track>, id: int, tr: Track, status: Status)
    requires id in tracks && tr.row.status == tracks[id].row.status
    ensures WithStatus(tracks[id := tr], status) == WithStatus(tracks, status)
  {
    assert forall i :: i in WithStatus(tracks[id := tr], status) <==> i in WithStatus(tracks, status);
  }

  lemma RollbackLeavesRows(tracks: map<int, Track>, id: int, effect: Effect, stage: Stage, now: int)
    requires id in tracks
    ensures var tracks' := tracks[id := Rollback(tracks[id], effect, stage, now)];
            && Tries(tracks') == Tries(tracks)
            && WithStatus(tracks', Sent) == WithStatus(tracks, Sent)
            && WithStatus(tracks', Dead) == WithStatus(tracks, Dead)
  {
    var tr := Rollback(tracks[id], effect, stage, now);
    SumAfterUpdate(tracks, AttemptNo, id, tr);
    StatusStays(tracks, id, tr, Sent);
    StatusStays(tracks, id, tr, Dead);
  }

  lemma UndosAfterRollback(tracks: map<int, Track>, id: int, effect: Effect, stage: Stage, now: int, total: Total)
    requires id in tracks
    ensures Undos(tracks[id := Rollback(tracks[id], effect, stage, now)], total)
         == Undos(tracks, total) + if stage.IsCounted() && Feeds(effect, total) then 1 else 0
  {
    UndosAfterUpdate(tracks, id, Rollback(tracks[id], effect, stage, now), total);
    UndosAppend(tracks[id].undone, Undone(effect, stage, now, |tracks[id].calls|), total);
  }

  lemma StatusMoves(tracks: map<int, Track>, id: int, tr: Track, status: Status)
    requires id in tracks && (tracks[id].row.status == status ==> tr.row.status == status)
    ensures |WithStatus(tracks[id := tr], status)|
         == |WithStatus(tracks, status)| + if tr.row.status == status && tracks[id].row.status != status then 1 else 0
  {
    var before := WithStatus(tracks, status);
    var after := WithStatus(tracks[id := tr], status);
    assert forall i :: i in after <==> i in before || (i == id && tr.row.status == status);
    if tr.row.status == status && tracks[id].row.status != status {
      assert id !in before && after == before + {id};
    } else {
      assert after == before;
    }
  }

  lemma WorkKeepsCounted(cfg: Settings, w: World, job: Job, reply: Attempts.Reply, jitter: nat, enqueuedAt: int)
    requires Counted(w.tracks, w.counters, w.uncreated)
    ensures var w' := WorkStep(cfg, w, job, reply, jitter, enqueuedAt); Counted(w'.tracks, w'.counters, w'.uncreated)
  {
    if CanWork(cfg, w, job, jitter, enqueuedAt) && job.SendJob? && job.attempt in w.tracks {
      WorkCounts(cfg, w, job, reply, jitter, enqueuedAt);
      WorkedKeepsCounted(cfg, w.tracks, w.counters, w.uncreated, job.attempt, w.clock, reply, jitter);
    }
  }

  lemma WorkCounts(cfg: Settings, w: World, job: Job, reply: Attempts.Reply, jitter: nat, enqueuedAt: int)
    requires CanWork(cfg, w, job, jitter, enqueuedAt) && job.SendJob? && job.attempt in w.tracks
    ensures var effect := Decide(cfg, w.tracks[job.attempt].row, w.clock, reply, jitter);
            var w' := WorkStep(cfg, w, job, reply, jitter, enqueuedAt);
            && w'.tracks == w.tracks[job.attempt := Apply(w.tracks[job.attempt], effect, w.clock)]
            && w'.counters == Count(w.counters, effect) && w'.uncreated == w.uncreated
  {
  }

  lemma WorkedKeepsCounted(cfg: Settings, tracks: map<int, Track>, counters: Counters, uncreated: map<string, nat>,
                           id: int, now: int, reply: Attempts.Reply, jitter: nat)
    requires Counted(tracks, counters, uncreated) && id in tracks
    ensures var effect := Decide(cfg, tracks[id].row, now, reply, jitter);
            Counted(tracks[id := Apply(tracks[id], effect, now)], Count(counters, effect), uncreated)
  {
    ExecuteKeepsCounted(cfg, tracks, counters, id, now, reply, jitter);
    ChannelsStay(tracks, id, Execute(cfg, tracks[id], now, reply, jitter));
  }

  lemma UndoingKeepsCounted(tracks: map<int, Track>, counters: Counters, uncreated: map<string, nat>,
                            id: int, effect: Effect, stage: Stage, now: int)
    requires Counted(tracks, counters, uncreated) && id in tracks
    ensures Counted(tracks[id := Rollback(tracks[id], effect, stage, now)],
                    if stage.IsCounted() then Count(counters, effect) else counters, uncreated)
  {
    RollbackKeepsCounted(tracks, counters, id, effect, stage, now);
    ChannelsStay(tracks, id, Rollback(tracks[id], effect, stage, now));
  }

  lemma RaiseKeepsCounted(cfg: Settings, w: World, job: Job, reply: Attempts.Reply, jitter: nat, enqueuedAt: int,
                          stage: Stage, kept: bool)
    requires Counted(w.tracks, w.counters, w.uncreated)
    ensures var w' := RaiseStep(cfg, w, job, reply, jitter, enqueuedAt, stage, kept);
            Counted(w'.tracks, w'.counters, w'.uncreated)
  {
    if IsOpen(w.tracks, job.attempt) {
      UndoingKeepsCounted(w.tracks, w.counters, w.uncreated, job.attempt, EffectOf(cfg, w, job, reply, jitter),
                          stage, w.clock);
    }
  }

  lemma CommitStepKeepsCounted(stream: seq<Message>, store: Store, w: World, fanout: int)
    requires FanoutsOk(stream, store, w.processed, w.fanouts) && IdsAreDrawn(w.tracks, w.fanouts, w.jobs, w.drawn)
    requires Counted(w.tracks, w.counters, w.uncreated)
    ensures var w' := CommitStep(w, fanout); Counted(w'.tracks, w'.counters, w'.uncreated)
  {
    if fanout in w.fanouts {
      var f := w.fanouts[fanout];
      assert FanoutOk(stream, store, f);
      NewRowsArePending(f.message.body, f.seen, f.rows);
      CommitKeepsCounted(w.tracks, w.counters, w.uncreated, f.rows);
    }
  }

  lemma AbortStepKeepsCounted(w: World, fanout: int, counted: bool)
    requires Counted(w.tracks, w.counters, w.uncreated)
    ensures var w' := AbortStep(w, fanout, counted); Counted(w'.tracks, w'.counters, w'.uncreated)
  {
    if fanout in w.fanouts {
      AbortKeepsCounted(w.tracks, w.counters, w.uncreated, w.fanouts[fanout].rows);
    }
  }

  lemma ClosingActionKeepsCounted(cfg: Settings, stream: seq<Message>, store: Store, w: World, a: Delivery.Action)
    requires FanoutsOk(stream, store, w.processed, w.fanouts) && IdsAreDrawn(w.tracks, w.fanouts, w.jobs, w.drawn)
    requires Counted(w.tracks, w.counters, w.uncreated) && (a.Commit? || a.Abort?)
    ensures var w' := Delivery.Step(cfg, stream, store, w, a); Counted(w'.tracks, w'.counters, w'.uncreated)
  {
    if a.Commit? {
      CommitStepKeepsCounted(stream, store, w, a.fanout);
    } else {
      AbortStepKeepsCounted(w, a.fanout, a.counted);
    }
  }

  lemma WorkActionKeepsCounted(cfg: Settings, stream: seq<Message>, store: Store, w: World, a: Delivery.Action)
    requires Counted(w.tracks, w.counters, w.uncreated) && a.Work?
    ensures var w' := Delivery.Step(cfg, stream, store, w, a); Counted(w'.tracks, w'.counters, w'.uncreated)
  {
    WorkKeepsCounted(cfg, w, a.job, a.reply, a.jitter, a.enqueuedAt);
  }

  lemma RaiseActionKeepsCounted(cfg: Settings, stream: seq<Message>, store: Store, w: World, a: Delivery.Action)
    requires Counted(w.tracks, w.counters, w.uncreated) && a.Raise?
    ensures var w' := Delivery.Step(cfg, stream, store, w, a); Counted(w'.tracks, w'.counters, w'.uncreated)
  {
    RaiseKeepsCounted(cfg, w, a.job, a.reply, a.jitter, a.enqueuedAt, a.stage, a.kept);
  }

  lemma StepKeepsCounted(cfg: Settings, stream: seq<Message>, store: Store, w: World, a: Delivery.Action)
    requires FanoutsOk(stream, store, w.processed, w.fanouts) && IdsAreDrawn(w.tracks, w.fanouts, w.jobs, w.drawn)
    requires Counted(w.tracks, w.counters, w.uncreated)
    ensures var w' := Delivery.Step(cfg, stream, store, w, a); Counted(w'.tracks, w'.counters, w'.uncreated)
  {
    if a.Commit? || a.Abort? {
      ClosingActionKeepsCounted(cfg, stream, store, w, a);
    } else if a.Work? {
      WorkActionKeepsCounted(cfg, stream, store, w, a);
    } else if a.Raise? {
      RaiseActionKeepsCounted(cfg, stream, store, w, a);
    } else {
      OthersCountNothing(cfg, stream, store, w, a);
    }
  }

  lemma OthersCountNothing(cfg: Settings, stream: seq<Message>, store: Store, w: World, a: Delivery.Action)
    requires !a.Commit? && !a.Abort? && !a.Work? && !a.Raise?
    ensures var w' := Delivery.Step(cfg, stream, store, w, a);
            w'.tracks == w.tracks && w'.counters == w.counters && w'.uncreated == w.uncreated
  {
    if a.FetchPage? {
      FetchPageMovesNothing(cfg, store, w, a.fanout, a.ids);
    }
  }
}
