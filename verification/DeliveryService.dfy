/** The delivery service's tables and queue as the consumer and the workers update them: one whole
    fan-out per method call, and one job per method call. */
module DeliveryService {
  import opened Options
  import opened Attempts
  import opened Channels
  import opened Subscriptions
  import opened Notifications
  import opened Delivery

  /** How the handling of a message ends; an aborted one has raised and is redelivered. */
  datatype Outcome = Processed | AlreadyProcessed | Aborted

  /** The ids drawn one after the other. */
  function Fresh(from: int, n: nat): (ids: seq<int>)
    ensures |ids| == n
  {
    seq(n, i requires 0 <= i < n => from + i)
  }

  predicate KeyTaken(attempts: map<int, Track>, key: (int, int, string)) {
    exists id :: id in attempts && AttemptKey(attempts[id].row) == key
  }

  /** The inserts meet neither the channel check nor the unique constraint. */
  predicate CanInsert(attempts: map<int, Track>, body: Body, targets: seq<Target>) {
    && (forall i :: 0 <= i < |targets| ==>
          && targets[i].channel in ALLOWED
          && !KeyTaken(attempts, AttemptKey(ToAttempt(body, targets[i]))))
    && (forall i, j :: 0 <= i < j < |targets| ==>
          AttemptKey(ToAttempt(body, targets[i])) != AttemptKey(ToAttempt(body, targets[j])))
  }

  /** What a fan-out has done so far: its uncommitted rows, their count by channel, and the enqueued jobs. */
  datatype Draft = Draft(rows: map<int, Attempt>, created: map<string, nat>, nextId: int, jobs: multiset<Job>)

  /** Where an open fan-out stands after some targets. */
  ghost predicate Progress(body: Body, from: int, now: int, targets: seq<Target>, d: Draft) {
    && d.nextId == from + |targets|
    && d.rows == NewRows(body, targets, Fresh(from, |targets|))
    && d.jobs == SendJobs(Fresh(from, |targets|), now)
    && (forall id :: id in d.rows ==> from <= id < d.nextId)
    && (forall c :: Get(d.created, c) == |OfChannel(d.rows, c)|)
    && TakesTargets(body, targets, d.rows)
  }

  ghost predicate TakesTargets(body: Body, targets: seq<Target>, rows: map<int, Attempt>) {
    forall key :: TakenBy(rows, key) <==> Targeted(body, targets, key)
  }

  predicate Targeted(body: Body, targets: seq<Target>, key: (int, int, string)) {
    exists i :: 0 <= i < |targets| && AttemptKey(ToAttempt(body, targets[i])) == key
  }

  /** The draft with one more attempt. */
  function Add(d: Draft, a: Attempt, now: int): Draft {
    Draft(d.rows[d.nextId := a], d.created[a.channel := Get(d.created, a.channel) + 1], d.nextId + 1,
          d.jobs + multiset{SendJob(d.nextId, now)})
  }

  lemma EmptyProgress(body: Body, from: int, now: int)
    ensures Progress(body, from, now, [], Draft(map[], map[], from, multiset{}))
  {
    forall c ensures |OfChannel(map[], c)| == 0 {
      assert OfChannel(map[], c) == {};
    }
  }

  lemma FreshAppend(from: int, n: nat)
    ensures Fresh(from, n + 1) == Fresh(from, n) + [from + n]
  {
  }

  lemma SendJobsAppend(ids: seq<int>, id: int, due: int)
    ensures SendJobs(ids + [id], due) == SendJobs(ids, due) + multiset{SendJob(id, due)}
  {
    var jobs := seq(|ids|, i requires 0 <= i < |ids| => SendJob(ids[i], due));
    var all := ids + [id];
    assert seq(|all|, i requires 0 <= i < |all| => SendJob(all[i], due)) == jobs + [SendJob(id, due)];
  }

  lemma OfChannelAppend(rows: map<int, Attempt>, id: int, a: Attempt, c: string)
    requires id !in rows
    ensures |OfChannel(rows[id := a], c)| == |OfChannel(rows, c)| + if a.channel == c then 1 else 0
  {
    var before, after := OfChannel(rows, c), OfChannel(rows[id := a], c);
    assert forall i :: i in after <==> i in before || (i == id && a.channel == c);
    assert after == if a.channel == c then before + {id} else before;
  }

  lemma TargetedAppends(body: Body, targets: seq<Target>, t: Target, key: (int, int, string))
    ensures Targeted(body, targets + [t], key)
            <==> Targeted(body, targets, key) || AttemptKey(ToAttempt(body, t)) == key
  {
    var all := targets + [t];
    if i :| 0 <= i < |targets| && AttemptKey(ToAttempt(body, targets[i])) == key {
      assert all[i] == targets[i];
    }
    assert all[|targets|] == t;
  }

  lemma CountsAppend(d: Draft, a: Attempt, now: int)
    requires d.nextId !in d.rows && forall c :: Get(d.created, c) == |OfChannel(d.rows, c)|
    ensures forall c :: Get(Add(d, a, now).created, c) == |OfChannel(Add(d, a, now).rows, c)|
  {
    forall c ensures Get(Add(d, a, now).created, c) == |OfChannel(Add(d, a, now).rows, c)| {
      OfChannelAppend(d.rows, d.nextId, a, c);
    }
  }

  lemma ProgressAppends(body: Body, from: int, now: int, targets: seq<Target>, t: Target, d: Draft)
    requires Progress(body, from, now, targets, d)
    ensures Progress(body, from, now, targets + [t], Add(d, ToAttempt(body, t), now))
  {
    var a, all := ToAttempt(body, t), targets + [t];
    var d' := Add(d, a, now);
    FreshAppend(from, |targets|);
    SendJobsAppend(Fresh(from, |targets|), d.nextId, now);
    assert all[..|targets|] == targets && Fresh(from, |all|)[..|targets|] == Fresh(from, |targets|);
    CountsAppend(d, a, now);
    forall key ensures TakenBy(d'.rows, key) <==> Targeted(body, all, key) {
      TakenAppends(d.rows, d.nextId, a, key);
      TargetedAppends(body, targets, t, key);
    }
  }

  lemma TakenAppends(rows: map<int, Attempt>, id: int, a: Attempt, key: (int, int, string))
    requires id !in rows
    ensures TakenBy(rows[id := a], key) <==> TakenBy(rows, key) || AttemptKey(a) == key
  {
    var rows' := rows[id := a];
    if r :| r in rows && AttemptKey(rows[r]) == key {
      assert rows'[r] == rows[r];
    }
    assert rows'[id] == a;
  }

  /** One more insert succeeds exactly when it meets no constraint. */
  lemma CanInsertAppends(attempts: map<int, Track>, body: Body, targets: seq<Target>, t: Target)
    requires CanInsert(attempts, body, targets)
    ensures var key := AttemptKey(ToAttempt(body, t));
            CanInsert(attempts, body, targets + [t])
            <==> t.channel in ALLOWED && !KeyTaken(attempts, key) && !Targeted(body, targets, key)
  {
    var all, key := targets + [t], AttemptKey(ToAttempt(body, t));
    assert all[|targets|] == t;
    assert forall i :: 0 <= i < |targets| ==> all[i] == targets[i];
    if Targeted(body, targets, key) {
      var i :| 0 <= i < |targets| && AttemptKey(ToAttempt(body, targets[i])) == key;
      assert AttemptKey(ToAttempt(body, all[i])) == AttemptKey(ToAttempt(body, all[|targets|]));
    }
  }

  lemma CanInsertPrefix(attempts: map<int, Track>, body: Body, some: seq<Target>, all: seq<Target>)
    requires some <= all && CanInsert(attempts, body, all)
    ensures CanInsert(attempts, body, some)
  {
  }

  lemma SupportedPrefix(cfg: Settings, sub: Subscriber, channels: seq<string>, k: nat)
    requires k <= |channels|
    ensures Supported(cfg, sub, channels[..k]) <= Supported(cfg, sub, channels)
    decreases |channels| - k
  {
    if k < |channels| {
      SupportedPrefix(cfg, sub, channels, k + 1);
      assert channels[..k + 1][..k] == channels[..k];
    } else {
      assert channels[..k] == channels;
    }
  }

  /** What the k-th channel adds to the targets so far. */
  lemma SupportedNext(cfg: Settings, sub: Subscriber, done: seq<Target>, channels: seq<string>, k: nat)
    requires k < |channels|
    ensures done + Supported(cfg, sub, channels[..k + 1])
         == done + Supported(cfg, sub, channels[..k])
            + if channels[k] in cfg.channels then [Target(sub.user, channels[k], WindowOf(sub.prefs))] else []
    ensures done + Supported(cfg, sub, channels[..k + 1]) <= done + Supported(cfg, sub, channels)
  {
    assert channels[..k + 1][..k] == channels[..k];
    SupportedPrefix(cfg, sub, channels, k + 1);
  }

  lemma BlockedPrefix(attempts: map<int, Track>, body: Body, some: seq<Target>, all: seq<Target>)
    requires some <= all && !CanInsert(attempts, body, some)
    ensures !CanInsert(attempts, body, all)
  {
    if CanInsert(attempts, body, all) {
      CanInsertPrefix(attempts, body, some, all);
    }
  }

  lemma TargetsPrefix(cfg: Settings, items: seq<Subscriber>, i: nat)
    requires i <= |items|
    ensures TargetsOf(cfg, items[..i]) <= TargetsOf(cfg, items)
    decreases |items| - i
  {
    if i < |items| {
      TargetsPrefix(cfg, items, i + 1);
      assert items[..i + 1][..i] == items[..i];
    } else {
      assert items[..i] == items;
    }
  }

  lemma AcksAppend(messages: seq<Message>, acks: seq<bool>, ack: bool)
    requires |acks| < |messages|
    ensures (set i | 0 <= i < |acks| + 1 && (acks + [ack])[i] :: messages[i].event)
         == (set i | 0 <= i < |acks| && acks[i] :: messages[i].event) + if ack then {messages[|acks|].event} else {}
  {
    var all, m := acks + [ack], |acks|;
    var before := set i | 0 <= i < m && acks[i] :: messages[i].event;
    var after := set i | 0 <= i < m + 1 && all[i] :: messages[i].event;
    forall e ensures e in after <==> e in before || (ack && e == messages[m].event) {
      if e in before {
        var i :| 0 <= i < m && acks[i] && messages[i].event == e;
        assert all[i];
      }
      if ack {
        assert all[m] && messages[m].event in after;
      }
    }
  }

  function OutcomeOf(cfg: Settings, attempts: map<int, Track>, processed: set<int>, message: Message,
                     stores: seq<Store>): Outcome
    requires cfg.pageLimit >= 1
  {
    var scan := ScanSubscribers(stores, message.body.topic, cfg.pageLimit, None);
    if message.event in processed then
      AlreadyProcessed
    else if scan.ending.Finished? && CanInsert(attempts, message.body, TargetsOf(cfg, scan.items)) then
      Processed
    else
      Aborted
  }

  /** The tables and the queue at one moment. */
  datatype Snapshot = Snapshot(
    attempts: map<int, Track>, processed: set<int>, jobs: multiset<Job>, counters: Counters, nextId: int)

  /** Ids are drawn upwards: neither an attempt nor a job, orphaned ones included, has an id still to come. */
  ghost predicate IdsBelow(s: Snapshot) {
    && (forall id :: id in s.attempts ==> id < s.nextId)
    && (forall j: Job :: j in s.jobs ==> j.attempt < s.nextId)
  }

  /** One attempt per target, all new, one job and one count for each, and the processed event. */
  ghost predicate FannedOut(s: Snapshot, s': Snapshot, message: Message, targets: seq<Target>, now: int) {
    var ids := Fresh(s.nextId, |targets|);
    var rows := NewRows(message.body, targets, ids);
    && rows.Keys !! s.attempts.Keys
    && s'.attempts == s.attempts + ToTracks(rows)
    && s'.processed == s.processed + {message.event}
    && s'.jobs == s.jobs + SendJobs(ids, now)
    && s'.nextId == s.nextId + |targets|
    && s'.counters == s.counters.(created := s'.counters.created)
    && forall c :: Get(s'.counters.created, c) == Get(s.counters.created, c) + |OfChannel(rows, c)|
  }

  /** What the handling of a message leaves: everything of a fan-out that goes through, under ids that no
      attempt has; nothing for an event seen before; and of one that raises only jobs, for ids that no
      attempt has or will have. */
  ghost predicate Handled(cfg: Settings, s: Snapshot, s': Snapshot, message: Message, stores: seq<Store>, now: int)
    requires cfg.pageLimit >= 1
  {
    match OutcomeOf(cfg, s.attempts, s.processed, message, stores)
    case AlreadyProcessed => s' == s
    case Processed =>
      FannedOut(s, s', message,
                TargetsOf(cfg, ScanSubscribers(stores, message.body.topic, cfg.pageLimit, None).items), now)
    case Aborted =>
      && s' == s.(jobs := s'.jobs, nextId := s'.nextId)
      && s.nextId <= s'.nextId
      && s'.jobs == s.jobs + SendJobs(Fresh(s.nextId, s'.nextId - s.nextId), now)
  }

  lemma HandlingKeepsIdsBelow(cfg: Settings, s: Snapshot, s': Snapshot, message: Message, stores: seq<Store>, now: int)
    requires cfg.pageLimit >= 1 && IdsBelow(s) && Handled(cfg, s, s', message, stores, now)
    ensures IdsBelow(s')
  {
    var n := s'.nextId - s.nextId;
    match OutcomeOf(cfg, s.attempts, s.processed, message, stores) {
      case AlreadyProcessed =>
      case Processed =>
        var targets := TargetsOf(cfg, ScanSubscribers(stores, message.body.topic, cfg.pageLimit, None).items);
        FreshRowsAreAbove(message.body, targets, s.nextId);
        FreshJobsAreBelow(s.jobs, s.nextId, n, now);
      case Aborted =>
        FreshJobsAreBelow(s.jobs, s.nextId, n, now);
    }
  }

  lemma CommittedIsFannedOut(s: Snapshot, s': Snapshot, message: Message, targets: seq<Target>, now: int, d: Draft)
    requires IdsBelow(s)
    requires d.nextId == s.nextId + |targets|
    requires d.rows == NewRows(message.body, targets, Fresh(s.nextId, |targets|))
    requires d.jobs == SendJobs(Fresh(s.nextId, |targets|), now)
    requires forall c :: Get(d.created, c) == |OfChannel(d.rows, c)|
    requires s' == Snapshot(s.attempts + ToTracks(d.rows), s.processed + {message.event}, s.jobs + d.jobs,
                            s.counters.(created := s'.counters.created), d.nextId)
    requires forall c :: Get(s'.counters.created, c) == Get(s.counters.created, c) + Get(d.created, c)
    ensures FannedOut(s, s', message, targets, now)
  {
    FreshRowsAreAbove(message.body, targets, s.nextId);
    forall id | id in d.rows ensures id !in s.attempts {
      assert id in NewRows(message.body, targets, Fresh(s.nextId, |targets|));
    }
    forall c ensures Get(s'.counters.created, c) == Get(s.counters.created, c) + |OfChannel(d.rows, c)| {
      assert Get(s'.counters.created, c) == Get(s.counters.created, c) + Get(d.created, c);
    }
  }

  lemma AbortedIsHandled(cfg: Settings, s: Snapshot, s': Snapshot, message: Message, stores: seq<Store>, now: int,
                         n: nat)
    requires cfg.pageLimit >= 1 && OutcomeOf(cfg, s.attempts, s.processed, message, stores).Aborted?
    requires s' == s.(jobs := s.jobs + SendJobs(Fresh(s.nextId, n), now), nextId := s.nextId + n)
    ensures Handled(cfg, s, s', message, stores, now)
  {
    assert s'.nextId - s.nextId == n;
  }

  /** The message has been handled, and acknowledged unless its handling raised. */
  ghost predicate HandledAs(cfg: Settings, s: Snapshot, s': Snapshot, message: Message, stores: seq<Store>, now: int,
                            ack: bool)
    requires cfg.pageLimit >= 1
  {
    && Handled(cfg, s, s', message, stores, now)
    && (ack <==> !OutcomeOf(cfg, s.attempts, s.processed, message, stores).Aborted?)
  }

  ghost predicate IsTrace(cfg: Settings, trace: seq<Snapshot>, messages: seq<Message>, pages: seq<seq<Store>>, now: int,
                          acks: seq<bool>)
    requires cfg.pageLimit >= 1 && |acks| <= |messages| == |pages|
  {
    && |trace| == |acks| + 1
    && forall i :: 0 <= i < |acks| ==> HandledAt(cfg, trace, messages, pages, now, acks, i)
  }

  ghost predicate HandledAt(cfg: Settings, trace: seq<Snapshot>, messages: seq<Message>, pages: seq<seq<Store>>,
                            now: int, acks: seq<bool>, i: nat)
    requires cfg.pageLimit >= 1 && i < |acks| && i + 1 < |trace| && i < |messages| && i < |pages|
  {
    HandledAs(cfg, trace[i], trace[i + 1], messages[i], pages[i], now, acks[i])
  }

  lemma LongerHandlesAlike(cfg: Settings, trace: seq<Snapshot>, longer: seq<Snapshot>, messages: seq<Message>,
                           pages: seq<seq<Store>>, now: int, acks: seq<bool>, all: seq<bool>, i: nat)
    requires cfg.pageLimit >= 1 && trace <= longer && acks <= all
    requires i < |acks| && i + 1 < |trace| && i < |messages| && i < |pages|
    ensures HandledAt(cfg, longer, messages, pages, now, all, i) == HandledAt(cfg, trace, messages, pages, now, acks, i)
  {
    assert longer[i] == trace[i] && longer[i + 1] == trace[i + 1] && all[i] == acks[i];
  }

  lemma TraceAppends(cfg: Settings, trace: seq<Snapshot>, messages: seq<Message>, pages: seq<seq<Store>>, now: int,
                     acks: seq<bool>, s': Snapshot, ack: bool)
    requires cfg.pageLimit >= 1 && |acks| < |messages| == |pages|
    requires IsTrace(cfg, trace, messages, pages, now, acks)
    requires HandledAs(cfg, trace[|acks|], s', messages[|acks|], pages[|acks|], now, ack)
    ensures IsTrace(cfg, trace + [s'], messages, pages, now, acks + [ack])
  {
    var longer, all := trace + [s'], acks + [ack];
    assert longer[|acks|] == trace[|acks|] && longer[|acks| + 1] == s' && all[|acks|] == ack;
    forall i | 0 <= i < |acks| ensures HandledAt(cfg, longer, messages, pages, now, all, i) {
      LongerHandlesAlike(cfg, trace, longer, messages, pages, now, acks, all, i);
      assert HandledAt(cfg, trace, messages, pages, now, acks, i);
    }
  }

  lemma HandlingMarks(cfg: Settings, s: Snapshot, s': Snapshot, message: Message, stores: seq<Store>, now: int)
    requires cfg.pageLimit >= 1 && Handled(cfg, s, s', message, stores, now)
    ensures var aborted := OutcomeOf(cfg, s.attempts, s.processed, message, stores).Aborted?;
            && s'.processed == s.processed + (if aborted then {} else {message.event})
            && (message.event in s.processed ==> !aborted)
  {
  }

  /** Over a batch the processed events grow by the acknowledged ones, and what was processed before is
      acknowledged. */
  lemma {:induction false} TraceMarks(cfg: Settings, trace: seq<Snapshot>, messages: seq<Message>,
                                      pages: seq<seq<Store>>, now: int, acks: seq<bool>)
    requires cfg.pageLimit >= 1 && |acks| <= |messages| == |pages|
    requires IsTrace(cfg, trace, messages, pages, now, acks)
    ensures trace[|acks|].processed
            == trace[0].processed + set i | 0 <= i < |acks| && acks[i] :: messages[i].event
    ensures forall i :: 0 <= i < |acks| && messages[i].event in trace[0].processed ==> acks[i]
    decreases |acks|
  {
    if acks != [] {
      var m := |acks| - 1;
      assert HandledAt(cfg, trace, messages, pages, now, acks, m);
      var before, some := trace[..m + 1], acks[..m];
      forall i | 0 <= i < m ensures HandledAt(cfg, before, messages, pages, now, some, i) {
        assert HandledAt(cfg, trace, messages, pages, now, acks, i);
      }
      TraceMarks(cfg, before, messages, pages, now, some);
      HandlingMarks(cfg, trace[m], trace[m + 1], messages[m], pages[m], now);
      AcksAppend(messages, some, acks[m]);
      assert some + [acks[m]] == acks;
    }
  }

  lemma FreshJobsAreBelow(jobs: multiset<Job>, from: int, n: nat, now: int)
    requires forall j: Job :: j in jobs ==> j.attempt < from
    ensures forall j: Job :: j in jobs + SendJobs(Fresh(from, n), now) ==> j.attempt < from + n
  {
    var ids := Fresh(from, n);
    var more := seq(|ids|, i requires 0 <= i < |ids| => SendJob(ids[i], now));
    forall j: Job | j in more ensures j.attempt < from + n {
      var i :| 0 <= i < |more| && more[i] == j;
    }
  }

  lemma {:induction false} FreshRowsAreAbove(body: Body, targets: seq<Target>, from: int)
    ensures forall id :: id in NewRows(body, targets, Fresh(from, |targets|)) ==> from <= id < from + |targets|
    decreases |targets|
  {
    if targets != [] {
      var last := |targets| - 1;
      assert Fresh(from, |targets|)[..last] == Fresh(from, last);
      FreshRowsAreAbove(body, targets[..last], from);
    }
  }

  /** What an execution does to the attempt, if there is one. */
  function EffectOn(cfg: Settings, attempts: map<int, Track>, id: int, now: int, reply: Attempts.Reply,
                    jitter: nat): Effect
  {
    if id in attempts then Decide(cfg, attempts[id].row, now, reply, jitter) else Skip
  }

  /** The table after an execution that has committed or, with a fault, was rolled back. */
  function AfterExecution(attempts: map<int, Track>, id: int, effect: Effect, fault: Option<Stage>, now: int)
      : map<int, Track>
  {
    match fault
    case None => if id in attempts then attempts[id := Apply(attempts[id], effect, now)] else attempts
    case Some(stage) =>
      if IsOpen(attempts, id) then attempts[id := Rollback(attempts[id], effect, stage, now)] else attempts
  }

  /** The effect that the queue sees. */
  function Enqueued(effect: Effect, fault: Option<Stage>): Effect {
    if fault.None? || fault.value.AtCommit? then effect else Skip
  }

  predicate IsCountedBy(fault: Option<Stage>) {
    fault.None? || fault.value.IsCounted()
  }

  /** The queue after a job, which has been taken off unless it is kept. */
  function AfterQueue(jobs: multiset<Job>, job: Job, effect: Effect, now: int, enqueuedAt: int, fault: Option<Stage>,
                      kept: bool): multiset<Job>
  {
    (if fault.Some? && kept then jobs else jobs - multiset{job})
    + if fault.None? && job.RetryJob?
      then multiset{SendJob(job.attempt, enqueuedAt)}
      else FollowUp(job.attempt, Enqueued(effect, fault), now, enqueuedAt)
  }

  function AfterCounting(counters: Counters, effect: Effect, fault: Option<Stage>): Counters {
    if IsCountedBy(fault) then Count(counters, effect) else counters
  }

  lemma WorkIsAfterJob(cfg: Settings, w: World, job: Job, reply: Attempts.Reply, jitter: nat, enqueuedAt: int)
    requires CanWork(cfg, w, job, jitter, enqueuedAt)
    ensures var effect := EffectOf(cfg, w, job, reply, jitter);
            WorkStep(cfg, w, job, reply, jitter, enqueuedAt)
            == w.(clock := enqueuedAt,
                  tracks := AfterExecution(w.tracks, job.attempt, effect, None, w.clock),
                  jobs := AfterQueue(w.jobs, job, effect, w.clock, enqueuedAt, None, false),
                  counters := AfterCounting(w.counters, effect, None))
  {
    var id, rest := job.attempt, w.jobs - multiset{job};
    assert id in w.tracks ==> w.tracks[id := Apply(w.tracks[id], Skip, w.clock)] == w.tracks;
    assert rest + multiset{} == rest;
  }

  lemma RaiseIsAfterJob(cfg: Settings, w: World, job: Job, reply: Attempts.Reply, jitter: nat, enqueuedAt: int,
                        stage: Stage, kept: bool)
    requires CanWork(cfg, w, job, jitter, enqueuedAt) && w.stranded == {}
    ensures var effect := EffectOf(cfg, w, job, reply, jitter);
            RaiseStep(cfg, w, job, reply, jitter, enqueuedAt, stage, kept).(stranded := {})
            == w.(clock := enqueuedAt,
                  tracks := AfterExecution(w.tracks, job.attempt, effect, Some(stage), w.clock),
                  jobs := AfterQueue(w.jobs, job, effect, w.clock, enqueuedAt, Some(stage), kept),
                  counters := AfterCounting(w.counters, effect, Some(stage)))
  {
  }

  lemma AfterJobKeepsIdsBelow(s: Snapshot, s': Snapshot, job: Job, effect: Effect, now: int, enqueuedAt: int,
                              fault: Option<Stage>, kept: bool)
    requires IdsBelow(s) && job in s.jobs && s'.nextId == s.nextId
    requires s'.attempts == AfterExecution(s.attempts, job.attempt, effect, fault, now)
    requires s'.jobs == AfterQueue(s.jobs, job, effect, now, enqueuedAt, fault, kept)
    ensures IdsBelow(s')
  {
    assert s'.attempts.Keys == s.attempts.Keys;
    forall j: Job | j in s'.jobs ensures j.attempt < s'.nextId {
      assert j in s.jobs || j.attempt == job.attempt;
    }
  }

  class DeliveryDb {
    const cfg: Settings
    var attempts: map<int, Track>
    var processed: set<int>
    var jobs: multiset<Job>
    var counters: Counters
    var nextId: int

    constructor (cfg: Settings)
      ensures this.cfg == cfg && Valid()
      ensures attempts == map[] && processed == {} && jobs == multiset{} && counters == Counters(map[], 0, 0, 0)
    {
      this.cfg := cfg;
      attempts, processed, jobs, counters, nextId := map[], {}, multiset{}, Counters(map[], 0, 0, 0), 0;
    }

    /** create_or_get and the enqueue of the job, inside the open transaction. */
    method CreateAttempt(body: Body, t: Target, now: int, d: Draft, ghost from: int, ghost done: seq<Target>)
        returns (ok: bool, d': Draft)
      requires Progress(body, from, now, done, d) && CanInsert(attempts, body, done)
      ensures ok <==> CanInsert(attempts, body, done + [t])
      ensures if ok then Progress(body, from, now, done + [t], d') else d' == d
    {
      CanInsertAppends(attempts, body, done, t);
      ProgressAppends(body, from, now, done, t, d);
      var a := NewAttempt(body.note, t.user, t.channel, body.payload, t.window);
      if a.channel !in ALLOWED || KeyTaken(attempts, AttemptKey(a)) || TakenBy(d.rows, AttemptKey(a)) {
        return false, d;
      }
      return true, Draft(d.rows[d.nextId := a], d.created[a.channel := Get(d.created, a.channel) + 1], d.nextId + 1,
                         d.jobs + multiset{SendJob(d.nextId, now)});
    }

    /** The inner loop of the fan-out, over the channels of one subscriber. */
    method CreateAttempts(body: Body, sub: Subscriber, now: int, d: Draft, ghost from: int, ghost done: seq<Target>)
        returns (ok: bool, d': Draft, ghost reached: seq<Target>)
      requires Progress(body, from, now, done, d) && CanInsert(attempts, body, done)
      ensures Progress(body, from, now, reached, d')
      ensures ok <==> CanInsert(attempts, body, done + TargetsFor(cfg, sub))
      ensures ok ==> reached == done + TargetsFor(cfg, sub)
    {
      var channels := NormalizeChannels(sub.prefs.channels);
      var timezone := if sub.prefs.window.timezone != "" then Strip(sub.prefs.window.timezone) else "UTC";
      ok, d', reached := true, d, done;
      assert done + Supported(cfg, sub, channels[..0]) == done;
      for k := 0 to |channels|
        invariant reached == done + Supported(cfg, sub, channels[..k])
        invariant Progress(body, from, now, reached, d') && CanInsert(attempts, body, reached)
      {
        SupportedNext(cfg, sub, done, channels, k);
        if channels[k] in cfg.channels {
          var t := Target(sub.user, channels[k], sub.prefs.window.(timezone := timezone));
          ok, d' := CreateAttempt(body, t, now, d', from, reached);
          if !ok {
            BlockedPrefix(attempts, body, reached + [t], done + TargetsFor(cfg, sub));
            return;
          }
          reached := reached + [t];
        }
      }
      assert channels[..|channels|] == channels;
    }

    /** The outer loop of the fan-out, over the subscribers. */
    method CreateAllAttempts(body: Body, items: seq<Subscriber>, now: int, from: int)
        returns (ok: bool, d: Draft, ghost reached: seq<Target>)
      ensures d.nextId == from + |reached| && d.jobs == SendJobs(Fresh(from, |reached|), now)
      ensures d.rows == NewRows(body, reached, Fresh(from, |reached|))
      ensures forall c :: Get(d.created, c) == |OfChannel(d.rows, c)|
      ensures ok <==> CanInsert(attempts, body, TargetsOf(cfg, items))
      ensures ok ==> reached == TargetsOf(cfg, items)
    {
      ok, d, reached := true, Draft(map[], map[], from, multiset{}), [];
      EmptyProgress(body, from, now);
      for i := 0 to |items|
        invariant reached == TargetsOf(cfg, items[..i])
        invariant Progress(body, from, now, reached, d) && CanInsert(attempts, body, reached)
      {
        assert items[..i + 1][..i] == items[..i];
        TargetsPrefix(cfg, items, i + 1);
        ghost var next := TargetsOf(cfg, items[..i + 1]);
        ok, d, reached := CreateAttempts(body, items[i], now, d, from, reached);
        if !ok {
          BlockedPrefix(attempts, body, next, TargetsOf(cfg, items));
          return;
        }
      }
      assert items[..|items|] == items;
    }

    function Now(): Snapshot
      reads this
    {
      Snapshot(attempts, processed, jobs, counters, nextId)
    }

    ghost predicate Valid()
      reads this
    {
      IdsBelow(Now())
    }

    /** The i-th page is read from the i-th store. A fan-out inserts one attempt per target, enqueues one
        job per attempt and counts them by channel; or it has seen the event before; or it raises, and
        then everything but the enqueued jobs is rolled back. */
    method ProcessNotificationCreated(message: Message, stores: seq<Store>, now: int) returns (outcome: Outcome)
      requires Valid() && cfg.pageLimit >= 1
      modifies this`attempts, this`processed, this`jobs, this`counters, this`nextId
      ensures Valid()
      ensures outcome == OutcomeOf(cfg, old(attempts), old(processed), message, stores)
      ensures Handled(cfg, old(Now()), Now(), message, stores, now)
    {
      ghost var before := Now();
      outcome := FanOut(message, stores, now);
      HandlingKeepsIdsBelow(cfg, before, Now(), message, stores, now);
    }

    method FanOut(message: Message, stores: seq<Store>, now: int) returns (outcome: Outcome)
      requires Valid() && cfg.pageLimit >= 1
      modifies this`attempts, this`processed, this`jobs, this`counters, this`nextId
      ensures outcome == OutcomeOf(cfg, old(attempts), old(processed), message, stores)
      ensures Handled(cfg, old(Now()), Now(), message, stores, now)
    {
      if message.event in processed {
        return AlreadyProcessed;
      }
      ghost var before := Now();
      var items, ending := IterSubscribers(stores, message.body.topic, cfg.pageLimit);
      var ok, d, reached := CreateAllAttempts(message.body, items, now, nextId);
      assert OutcomeOf(cfg, before.attempts, before.processed, message, stores)
          == if ok && ending == Finished then Processed else Aborted;
      jobs, nextId := jobs + d.jobs, d.nextId;
      if !ok || ending != Finished {
        AbortedIsHandled(cfg, before, Now(), message, stores, now, |reached|);
        return Aborted;
      }
      CommitFanout(message.event, d);
      CommittedIsFannedOut(before, Now(), message, reached, now, d);
      return Processed;
    }

    /** The end of the fan-out: its rows and the processed event become visible together. */
    method CommitFanout(event: int, d: Draft)
      modifies this`attempts, this`processed, this`counters
      ensures attempts == old(attempts) + ToTracks(d.rows) && processed == old(processed) + {event}
      ensures counters == old(counters).(created := counters.created)
      ensures forall c :: Get(counters.created, c) == Get(old(counters).created, c) + Get(d.created, c)
    {
      var totals := IncCreated(d.created);
      attempts := attempts + ToTracks(d.rows);
      processed := processed + {event};
      counters := counters.(created := totals);
    }

    /** One fetched batch of the consumer, message after message: a message is acknowledged when its
        handling returns, and left for redelivery when it raises. The trace are the tables in between. */
    method HandleMessages(messages: seq<Message>, pages: seq<seq<Store>>, now: int)
        returns (acks: seq<bool>, ghost trace: seq<Snapshot>)
      requires Valid() && cfg.pageLimit >= 1 && |pages| == |messages|
      modifies this`attempts, this`processed, this`jobs, this`counters, this`nextId
      ensures Valid()
      ensures |acks| == |messages| && IsTrace(cfg, trace, messages, pages, now, acks)
      ensures trace[0] == old(Now()) && trace[|messages|] == Now()
      ensures processed == old(processed) + set i | 0 <= i < |messages| && acks[i] :: messages[i].event
      ensures forall i :: 0 <= i < |messages| && messages[i].event in old(processed) ==> acks[i]
    {
      acks, trace := [], [Now()];
      for m := 0 to |messages|
        invariant Valid()
        invariant |acks| == m && IsTrace(cfg, trace, messages, pages, now, acks)
        invariant trace[0] == old(Now()) && trace[m] == Now()
      {
        var ack := HandleMessage(messages[m], pages[m], now);
        TraceAppends(cfg, trace, messages, pages, now, acks, Now(), ack);
        acks, trace := acks + [ack], trace + [Now()];
      }
      TraceMarks(cfg, trace, messages, pages, now, acks);
    }

    method HandleMessage(message: Message, stores: seq<Store>, now: int) returns (ack: bool)
      requires Valid() && cfg.pageLimit >= 1
      modifies this`attempts, this`processed, this`jobs, this`counters, this`nextId
      ensures Valid()
      ensures HandledAs(cfg, old(Now()), Now(), message, stores, now, ack)
      ensures processed == old(processed) + (if ack then {message.event} else {})
      ensures message.event in old(processed) ==> ack
    {
      ghost var before := Now();
      var outcome := ProcessNotificationCreated(message, stores, now);
      HandlingMarks(cfg, before, Now(), message, stores, now);
      ack := outcome != Aborted;
    }

    /** execute_send in its transaction under the row lock. It may raise at some stage; then the row is as
        before, and what has been enqueued or counted by then stays. */
    method ExecuteSend(id: int, now: int, enqueuedAt: int, reply: Attempts.Reply, jitter: nat, fault: Option<Stage>)
      modifies this`attempts, this`jobs, this`counters
      ensures var effect := EffectOn(cfg, old(attempts), id, now, reply, jitter);
              && attempts == AfterExecution(old(attempts), id, effect, fault, now)
              && jobs == old(jobs) + FollowUp(id, Enqueued(effect, fault), now, enqueuedAt)
              && counters == AfterCounting(old(counters), effect, fault)
    {
      var before := attempts;
      PerformSend(id, now, enqueuedAt, reply, jitter, fault);
      if fault.Some? {
        RollBack(before, id, EffectOn(cfg, before, id, now, reply, jitter), fault.value, now);
      }
    }

    /** The statements of the transaction, up to the fault. */
    method PerformSend(id: int, now: int, enqueuedAt: int, reply: Attempts.Reply, jitter: nat, fault: Option<Stage>)
      modifies this`attempts, this`jobs, this`counters
      ensures var effect := EffectOn(cfg, old(attempts), id, now, reply, jitter);
              && (fault.None? ==> attempts == AfterExecution(old(attempts), id, effect, None, now))
              && jobs == old(jobs) + FollowUp(id, Enqueued(effect, fault), now, enqueuedAt)
              && counters == AfterCounting(old(counters), effect, fault)
    {
      if fault == Some(BeforeCall) || id !in attempts {
        return;
      }
      var a := attempts[id].row;
      if a.status.Sent? || a.status.Dead? || (a.nextRetryAt.Some? && a.nextRetryAt.value > now) {
        assert attempts[id := attempts[id]] == attempts;
        return;
      }
      SendDue(id, now, enqueuedAt, reply, jitter, fault);
    }

    /** The attempt is open and due: it is delayed by quiet hours, or the provider is called. */
    method SendDue(id: int, now: int, enqueuedAt: int, reply: Attempts.Reply, jitter: nat, fault: Option<Stage>)
      requires IsOpen(attempts, id) && fault != Some(BeforeCall)
      requires var plan := attempts[id].row.nextRetryAt; plan.Some? ==> plan.value <= now
      modifies this`attempts, this`jobs, this`counters
      ensures var effect := Decide(cfg, old(attempts)[id].row, now, reply, jitter);
              && (fault.None? ==> attempts == old(attempts)[id := Apply(old(attempts)[id], effect, now)])
              && jobs == old(jobs) + FollowUp(id, Enqueued(effect, fault), now, enqueuedAt)
              && counters == AfterCounting(old(counters), effect, fault)
    {
      var quietRetryAt := NextQuietHoursRetry(cfg, attempts[id].row.window, now);
      if quietRetryAt.Some? {
        assert Decide(cfg, attempts[id].row, now, reply, jitter) == Delay(quietRetryAt.value);
        DelayUntil(id, now, enqueuedAt, quietRetryAt.value, fault.Some? && !fault.value.AtCommit?);
        return;
      }
      CallProvider(id, now, enqueuedAt, reply, jitter, fault);
    }

    /** Out of quiet hours: the provider answers. */
    method CallProvider(id: int, now: int, enqueuedAt: int, reply: Attempts.Reply, jitter: nat, fault: Option<Stage>)
      requires id in attempts && fault != Some(BeforeCall)
      modifies this`attempts, this`jobs, this`counters
      ensures var effect := OnReply(cfg, old(attempts)[id].row, now, reply, jitter);
              && (fault.None? ==> attempts == old(attempts)[id := Apply(old(attempts)[id], effect, now)])
              && jobs == old(jobs) + FollowUp(id, Enqueued(effect, fault), now, enqueuedAt)
              && counters == AfterCounting(old(counters), effect, fault)
    {
      if fault == Some(AfterCall) {
        return;
      }
      match reply
      case Accepted => HandleSuccess(id, now, fault == Some(AfterCount));
      case Refused(code) => HandleRefusal(id, now, enqueuedAt, code, jitter, fault == Some(AfterCount));
    }

    /** Quiet hours: the attempt is planned for their end. It may raise before enqueueing. */
    method DelayUntil(id: int, now: int, enqueuedAt: int, until: int, raises: bool)
      requires id in attempts
      modifies this`attempts, this`jobs
      ensures !raises ==> attempts == old(attempts)[id := Apply(old(attempts)[id], Delay(until), now)]
      ensures jobs == old(jobs) + FollowUp(id, if raises then Skip else Delay(until), now, enqueuedAt)
    {
      var tr, delay := attempts[id], Max(until - now, 0);
      var a := tr.row.(status := Failed, errorCode := Some("quiet_hours"), nextRetryAt := Some(until));
      attempts := attempts[id := tr.(row := a)];
      if raises {
        return;
      }
      jobs := jobs + multiset{RetryJob(id, enqueuedAt + delay)};
    }

    /** The provider has accepted: the attempt is sent. It may raise after counting. */
    method HandleSuccess(id: int, now: int, raises: bool)
      requires id in attempts
      modifies this`attempts, this`counters
      ensures !raises ==> attempts == old(attempts)[id := Apply(old(attempts)[id], Deliver, now)]
      ensures counters == Count(old(counters), Deliver)
    {
      var tr := attempts[id];
      tr := tr.(row := tr.row.(status := Sent, errorCode := None, nextRetryAt := None),
                calls := tr.calls + [Attempts.Call(now, true)]);
      counters := counters.(sent := counters.sent + 1);
      if raises {
        return;
      }
      attempts := attempts[id := tr.(events := tr.events + [DeliverySucceeded(now)])];
    }

    /** The end of execute_send, after the provider has refused: dead, or failed and planned again. It may
        raise after counting. */
    method HandleRefusal(id: int, now: int, enqueuedAt: int, errorCode: Option<string>, jitter: nat, raises: bool)
      requires id in attempts
      modifies this`attempts, this`jobs, this`counters
      ensures var a := old(attempts)[id].row;
              var effect := OnReply(cfg, a, now, Attempts.Refused(errorCode), jitter);
              && (!raises ==> attempts == old(attempts)[id := Apply(old(attempts)[id], effect, now)])
              && jobs == old(jobs) + FollowUp(id, if raises then Skip else effect, now, enqueuedAt)
              && counters == Count(old(counters), effect)
    {
      var a := attempts[id].row;
      var nextAttemptNo := a.attemptNo + 1;
      var code := if errorCode.Some? && errorCode.value != "" then errorCode.value else "delivery_failed";
      if nextAttemptNo >= cfg.maxAttempts {
        BuryAttempt(id, now, code, raises);
        return;
      }
      var nextRetryAt := NextRetryAt(a, now, jitter);
      PlanRetry(id, now, enqueuedAt, nextRetryAt, code, raises);
    }

    /** The backoff, moved out of quiet hours. */
    method NextRetryAt(a: Attempt, now: int, jitter: nat) returns (nextRetryAt: int)
      ensures nextRetryAt == RetryAt(cfg, a, now, jitter)
    {
      var backoffRetryAt := now + BackoffDelay(cfg, a.attemptNo + 1, jitter) * SECOND;
      var quietRetryAt := NextQuietHoursRetry(cfg, a.window, backoffRetryAt);
      nextRetryAt := backoffRetryAt;
      if quietRetryAt.Some? && quietRetryAt.value > nextRetryAt {
        nextRetryAt := quietRetryAt.value;
      }
    }

    /** The last try was refused: the attempt is dead. */
    method BuryAttempt(id: int, now: int, code: string, raises: bool)
      requires id in attempts
      modifies this`attempts, this`counters
      ensures !raises ==> attempts == old(attempts)[id := Apply(old(attempts)[id], Bury(code), now)]
      ensures counters == Count(old(counters), Bury(code))
    {
      var tr := attempts[id];
      var a, calls := tr.row, tr.calls + [Attempts.Call(now, false)];
      a := a.(status := Dead, attemptNo := a.attemptNo + 1, errorCode := Some(code), nextRetryAt := None);
      counters := counters.(dead := counters.dead + 1);
      if raises {
        return;
      }
      attempts := attempts[id := tr.(row := a, calls := calls, events := tr.events + [DeliveryFailed(code, now)])];
    }

    /** A try is left: the attempt is planned again, with a deferred job. */
    method PlanRetry(id: int, now: int, enqueuedAt: int, nextRetryAt: int, code: string, raises: bool)
      requires id in attempts
      modifies this`attempts, this`jobs, this`counters
      ensures !raises ==> attempts == old(attempts)[id := Apply(old(attempts)[id], Retry(nextRetryAt, code), now)]
      ensures jobs == old(jobs) + FollowUp(id, if raises then Skip else Retry(nextRetryAt, code), now, enqueuedAt)
      ensures counters == Count(old(counters), Retry(nextRetryAt, code))
    {
      var tr := attempts[id];
      var a, calls := tr.row, tr.calls + [Attempts.Call(now, false)];
      var retryDelay := Max(nextRetryAt - now, 0);
      a := a.(status := Failed, attemptNo := a.attemptNo + 1, errorCode := Some(code),
              nextRetryAt := Some(nextRetryAt));
      counters := counters.(failed := counters.failed + 1);
      attempts := attempts[id := tr.(row := a, calls := calls)];
      if raises {
        return;
      }
      jobs := jobs + multiset{RetryJob(id, enqueuedAt + retryDelay)};
    }

    /** The database forgets what the transaction has written; only the history remembers an execution of
        an open attempt. */
    method RollBack(before: map<int, Track>, id: int, effect: Effect, stage: Stage, now: int)
      modifies this`attempts
      ensures attempts == AfterExecution(before, id, effect, Some(stage), now)
    {
      attempts := before;
      if id in before && !before[id].row.IsTerminal() {
        attempts := before[id := Rollback(before[id], effect, stage, now)];
      }
    }

    ghost function View(clock: int): World
      reads this
    {
      World(clock, processed, {}, {}, map[], attempts, jobs, counters, {}, [], map[], {})
    }

    /** One due job: retry_attempt enqueues the send job, a send job executes. If it raises, the queue
        forgets it, unless the worker itself has died. */
    method RunJob(job: Job, now: int, enqueuedAt: int, reply: Attempts.Reply, jitter: nat, fault: Option<Stage>,
                  kept: bool)
      requires Valid() && job in jobs && job.due <= now <= enqueuedAt && jitter <= Max(cfg.jitterMaxSeconds, 0)
      modifies this`attempts, this`jobs, this`counters
      ensures Valid()
      ensures fault.None? ==> View(enqueuedAt) == WorkStep(cfg, old(View(now)), job, reply, jitter, enqueuedAt)
      ensures fault.Some? ==>
        View(enqueuedAt)
        == RaiseStep(cfg, old(View(now)), job, reply, jitter, enqueuedAt, fault.value, kept).(stranded := {})
    {
      ghost var w, before := View(now), Now();
      ghost var effect := EffectOf(cfg, w, job, reply, jitter);
      TakeJob(job, now, enqueuedAt, reply, jitter, fault, kept);
      AfterJobKeepsIdsBelow(before, Now(), job, effect, now, enqueuedAt, fault, kept);
      if fault.None? {
        WorkIsAfterJob(cfg, w, job, reply, jitter, enqueuedAt);
      } else {
        RaiseIsAfterJob(cfg, w, job, reply, jitter, enqueuedAt, fault.value, kept);
      }
    }

    method TakeJob(job: Job, now: int, enqueuedAt: int, reply: Attempts.Reply, jitter: nat, fault: Option<Stage>,
                   kept: bool)
      modifies this`attempts, this`jobs, this`counters
      ensures var effect := if job.SendJob?
                            then EffectOn(cfg, old(attempts), job.attempt, now, reply, jitter) else Skip;
              && attempts == AfterExecution(old(attempts), job.attempt, effect, fault, now)
              && jobs == AfterQueue(old(jobs), job, effect, now, enqueuedAt, fault, fault.Some? && kept)
              && counters == AfterCounting(old(counters), effect, fault)
    {
      if fault.None? || !kept {
        jobs := jobs - multiset{job};
      }
      match job
      case SendJob(attempt, _) =>
        ExecuteSend(attempt, now, enqueuedAt, reply, jitter, fault);
        assert jobs
               == AfterQueue(old(jobs), job, EffectOn(cfg, old(attempts), attempt, now, reply, jitter), now, enqueuedAt,
                                  fault, fault.Some? && kept);
      case RetryJob(attempt, _) =>
        RetryAttempt(attempt, now, enqueuedAt, fault);
        assert jobs == AfterQueue(old(jobs), job, Skip, now, enqueuedAt, fault, fault.Some? && kept);
    }

    /** retry_attempt only enqueues the send job; a fault comes before that. */
    method RetryAttempt(id: int, now: int, enqueuedAt: int, fault: Option<Stage>)
      modifies this`attempts, this`jobs
      ensures attempts == AfterExecution(old(attempts), id, Skip, fault, now)
      ensures jobs == old(jobs) + if fault.None?
                                  then multiset{SendJob(id, enqueuedAt)}
                                  else FollowUp(id, Enqueued(Skip, fault), now, enqueuedAt)
      ensures AfterCounting(counters, Skip, fault) == counters
    {
      if fault.Some? {
        RollBack(attempts, id, Skip, fault.value, now);
        return;
      }
      assert id in attempts ==> attempts[id := attempts[id]] == attempts;
      jobs := jobs + multiset{SendJob(id, enqueuedAt)};
    }

    /** The loop over the per-channel counts. */
    method IncCreated(created: map<string, nat>) returns (totals: map<string, nat>)
      ensures forall c :: Get(totals, c) == Get(counters.created, c) + Get(created, c)
    {
      totals := counters.created;
      var todo := created.Keys;
      while todo != {}
        invariant todo <= created.Keys
        invariant forall c :: Get(totals, c) == Get(counters.created, c) + if c in todo then 0 else Get(created, c)
        decreases |todo|
      {
        var c :| c in todo;
        totals := totals[c := Get(totals, c) + created[c]];
        todo := todo - {c};
      }
    }
  }
}
