/** The delivery service as a state machine: the consumer and its open fan-out transactions, the
    attempts, and the job queue. A fan-out enqueues each send job while its transaction is still open,
    so a worker may run the job before the attempt is visible; an Action is one page of a fan-out, one
    transaction boundary, one acknowledgement or one job, which may raise at any stage. An action that is
    not enabled changes nothing. */
module Delivery {
  import opened Options
  import opened QuietHours
  import opened Attempts
  import opened Keyset
  import opened Channels
  import opened Subscriptions
  import opened Notifications

  datatype Job = SendJob(attempt: int, due: int) | RetryJob(attempt: int, due: int)

  /** An open fan-out: the message it handles, the subscriber keys it has read, where it continues,
      and the rows it has inserted. A constraint violation breaks the transaction. */
  datatype Fanout = Fanout(
    index: nat, message: Message, seen: seq<Key>, cursor: Option<Key>, done: bool, broken: bool,
    rows: map<int, Attempt>)

  datatype Counters = Counters(created: map<string, nat>, sent: nat, failed: nat, dead: nat)

  /** `finished` are the stream positions whose handling has returned and that may be acknowledged.
      The rest is history: the attempt ids drawn so far, the messages whose fan-out has committed, the
      rows that were counted as created and then rolled back, and the attempts that were left without a
      job, when they became visible or when a job raised. */
  datatype World = World(
    clock: int, processed: set<int>, finished: set<nat>, acked: set<nat>,
    fanouts: map<int, Fanout>, tracks: map<int, Track>, jobs: multiset<Job>, counters: Counters,
    drawn: set<int>, fanned: seq<Message>, uncreated: map<string, nat>, stranded: set<int>)

  datatype Action =
    | Advance(now: int)
    | Begin(fanout: int, index: nat)
    | Deduplicate(index: nat)
    | FetchPage(fanout: int, ids: seq<int>)
    | Commit(fanout: int)
    | Abort(fanout: int, counted: bool)
    | Ack(index: nat)
    | LoseAck(index: nat)
    | Work(job: Job, reply: Attempts.Reply, jitter: nat, enqueuedAt: int)
    | Raise(job: Job, reply: Attempts.Reply, jitter: nat, enqueuedAt: int, stage: Stage, kept: bool)
    | Duplicate(job: Job)

  function EmptyWorld(clock: int): World {
    World(clock, {}, {}, {}, map[], map[], multiset{}, Counters(map[], 0, 0, 0), {}, [], map[], {})
  }

  /* ---------- Fan-out ---------- */

  /** One attempt to create. */
  datatype Target = Target(user: int, channel: string, window: Window)

  function WindowOf(prefs: Preferences): Window {
    prefs.window.(timezone := if prefs.window.timezone != "" then Strip(prefs.window.timezone) else "UTC")
  }

  /** The supported ones of the subscriber's channels. */
  function Supported(cfg: Settings, sub: Subscriber, channels: seq<string>): seq<Target> {
    if channels == [] then
      []
    else
      var last := channels[|channels| - 1];
      Supported(cfg, sub, channels[..|channels| - 1])
      + if last in cfg.channels then [Target(sub.user, last, WindowOf(sub.prefs))] else []
  }

  function TargetsFor(cfg: Settings, sub: Subscriber): seq<Target> {
    Supported(cfg, sub, Normalize(sub.prefs.channels))
  }

  function TargetsOf(cfg: Settings, items: seq<Subscriber>): seq<Target> {
    if items == [] then
      []
    else
      TargetsOf(cfg, items[..|items| - 1]) + TargetsFor(cfg, items[|items| - 1])
  }

  function ToAttempt(body: Body, t: Target): Attempt {
    NewAttempt(body.note, t.user, t.channel, body.payload, t.window)
  }

  /** What the unique constraint on attempts compares. */
  function AttemptKey(a: Attempt): (int, int, string) {
    (a.note, a.user, a.channel)
  }

  /** The rows that the targets become, the i-th under the i-th drawn id. */
  function NewRows(body: Body, targets: seq<Target>, ids: seq<int>): map<int, Attempt>
    requires |targets| == |ids|
  {
    if ids == [] then
      map[]
    else
      var last := |ids| - 1;
      NewRows(body, targets[..last], ids[..last])[ids[last] := ToAttempt(body, targets[last])]
  }

  function SendJobs(ids: seq<int>, due: int): multiset<Job> {
    multiset(seq(|ids|, i requires 0 <= i < |ids| => SendJob(ids[i], due)))
  }

  predicate TakenBy(rows: map<int, Attempt>, key: (int, int, string)) {
    exists id :: id in rows && AttemptKey(rows[id]) == key
  }

  predicate Taken(w: World, key: (int, int, string)) {
    || (exists id :: id in w.tracks && AttemptKey(w.tracks[id].row) == key)
    || (exists f :: f in w.fanouts && TakenBy(w.fanouts[f].rows, key))
  }

  /** The inserts of a page violate no constraint: known channels, and no row twice. */
  predicate Insertable(w: World, rows: seq<Attempt>) {
    && (forall i :: 0 <= i < |rows| ==> rows[i].channel in ALLOWED && !Taken(w, AttemptKey(rows[i])))
    && (forall i, j :: 0 <= i < j < |rows| ==> AttemptKey(rows[i]) != AttemptKey(rows[j]))
  }

  function ToAttempts(body: Body, targets: seq<Target>): (rows: seq<Attempt>)
    ensures |rows| == |targets|
  {
    seq(|targets|, i requires 0 <= i < |targets| => ToAttempt(body, targets[i]))
  }

  predicate Busy(w: World, event: int) {
    exists f :: f in w.fanouts && w.fanouts[f].message.event == event
  }

  /** The insert into the processed events: it waits while another transaction inserts the same event. */
  function BeginStep(stream: seq<Message>, w: World, fanout: int, index: nat): World {
    if fanout in w.fanouts || index >= |stream| || stream[index].event in w.processed
       || Busy(w, stream[index].event) then
      w
    else
      w.(fanouts := w.fanouts[fanout := Fanout(index, stream[index], [], None, false, false, map[])])
  }

  predicate CanFetch(cfg: Settings, store: Store, w: World, fanout: int) {
    && fanout in w.fanouts
    && !w.fanouts[fanout].done && !w.fanouts[fanout].broken
    && cfg.pageLimit >= 1
    && w.fanouts[fanout].message.body.topic in store.topics
  }

  function NextListing(cfg: Settings, store: Store, f: Fanout): Listing
    requires cfg.pageLimit >= 1 && f.message.body.topic in store.topics
  {
    ListInternalSubscribers(store, f.message.body.topic, cfg.pageLimit, f.cursor).value
  }

  predicate FreshIds(w: World, ids: seq<int>) {
    Distinct(ids) && forall id :: id in ids ==> id !in w.drawn
  }

  function Fetched(cfg: Settings, f: Fanout, listing: Listing, ids: seq<int>): Fanout
    requires |ids| == |TargetsOf(cfg, listing.items)|
  {
    f.(seen := f.seen + KeysOf(listing.items), cursor := listing.next, done := listing.next.None?,
       rows := f.rows + NewRows(f.message.body, TargetsOf(cfg, listing.items), ids))
  }

  function FetchPageStep(cfg: Settings, store: Store, w: World, fanout: int, ids: seq<int>): World {
    if !CanFetch(cfg, store, w, fanout) then
      w
    else
      var f := w.fanouts[fanout];
      var listing := NextListing(cfg, store, f);
      var targets := TargetsOf(cfg, listing.items);
      if |ids| != |targets| || !FreshIds(w, ids) then
        w
      else if !Insertable(w, ToAttempts(f.message.body, targets)) then
        w.(fanouts := w.fanouts[fanout := f.(broken := true)])
      else
        w.(fanouts := w.fanouts[fanout := Fetched(cfg, f, listing, ids)],
           jobs := w.jobs + SendJobs(ids, w.clock),
           drawn := w.drawn + (set id | id in ids))
  }

  function ToTracks(rows: map<int, Attempt>): map<int, Track> {
    map id | id in rows :: Track(rows[id], [], [], [])
  }

  predicate HasAnyJob(jobs: multiset<Job>, attempt: int) {
    exists j :: j in jobs && j.attempt == attempt
  }

  function OfChannel(rows: map<int, Attempt>, channel: string): set<int> {
    set id | id in rows && rows[id].channel == channel
  }

  function Get(created: map<string, nat>, channel: string): nat {
    if channel in created then created[channel] else 0
  }

  function CountCreated(created: map<string, nat>, rows: map<int, Attempt>): map<string, nat> {
    map c | c in created.Keys + (set id | id in rows :: rows[id].channel) :: Get(created, c) + |OfChannel(rows, c)|
  }

  function CommitStep(w: World, fanout: int): World {
    if fanout !in w.fanouts || !w.fanouts[fanout].done || w.fanouts[fanout].broken then
      w
    else
      var f := w.fanouts[fanout];
      w.(processed := w.processed + {f.message.event},
         finished := w.finished + {f.index},
         fanouts := w.fanouts - {fanout},
         tracks := w.tracks + ToTracks(f.rows),
         counters := w.counters.(created := CountCreated(w.counters.created, f.rows)),
         fanned := w.fanned + [f.message],
         stranded := w.stranded + set id | id in f.rows && !HasAnyJob(w.jobs, id))
  }

  /** A fan-out that raises is rolled back, but for its jobs and, past the end of its scan, its counts. */
  function AbortStep(w: World, fanout: int, counted: bool): World {
    var rest := w.(fanouts := w.fanouts - {fanout});
    if counted && fanout in w.fanouts && w.fanouts[fanout].done && !w.fanouts[fanout].broken then
      var rows := w.fanouts[fanout].rows;
      rest.(counters := w.counters.(created := CountCreated(w.counters.created, rows)),
            uncreated := CountCreated(w.uncreated, rows))
    else
      rest
  }

  /* ---------- Jobs ---------- */

  predicate CanWork(cfg: Settings, w: World, job: Job, jitter: nat, enqueuedAt: int) {
    job in w.jobs && job.due <= w.clock <= enqueuedAt && jitter <= Max(cfg.jitterMaxSeconds, 0)
  }

  function Count(counters: Counters, effect: Effect): Counters {
    match effect
    case Deliver => counters.(sent := counters.sent + 1)
    case Bury(_) => counters.(dead := counters.dead + 1)
    case Retry(_, _) => counters.(failed := counters.failed + 1)
    case _ => counters
  }

  function FollowUp(attempt: int, effect: Effect, now: int, enqueuedAt: int): multiset<Job> {
    match Deferral(effect, now)
    case None => multiset{}
    case Some(delay) => multiset{RetryJob(attempt, enqueuedAt + delay)}
  }

  /** A retry job turns into a send job; a send job executes its attempt, if that is visible. */
  function WorkStep(cfg: Settings, w: World, job: Job, reply: Attempts.Reply, jitter: nat, enqueuedAt: int): World {
    if !CanWork(cfg, w, job, jitter, enqueuedAt) then
      w
    else
      var rest := w.(clock := enqueuedAt, jobs := w.jobs - multiset{job});
      match job
      case RetryJob(attempt, _) =>
        rest.(jobs := rest.jobs + multiset{SendJob(attempt, enqueuedAt)})
      case SendJob(attempt, _) =>
        if attempt !in w.tracks then
          rest
        else
          var effect := Decide(cfg, w.tracks[attempt].row, w.clock, reply, jitter);
          rest.(tracks := w.tracks[attempt := Apply(w.tracks[attempt], effect, w.clock)],
                jobs := rest.jobs + FollowUp(attempt, effect, w.clock, enqueuedAt),
                counters := Count(w.counters, effect))
  }

  predicate IsOpen(tracks: map<int, Track>, id: int) {
    id in tracks && !tracks[id].row.IsTerminal()
  }

  /** The execution inside a job: a retry job executes nothing. */
  function EffectOf(cfg: Settings, w: World, job: Job, reply: Attempts.Reply, jitter: nat): Effect {
    if job.SendJob? && job.attempt in w.tracks then
      Decide(cfg, w.tracks[job.attempt].row, w.clock, reply, jitter)
    else
      Skip
  }

  /** A job raises: its transaction is rolled back. The queue forgets the job, unless the worker itself
      has died, and a follow-up job stays enqueued if the execution came that far. */
  function RaiseStep(cfg: Settings, w: World, job: Job, reply: Attempts.Reply, jitter: nat, enqueuedAt: int,
                     stage: Stage, kept: bool): World {
    if !CanWork(cfg, w, job, jitter, enqueuedAt) then
      w
    else
      var id, effect := job.attempt, EffectOf(cfg, w, job, reply, jitter);
      var jobs := (if kept then w.jobs else w.jobs - multiset{job})
                + FollowUp(id, if stage.AtCommit? then effect else Skip, w.clock, enqueuedAt);
      var rest := w.(clock := enqueuedAt, jobs := jobs);
      if !IsOpen(w.tracks, id) then
        rest
      else
        rest.(tracks := w.tracks[id := Rollback(w.tracks[id], effect, stage, w.clock)],
              counters := if stage.IsCounted() then Count(w.counters, effect) else w.counters,
              stranded := w.stranded + if HasAnyJob(jobs, id) then {} else {id})
  }

  function Step(cfg: Settings, stream: seq<Message>, store: Store, w: World, a: Action): World {
    match a
    case Advance(now) => w.(clock := Max(w.clock, now))
    case Begin(fanout, index) => BeginStep(stream, w, fanout, index)
    case Deduplicate(index) =>
      if index < |stream| && stream[index].event in w.processed then w.(finished := w.finished + {index}) else w
    case FetchPage(fanout, ids) => FetchPageStep(cfg, store, w, fanout, ids)
    case Commit(fanout) => CommitStep(w, fanout)
    case Abort(fanout, counted) => AbortStep(w, fanout, counted)
    case Ack(index) => if index in w.finished then w.(acked := w.acked + {index}) else w
    case LoseAck(index) => w.(finished := w.finished - {index})
    case Work(job, reply, jitter, enqueuedAt) => WorkStep(cfg, w, job, reply, jitter, enqueuedAt)
    case Raise(job, reply, jitter, enqueuedAt, stage, kept) =>
      RaiseStep(cfg, w, job, reply, jitter, enqueuedAt, stage, kept)
    case Duplicate(job) => if job in w.jobs then w.(jobs := w.jobs + multiset{job}) else w
  }
}
