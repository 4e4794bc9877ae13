/** The notifications service as a state machine: the notifications table, the transactional outbox,
    the scheduler's and the publisher's open transactions with the row locks they hold, and the
    message stream that the publisher writes to. Every Action is one statement or one transaction
    boundary of some request or worker; an action that is not enabled changes nothing. */
module Notifications {
  import opened Options
  import opened Keyset

  datatype NoteStatus = Created | Scheduled | Queued | Cancelled

  datatype Note = Note(
    topic: int, payload: string, scheduledAt: Option<int>, status: NoteStatus,
    createdBy: int, key: Option<string>, createdAt: int)

  /** The payload of an outbox event. */
  datatype Body = Body(note: int, topic: int, createdBy: int, payload: string, scheduledAt: Option<int>, createdAt: int)

  datatype OutboxRow = OutboxRow(body: Body, createdAt: int, published: bool, publishAttempts: nat,
                                 lastError: Option<string>)

  datatype Message = Message(event: int, body: Body)

  datatype Request = Request(user: int, topic: int, payload: string, scheduledAt: Option<int>, key: Option<string>)

  /** Where a create request stands: its key was not taken when it looked, its insert hit the unique
      index, or it has returned or raised. */
  datatype Call =
    | Checked(req: Request, immediate: bool)
    | Violated(req: Request)
    | Returned(req: Request, note: int, created: bool)
    | Raised(req: Request)

  /** An open publisher transaction: the locked rows still to do, and the rows it has rewritten. */
  datatype Batch = Batch(todo: seq<int>, done: map<int, OutboxRow>)

  datatype Tables = Tables(
    clock: int, notes: map<int, Note>, outbox: map<int, OutboxRow>, stream: seq<Message>,
    calls: map<int, Call>, ticks: map<int, set<int>>, batches: map<int, Batch>)

  /** What the stream makes of one publish: stored and acknowledged, stored without the
      acknowledgement coming back, or not stored. */
  datatype Reply = Acked | Unacked(error: string) | Refused(error: string)

  datatype Action =
    | Advance(now: int)
    | CheckKey(call: int, req: Request)
    | InsertNote(call: int, note: int, event: int)
    | Reread(call: int)
    | Cancel(note: int)
    | TickLock(tick: int, limit: nat)
    | TickCommit(tick: int, emit: map<int, int>)
    | TickAbort(tick: int)
    | BatchLock(batch: int, rows: seq<int>)
    | Publish(batch: int, reply: Reply)
    | BatchCommit(batch: int)
    | BatchAbort(batch: int)

  function EmptyTables(clock: int): Tables {
    Tables(clock, map[], map[], [], map[], map[], map[])
  }

  function BodyOf(id: int, note: Note): Body {
    Body(id, note.topic, note.createdBy, note.payload, note.scheduledAt, note.createdAt)
  }

  function NewEvent(id: int, note: Note, at: int): OutboxRow {
    OutboxRow(BodyOf(id, note), at, false, 0, None)
  }

  /* ---------- Creating ---------- */

  predicate HasKey(notes: map<int, Note>, n: int, user: int, key: string) {
    n in notes && notes[n].createdBy == user && notes[n].key == Some(key)
  }

  /** get_by_idempotency_key */
  ghost function Existing(notes: map<int, Note>, user: int, key: string): Option<int> {
    if exists n :: HasKey(notes, n, user, key) then
      var n :| HasKey(notes, n, user, key);
      Some(n)
    else
      None
  }

  function IsImmediate(clock: int, scheduledAt: Option<int>): bool {
    scheduledAt.None? || scheduledAt.value <= clock
  }

  /** What the request schema lets through: a key has between 1 and 128 characters. */
  predicate Accepted(req: Request) {
    req.key.Some? ==> 1 <= |req.key.value| <= 128
  }

  /** The service itself also takes an empty key: that would be stored, and so count for the unique
      index, but never be looked up. */
  predicate Looked(key: Option<string>) {
    key.Some? && key.value != ""
  }

  ghost function CheckKeyStep(s: Tables, call: int, req: Request): Tables {
    if call in s.calls then
      s
    else if Looked(req.key) && Existing(s.notes, req.user, req.key.value).Some? then
      s.(calls := s.calls[call := Returned(req, Existing(s.notes, req.user, req.key.value).value, false)])
    else
      s.(calls := s.calls[call := Checked(req, IsImmediate(s.clock, req.scheduledAt))])
  }

  function NoteOf(req: Request, immediate: bool, clock: int): Note {
    Note(req.topic, req.payload, req.scheduledAt, if immediate then Created else Scheduled, req.user, req.key, clock)
  }

  ghost function InsertNoteStep(s: Tables, call: int, note: int, event: int): Tables {
    if call !in s.calls || !s.calls[call].Checked? || note in s.notes || event in s.outbox then
      s
    else
      var req := s.calls[call].req;
      if req.key.Some? && Existing(s.notes, req.user, req.key.value).Some? then
        s.(calls := s.calls[call := if Looked(req.key) then Violated(req) else Raised(req)])
      else
        var row := NoteOf(req, s.calls[call].immediate, s.clock);
        s.(notes := s.notes[note := row],
           outbox := if row.status.Created? then s.outbox[event := NewEvent(note, row, s.clock)] else s.outbox,
           calls := s.calls[call := Returned(req, note, true)])
  }

  ghost function RereadStep(s: Tables, call: int): Tables {
    if call !in s.calls || !s.calls[call].Violated? then
      s
    else
      var req := s.calls[call].req;
      if Looked(req.key) && Existing(s.notes, req.user, req.key.value).Some? then
        s.(calls := s.calls[call := Returned(req, Existing(s.notes, req.user, req.key.value).value, false)])
      else
        s.(calls := s.calls[call := Raised(req)])
  }

  /* ---------- Scheduling and cancelling ---------- */

  function Locked(ticks: map<int, set<int>>): set<int> {
    set t, n | t in ticks && n in ticks[t] :: n
  }

  function ScheduledKeys(notes: map<int, Note>): set<Key> {
    set n | n in notes && notes[n].status.Scheduled? && notes[n].scheduledAt.Some? :: (notes[n].scheduledAt.value, n)
  }

  function DueKeys(s: Tables): set<Key> {
    set k | k in ScheduledKeys(s.notes) && k.0 <= s.clock
  }

  function Free(keys: set<Key>, locked: set<int>): set<Key> {
    set k | k in keys && k.1 !in locked
  }

  /** The earliest due rows that no other open tick has locked. */
  function DueBatch(s: Tables, limit: nat): seq<Key> {
    Take(Sort(Free(DueKeys(s), Locked(s.ticks))), limit)
  }

  function Ids(keys: seq<Key>): set<int> {
    set k | k in keys :: k.1
  }

  function TickLockStep(s: Tables, tick: int, limit: nat): Tables {
    if tick in s.ticks then s else s.(ticks := s.ticks[tick := Ids(DueBatch(s, limit))])
  }

  function StillScheduled(notes: map<int, Note>, ids: set<int>): set<int> {
    set n | n in ids && n in notes && notes[n].status.Scheduled?
  }

  function MarkQueued(notes: map<int, Note>, ids: set<int>): map<int, Note> {
    map n | n in notes :: if n in ids then notes[n].(status := Queued) else notes[n]
  }

  /** The notifications that get the drawn events. */
  function Targets(emit: map<int, int>): set<int> {
    set e | e in emit :: emit[e]
  }

  predicate Injective(emit: map<int, int>) {
    forall e1, e2 :: e1 in emit && e2 in emit && emit[e1] == emit[e2] ==> e1 == e2
  }

  /** The fresh event ids that the tick draws, one for each row it queues. */
  predicate CanCommitTick(s: Tables, tick: int, emit: map<int, int>) {
    && tick in s.ticks
    && Targets(emit) == StillScheduled(s.notes, s.ticks[tick])
    && Injective(emit)
    && emit.Keys !! s.outbox.Keys
  }

  function NewEvents(notes: map<int, Note>, emit: map<int, int>, at: int): map<int, OutboxRow> {
    map e | e in emit && emit[e] in notes :: NewEvent(emit[e], notes[emit[e]], at)
  }

  function TickCommitStep(s: Tables, tick: int, emit: map<int, int>): Tables {
    if !CanCommitTick(s, tick, emit) then
      s
    else
      var notes := MarkQueued(s.notes, Targets(emit));
      s.(notes := notes, outbox := s.outbox + NewEvents(notes, emit, s.clock), ticks := s.ticks - {tick})
  }

  /** The update waits for a row lock, so it runs only when no open tick holds the row. */
  function CancelStep(s: Tables, note: int): Tables {
    if note !in s.notes || note in Locked(s.ticks) || !s.notes[note].status.Scheduled? then
      s
    else
      s.(notes := s.notes[note := s.notes[note].(status := Cancelled)])
  }

  /* ---------- Publishing ---------- */

  function Held(b: Batch): set<int> {
    (set e | e in b.todo) + b.done.Keys
  }

  function HeldRows(batches: map<int, Batch>): set<int> {
    set b, e | b in batches && e in Held(batches[b]) :: e
  }

  predicate Distinct(ids: seq<int>) {
    forall i, j :: 0 <= i < j < |ids| ==> ids[i] != ids[j]
  }

  /** Any unpublished rows that no other batch has locked. */
  predicate CanLockBatch(s: Tables, batch: int, rows: seq<int>) {
    && batch !in s.batches
    && Distinct(rows)
    && forall e :: e in rows ==> e in s.outbox && !s.outbox[e].published && e !in HeldRows(s.batches)
  }

  function UnpublishedKeys(s: Tables): set<Key> {
    set e | e in s.outbox && !s.outbox[e].published && e !in HeldRows(s.batches) :: (s.outbox[e].createdAt, e)
  }

  /** lock_unpublished_batch: the oldest unpublished rows that no other batch has locked. */
  function OldestUnpublished(s: Tables, limit: nat): seq<Key> {
    Take(Sort(UnpublishedKeys(s)), limit)
  }

  function BatchLockStep(s: Tables, batch: int, rows: seq<int>): Tables {
    if !CanLockBatch(s, batch, rows) then s else s.(batches := s.batches[batch := Batch(rows, map[])])
  }

  function Truncate(error: string): string {
    if |error| > 2000 then error[..2000] else error
  }

  /** mark_published or mark_failed */
  function Marked(row: OutboxRow, reply: Reply): OutboxRow {
    if reply.Acked? then
      row.(published := true, publishAttempts := row.publishAttempts + 1, lastError := None)
    else
      row.(publishAttempts := row.publishAttempts + 1, lastError := Some(Truncate(reply.error)))
  }

  function Stored(stream: seq<Message>, event: int, row: OutboxRow, reply: Reply): seq<Message> {
    if reply.Refused? then stream else stream + [Message(event, row.body)]
  }

  /** A published message stays on the stream whatever becomes of the transaction. */
  function PublishStep(s: Tables, batch: int, reply: Reply): Tables {
    if batch !in s.batches || s.batches[batch].todo == [] || s.batches[batch].todo[0] !in s.outbox then
      s
    else
      var b := s.batches[batch];
      var event := b.todo[0];
      var row := s.outbox[event];
      s.(stream := Stored(s.stream, event, row, reply),
         batches := s.batches[batch := Batch(b.todo[1..], b.done[event := Marked(row, reply)])])
  }

  function BatchCommitStep(s: Tables, batch: int): Tables {
    if batch !in s.batches || s.batches[batch].todo != [] then
      s
    else
      s.(outbox := s.outbox + s.batches[batch].done, batches := s.batches - {batch})
  }

  ghost function Step(s: Tables, a: Action): Tables {
    match a
    case Advance(now) => s.(clock := Max(s.clock, now))
    case CheckKey(call, req) => if Accepted(req) then CheckKeyStep(s, call, req) else s
    case InsertNote(call, note, event) => InsertNoteStep(s, call, note, event)
    case Reread(call) => RereadStep(s, call)
    case Cancel(note) => CancelStep(s, note)
    case TickLock(tick, limit) => TickLockStep(s, tick, limit)
    case TickCommit(tick, emit) => TickCommitStep(s, tick, emit)
    case TickAbort(tick) => s.(ticks := s.ticks - {tick})
    case BatchLock(batch, rows) => BatchLockStep(s, batch, rows)
    case Publish(batch, reply) => PublishStep(s, batch, reply)
    case BatchCommit(batch) => BatchCommitStep(s, batch)
    case BatchAbort(batch) => s.(batches := s.batches - {batch})
  }

  ghost function Run(s: Tables, actions: seq<Action>): Tables
    decreases |actions|
  {
    if actions == [] then s else Run(Step(s, actions[0]), actions[1..])
  }
}
