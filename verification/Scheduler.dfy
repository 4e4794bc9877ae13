/** How fast the scheduler drains: an uncontended tick queues the earliest due rows, and so every due
    row is reached after a bounded number of ticks. */
module Scheduler {
  import opened Options
  import opened Keyset
  import opened Notifications
  import opened Outbox

  /** A whole tick: lock, queue, emit, commit. */
  function Tick(s: Tables, tick: int, limit: nat, emit: map<int, int>): Tables {
    TickCommitStep(TickLockStep(s, tick, limit), tick, emit)
  }

  /** No other tick holds a lock, and emit draws a fresh event id for every row locked. */
  predicate Uncontended(s: Tables, tick: int, limit: nat, emit: map<int, int>) {
    s.ticks == map[] && CanCommitTick(TickLockStep(s, tick, limit), tick, emit)
  }

  predicate HasScheduledKey(notes: map<int, Note>, k: Key) {
    k.1 in notes && notes[k.1].status.Scheduled? && notes[k.1].scheduledAt == Some(k.0)
  }

  lemma ScheduledKeyOfRow(notes: map<int, Note>, k: Key)
    ensures k in ScheduledKeys(notes) <==> HasScheduledKey(notes, k)
  {
    if HasScheduledKey(notes, k) {
      var n := k.1;
      assert (notes[n].scheduledAt.value, n) in ScheduledKeys(notes);
      assert k == (notes[n].scheduledAt.value, n);
    }
  }

  /** A scheduled row is picked exactly if its key is among the first due ones. */
  lemma PickedRows(s: Tables, tick: int, limit: nat, emit: map<int, int>, k: Key)
    requires Valid(s) && Uncontended(s, tick, limit, emit) && HasScheduledKey(s.notes, k)
    ensures k.1 in Targets(emit) <==> k in FirstKeys(DueKeys(s), limit)
  {
    var due, locked := DueKeys(s), TickLockStep(s, tick, limit);
    assert Free(due, Locked(s.ticks)) == due;
    FirstKeysAreTaken(due, limit);
    TakingSmallest(due, limit, k);
    assert locked.ticks[tick] == Ids(Take(Sort(due), limit));
    if k.1 in Ids(Take(Sort(due), limit)) {
      var x :| x in Take(Sort(due), limit) && x.1 == k.1;
      assert x in due;
      ScheduledKeyOfRow(s.notes, x);
    }
  }

  lemma StillScheduledAfter(s: Tables, tick: int, limit: nat, emit: map<int, int>, k: Key)
    requires Valid(s) && Uncontended(s, tick, limit, emit)
    ensures k in ScheduledKeys(Tick(s, tick, limit, emit).notes)
       <==> k in ScheduledKeys(s.notes) && k !in FirstKeys(DueKeys(s), limit)
  {
    ScheduledKeyOfRow(s.notes, k);
    ScheduledKeyOfRow(Tick(s, tick, limit, emit).notes, k);
    if HasScheduledKey(s.notes, k) {
      PickedRows(s, tick, limit, emit, k);
    }
  }

  /** The rows of an uncontended tick are the earliest due ones: as many as the batch allows, none
      left out that is due before one picked; they and only they leave the backlog. */
  lemma TickQueuesEarliest(s: Tables, tick: int, limit: nat, emit: map<int, int>)
    requires Valid(s) && Uncontended(s, tick, limit, emit)
    ensures var s', due, picked := Tick(s, tick, limit, emit), DueKeys(s), FirstKeys(DueKeys(s), limit);
            && picked <= due && |picked| == Min(limit, |due|)
            && (forall x, y :: x in picked && y in due && y !in picked ==> Lt(x, y))
            && ScheduledKeys(s'.notes) == ScheduledKeys(s.notes) - picked
            && DueKeys(s') == due - picked
            && |ScheduledKeys(s'.notes)| == |ScheduledKeys(s.notes)| - |picked|
  {
    var s', due, picked := Tick(s, tick, limit, emit), DueKeys(s), FirstKeys(DueKeys(s), limit);
    TakingSmallest(due, limit, (0, 0));
    BacklogAfter(s, tick, limit, emit);
    assert s'.clock == s.clock;
    RemoveDue(ScheduledKeys(s.notes), s.clock, picked);
  }

  lemma BacklogAfter(s: Tables, tick: int, limit: nat, emit: map<int, int>)
    requires Valid(s) && Uncontended(s, tick, limit, emit)
    ensures ScheduledKeys(Tick(s, tick, limit, emit).notes) == ScheduledKeys(s.notes) - FirstKeys(DueKeys(s), limit)
  {
    forall k ensures k in ScheduledKeys(Tick(s, tick, limit, emit).notes)
                <==> k in ScheduledKeys(s.notes) && k !in FirstKeys(DueKeys(s), limit) {
      StillScheduledAfter(s, tick, limit, emit, k);
    }
  }

  lemma RemoveDue(keys: set<Key>, clock: int, picked: set<Key>)
    requires picked <= set k | k in keys && k.0 <= clock
    ensures |keys - picked| == |keys| - |picked|
    ensures (set k | k in keys - picked && k.0 <= clock) == (set k | k in keys && k.0 <= clock) - picked
  {
    assert keys == (keys - picked) + picked;
  }

  /** How many scheduled rows have a key up to k. For a due k they are all due. */
  function Rank(s: Tables, k: Key): nat {
    UpTo(ScheduledKeys(s.notes), k)
  }

  lemma RankCountsDueRows(s: Tables, k: Key)
    requires k.0 <= s.clock
    ensures Rank(s, k) == UpTo(DueKeys(s), k)
  {
    assert (set x | x in ScheduledKeys(s.notes) && !Lt(k, x)) == set x | x in DueKeys(s) && !Lt(k, x);
  }

  lemma TickLowersRank(s: Tables, tick: int, limit: nat, emit: map<int, int>, k: Key)
    requires Valid(s) && Uncontended(s, tick, limit, emit) && k.0 <= s.clock
    ensures Rank(Tick(s, tick, limit, emit), k) == Max(Rank(s, k) - limit, 0)
  {
    TickQueuesEarliest(s, tick, limit, emit);
    TakingSmallest(DueKeys(s), limit, k);
    RankCountsDueRows(s, k);
    RankCountsDueRows(Tick(s, tick, limit, emit), k);
  }

  /** A run of uncontended ticks of one batch size with anything else in between. */
  datatype Round = Whole(tick: int, emit: map<int, int>) | Other(action: Action)

  ghost function After(s: Tables, limit: nat, r: Round): Tables {
    match r
    case Whole(tick, emit) => Tick(s, tick, limit, emit)
    case Other(action) => Step(s, action)
  }

  ghost function AfterAll(s: Tables, limit: nat, rounds: seq<Round>): Tables
    decreases |rounds|
  {
    if rounds == [] then s else AfterAll(After(s, limit, rounds[0]), limit, rounds[1..])
  }

  /** The whole ticks are uncontended, and nothing else schedules a row with a key up to k. */
  ghost predicate NoneEarlier(s: Tables, limit: nat, rounds: seq<Round>, k: Key)
    decreases |rounds|
  {
    rounds != [] ==>
      && (match rounds[0]
          case Whole(tick, emit) => Uncontended(s, tick, limit, emit)
          case Other(action) =>
            forall x :: x in ScheduledKeys(Step(s, action).notes) && !Lt(k, x) ==> x in ScheduledKeys(s.notes))
      && NoneEarlier(After(s, limit, rounds[0]), limit, rounds[1..], k)
  }

  function Ticks(rounds: seq<Round>): nat
    decreases |rounds|
  {
    if rounds == [] then 0 else (if rounds[0].Whole? then 1 else 0) + Ticks(rounds[1..])
  }

  lemma TickKeepsValid(s: Tables, tick: int, limit: nat, emit: map<int, int>)
    requires Valid(s)
    ensures Valid(Tick(s, tick, limit, emit)) && Extends(s, Tick(s, tick, limit, emit))
  {
    TickLockKeepsValid(s, tick, limit);
    TickCommitKeepsValid(TickLockStep(s, tick, limit), tick, emit);
    ExtendsIsTransitive(s, TickLockStep(s, tick, limit), Tick(s, tick, limit, emit));
  }

  lemma RoundKeepsRank(s: Tables, limit: nat, rounds: seq<Round>, k: Key)
    requires Valid(s) && k.0 <= s.clock && rounds != [] && NoneEarlier(s, limit, rounds, k)
    ensures Valid(After(s, limit, rounds[0])) && Extends(s, After(s, limit, rounds[0]))
    ensures Rank(After(s, limit, rounds[0]), k) <= Max(Rank(s, k) - (if rounds[0].Whole? then limit else 0), 0)
  {
    match rounds[0]
    case Whole(tick, emit) =>
      TickLowersRank(s, tick, limit, emit, k);
      TickKeepsValid(s, tick, limit, emit);
    case Other(action) =>
      StepKeepsValid(s, action);
      OthersRaiseNoRank(s, action, k);
  }

  lemma OthersRaiseNoRank(s: Tables, action: Action, k: Key)
    requires forall x :: x in ScheduledKeys(Step(s, action).notes) && !Lt(k, x) ==> x in ScheduledKeys(s.notes)
    ensures Rank(Step(s, action), k) <= Rank(s, k)
  {
    SubsetIsSmaller(set x | x in ScheduledKeys(Step(s, action).notes) && !Lt(k, x),
                    set x | x in ScheduledKeys(s.notes) && !Lt(k, x));
  }

  lemma {:induction false} RankDrains(s: Tables, limit: nat, rounds: seq<Round>, k: Key, room: nat)
    requires Valid(s) && k.0 <= s.clock && NoneEarlier(s, limit, rounds, k)
    requires room == Room(rounds, limit)
    ensures Valid(AfterAll(s, limit, rounds)) && Extends(s, AfterAll(s, limit, rounds))
    ensures Rank(AfterAll(s, limit, rounds), k) <= Max(Rank(s, k) - room, 0)
    decreases |rounds|
  {
    if rounds != [] {
      RoundKeepsRank(s, limit, rounds, k);
      RankDrains(After(s, limit, rounds[0]), limit, rounds[1..], k, Room(rounds[1..], limit));
      ExtendsIsTransitive(s, After(s, limit, rounds[0]), AfterAll(s, limit, rounds));
    }
  }

  /** How many rows the whole ticks of a run can queue together. */
  function Room(rounds: seq<Round>, limit: nat): nat
    decreases |rounds|
  {
    if rounds == [] then 0 else (if rounds[0].Whole? then limit else 0) + Room(rounds[1..], limit)
  }

  lemma RoomIsProduct(rounds: seq<Round>, limit: nat)
    ensures Room(rounds, limit) == Ticks(rounds) * limit
    decreases |rounds|
  {
    if rounds != [] {
      RoomIsProduct(rounds[1..], limit);
      assert Ticks(rounds) * limit == Ticks(rounds[1..]) * limit + if rounds[0].Whole? then limit else 0;
    }
  }

  /** A due row of rank r has left the scheduled state, for the queue or by being cancelled, as soon
      as the uncontended ticks have room for r rows: within ceil(r / limit) of them. */
  lemma DueRowIsReached(s: Tables, limit: nat, rounds: seq<Round>, note: int)
    requires Valid(s) && IsScheduled(s.notes, note) && s.notes[note].scheduledAt.value <= s.clock
    requires NoneEarlier(s, limit, rounds, (s.notes[note].scheduledAt.value, note))
    requires Rank(s, (s.notes[note].scheduledAt.value, note)) <= Ticks(rounds) * limit
    ensures var notes := AfterAll(s, limit, rounds).notes;
            note in notes && (notes[note].status.Queued? || notes[note].status.Cancelled?)
  {
    var k, s' := (s.notes[note].scheduledAt.value, note), AfterAll(s, limit, rounds);
    RoomIsProduct(rounds, limit);
    RankDrains(s, limit, rounds, k, Room(rounds, limit));
    assert MayBecome(s.notes[note], s'.notes[note]);
    ScheduledKeyOfRow(s'.notes, k);
    var upTo := set x | x in ScheduledKeys(s'.notes) && !Lt(k, x);
    assert |upTo| == 0;
    assert k !in upTo;
  }
}
