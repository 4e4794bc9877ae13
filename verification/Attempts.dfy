/** One delivery attempt: the row that the executor locks, the provider calls made for it and the
    outcome events published for it. Everything here concerns a single attempt over its whole life;
    module Delivery runs many of them beside the job queue. */
module Attempts {
  import opened Options
  import opened QuietHours

  const SECOND: int := 1_000_000

  datatype Settings = Settings(
    maxAttempts: int, baseDelaySeconds: int, maxDelaySeconds: int, jitterMaxSeconds: int,
    channels: seq<string>, pageLimit: nat, zones: Zones)

  datatype Status = Pending | Failed | Sent | Dead

  datatype Attempt = Attempt(
    note: int, user: int, channel: string, payload: string, window: Window,
    status: Status, attemptNo: nat, errorCode: Option<string>, nextRetryAt: Option<int>)
  {
    predicate IsTerminal() { status.Sent? || status.Dead? }
  }

  datatype Reply = Accepted | Refused(code: Option<string>)

  datatype Call = Call(at: int, ok: bool)

  datatype OutcomeEvent = DeliverySucceeded(at: int) | DeliveryFailed(code: string, at: int)

  /** An attempt with its history: the provider calls and outcome events of its committed executions,
      and the executions that raised and were rolled back, oldest first. */
  datatype Track = Track(row: Attempt, calls: seq<Call>, events: seq<OutcomeEvent>, undone: seq<Undone>)

  /** What one execution does to the attempt. */
  datatype Effect =
    | Skip
    | Delay(until: int)
    | Deliver
    | Bury(code: string)
    | Retry(at: int, code: string)
  {
    predicate CallsProvider() { Deliver? || Bury? || Retry? }
  }

  /** How far an execution came before it raised: not to the provider, to the provider, past the metrics,
      or past everything but the commit. */
  datatype Stage = BeforeCall | AfterCall | AfterCount | AtCommit
  {
    predicate IsCounted() { AfterCount? || AtCommit? }
  }

  /** An execution that was rolled back, after so many committed calls; what it had done outside the
      database stays done. */
  datatype Undone = Undone(effect: Effect, stage: Stage, at: int, before: nat)
  {
    predicate CalledProvider() { effect.CallsProvider() && !stage.BeforeCall? }
    predicate WasAccepted() { CalledProvider() && effect.Deliver? }

    predicate AnnouncedSuccess() { effect.Deliver? && stage.AtCommit? }
    predicate AnnouncedFailure() { effect.Bury? && stage.AtCommit? }

    /** The outcome event is published last, so only an execution that raised after it has left one. */
    function Published(): seq<OutcomeEvent> {
      if stage.AtCommit? then Outcome(effect, at) else []
    }
  }

  /** The outcome event that an execution with this effect publishes. */
  function Outcome(effect: Effect, at: int): seq<OutcomeEvent> {
    match effect
    case Deliver => [DeliverySucceeded(at)]
    case Bury(code) => [DeliveryFailed(code, at)]
    case _ => []
  }

  function Pow2(n: nat): nat {
    if n == 0 then 1 else 2 * Pow2(n - 1)
  }

  /** Exponential backoff in seconds; the jitter is the random draw. */
  function BackoffDelay(cfg: Settings, attemptNo: int, jitter: nat): int {
    Min(cfg.baseDelaySeconds * Pow2(Max(attemptNo - 1, 0)) + jitter, cfg.maxDelaySeconds)
  }

  function ErrorCode(code: Option<string>): string {
    if code.Some? && code.value != "" then code.value else "delivery_failed"
  }

  function NextQuietHoursRetry(cfg: Settings, w: Window, now: int): Option<int> {
    if w.start.None? || w.end.None? then
      None
    else
      var next := NextAllowedTime(now, ZoneOffset(cfg.zones, w.timezone), w.start.value, w.end.value);
      if next <= now then None else Some(next)
  }

  /** The instant of the next try after a refusal: the backoff, moved out of quiet hours. */
  function RetryAt(cfg: Settings, a: Attempt, now: int, jitter: nat): int {
    var backoffAt := now + BackoffDelay(cfg, a.attemptNo + 1, jitter) * SECOND;
    match NextQuietHoursRetry(cfg, a.window, backoffAt)
    case Some(quietEnd) => Max(quietEnd, backoffAt)
    case None => backoffAt
  }

  function Decide(cfg: Settings, a: Attempt, now: int, reply: Reply, jitter: nat): Effect {
    if a.IsTerminal() then
      Skip
    else if a.nextRetryAt.Some? && a.nextRetryAt.value > now then
      Skip
    else
      match NextQuietHoursRetry(cfg, a.window, now)
      case Some(until) => Delay(until)
      case None => OnReply(cfg, a, now, reply, jitter)
  }

  function OnReply(cfg: Settings, a: Attempt, now: int, reply: Reply, jitter: nat): Effect {
    match reply
    case Accepted => Deliver
    case Refused(code) =>
      if a.attemptNo + 1 >= cfg.maxAttempts then
        Bury(ErrorCode(code))
      else
        Retry(RetryAt(cfg, a, now, jitter), ErrorCode(code))
  }

  /** How long the follow-up job is deferred, when the effect asks for one. */
  function Deferral(effect: Effect, now: int): Option<nat> {
    match effect
    case Delay(until) => Some(Max(until - now, 0))
    case Retry(at, _) => Some(Max(at - now, 0))
    case _ => None
  }

  function Apply(tr: Track, effect: Effect, now: int): Track {
    var a := tr.row;
    match effect
    case Skip => tr
    case Delay(until) =>
      tr.(row := a.(status := Failed, errorCode := Some("quiet_hours"), nextRetryAt := Some(until)))
    case Deliver =>
      tr.(row := a.(status := Sent, errorCode := None, nextRetryAt := None),
          calls := tr.calls + [Call(now, true)], events := tr.events + [DeliverySucceeded(now)])
    case Bury(code) =>
      tr.(row := a.(status := Dead, attemptNo := a.attemptNo + 1, errorCode := Some(code), nextRetryAt := None),
          calls := tr.calls + [Call(now, false)], events := tr.events + [DeliveryFailed(code, now)])
    case Retry(at, code) =>
      tr.(row := a.(status := Failed, attemptNo := a.attemptNo + 1, errorCode := Some(code), nextRetryAt := Some(at)),
          calls := tr.calls + [Call(now, false)])
  }

  function Execute(cfg: Settings, tr: Track, now: int, reply: Reply, jitter: nat): Track {
    Apply(tr, Decide(cfg, tr.row, now, reply, jitter), now)
  }

  /** The same execution, rolled back at some stage: the row and its committed history stay. */
  function Rollback(tr: Track, effect: Effect, stage: Stage, now: int): Track {
    tr.(undone := tr.undone + [Undone(effect, stage, now, |tr.calls|)])
  }

  function NewAttempt(note: int, user: int, channel: string, payload: string, window: Window): Attempt {
    Attempt(note, user, channel, payload, window, Pending, 0, None, None)
  }

  /* ---------- What holds of every attempt ---------- */

  /** How many provider calls an attempt may use up. */
  function Budget(cfg: Settings): int {
    Max(1, cfg.maxAttempts)
  }

  /** Whether the subscriber is in quiet hours at the instant. */
  predicate IsQuiet(cfg: Settings, w: Window, at: int) {
    && w.start.Some?
    && w.end.Some?
    && QuietAt(at, ZoneOffset(cfg.zones, w.timezone), w.start.value, w.end.value)
  }

  function QuietSpan(w: Window): int {
    if w.start.Some? && w.end.Some? then QuietLength(w.start.value, w.end.value) else 0
  }

  function Refusals(calls: seq<Call>): (n: nat)
    ensures n <= |calls|
  {
    if calls == [] then
      0
    else
      Refusals(calls[..|calls| - 1]) + if calls[|calls| - 1].ok then 0 else 1
  }

  function UndoneCalls(undone: seq<Undone>): nat {
    if undone == [] then
      0
    else
      UndoneCalls(undone[..|undone| - 1]) + if undone[|undone| - 1].CalledProvider() then 1 else 0
  }

  function UndoneAccepts(undone: seq<Undone>): nat {
    if undone == [] then
      0
    else
      UndoneAccepts(undone[..|undone| - 1]) + if undone[|undone| - 1].WasAccepted() then 1 else 0
  }

  /** All the calls that the provider has seen. */
  function ProviderCalls(tr: Track): nat {
    |tr.calls| + UndoneCalls(tr.undone)
  }

  /** All the calls that it has accepted. */
  function AcceptedCalls(tr: Track): nat {
    |tr.calls| - Refusals(tr.calls) + UndoneAccepts(tr.undone)
  }

  /** The outcome events that rolled-back executions have left behind. */
  function UndoneOutcomes(undone: seq<Undone>): seq<OutcomeEvent> {
    if undone == [] then
      []
    else
      UndoneOutcomes(undone[..|undone| - 1]) + undone[|undone| - 1].Published()
  }

  /** All the outcome events of the attempt that are on the stream, the rolled-back ones last. */
  function PublishedOutcomes(tr: Track): seq<OutcomeEvent> {
    tr.events + UndoneOutcomes(tr.undone)
  }

  function Successes(events: seq<OutcomeEvent>): nat {
    if events == [] then
      0
    else
      Successes(events[..|events| - 1]) + if events[|events| - 1].DeliverySucceeded? then 1 else 0
  }

  function Failures(events: seq<OutcomeEvent>): nat {
    if events == [] then
      0
    else
      Failures(events[..|events| - 1]) + if events[|events| - 1].DeliveryFailed? then 1 else 0
  }

  /** The least time between the first provider call and the k-th retry, without any jitter. */
  function Spacing(cfg: Settings, k: nat): int {
    if k == 0 then 0 else Spacing(cfg, k - 1) + Backoff(cfg, k - 1)
  }

  /** The least delay after a refusal when so many calls have been refused before it. */
  function Backoff(cfg: Settings, refusals: nat): int {
    Min(cfg.baseDelaySeconds * Pow2(refusals), cfg.maxDelaySeconds) * SECOND
  }

  /** The row's columns fit its status, and the number of tries never exceeds the budget. */
  predicate RowMatchesStatus(cfg: Settings, tr: Track) {
    var a := tr.row;
    match a.status
    case Pending => a.attemptNo == 0 && a.nextRetryAt.None? && a.errorCode.None?
    case Failed => a.attemptNo < Budget(cfg) && a.nextRetryAt.Some? && a.errorCode.Some?
    case Sent => a.attemptNo < Budget(cfg) && a.nextRetryAt.None? && a.errorCode.None?
    case Dead => a.attemptNo == Budget(cfg) && a.nextRetryAt.None? && a.errorCode.Some?
  }

  /** attempt_no counts the refused calls, and a terminal attempt has exactly one outcome event. */
  predicate HistoryMatchesStatus(tr: Track) {
    && tr.row.attemptNo == Refusals(tr.calls)
    && |tr.calls| == tr.row.attemptNo + (if tr.row.status.Sent? then 1 else 0)
    && (match tr.row.status
        case Sent =>
          tr.calls[|tr.calls| - 1].ok && tr.events == [DeliverySucceeded(tr.calls[|tr.calls| - 1].at)]
        case Dead =>
          && |tr.calls| > 0 && tr.row.errorCode.Some?
          && tr.events == [DeliveryFailed(tr.row.errorCode.value, tr.calls[|tr.calls| - 1].at)]
        case _ => tr.events == [])
  }

  /** Neither a past call nor the planned one falls into quiet hours, not even one that was rolled back. */
  predicate NeverInQuietHours(cfg: Settings, tr: Track) {
    && (forall k :: 0 <= k < |tr.calls| ==> !IsQuiet(cfg, tr.row.window, tr.calls[k].at))
    && (forall k :: 0 <= k < |tr.undone| && tr.undone[k].CalledProvider() ==>
          !IsQuiet(cfg, tr.row.window, tr.undone[k].at))
    && (tr.row.nextRetryAt.Some? ==> !IsQuiet(cfg, tr.row.window, tr.row.nextRetryAt.value))
  }

  predicate SpacedByBackoff(cfg: Settings, tr: Track) {
    && (forall k :: 0 <= k < |tr.calls| ==> tr.calls[k].at >= tr.calls[0].at + Spacing(cfg, k))
    && (tr.calls != [] && tr.row.nextRetryAt.Some? ==>
          tr.row.nextRetryAt.value >= tr.calls[0].at + Spacing(cfg, |tr.calls|))
    && (forall k :: 0 <= k < |tr.undone| && tr.undone[k].CalledProvider() ==> IsSpaced(cfg, tr.calls, tr.undone[k]))
  }

  /** A call that was rolled back came no earlier than the committed calls before it allowed. */
  predicate IsSpaced(cfg: Settings, calls: seq<Call>, u: Undone) {
    && u.before <= |calls|
    && (u.before > 0 ==> u.at >= calls[0].at + Spacing(cfg, u.before))
  }

  predicate Valid(cfg: Settings, tr: Track) {
    && RowMatchesStatus(cfg, tr)
    && HistoryMatchesStatus(tr)
    && NeverInQuietHours(cfg, tr)
    && SpacedByBackoff(cfg, tr)
  }

  /** A retry is offered exactly when the instant is quiet, and then it is the end of the window. */
  lemma QuietRetryIffQuiet(cfg: Settings, w: Window, now: int)
    ensures var retry := NextQuietHoursRetry(cfg, w, now);
            && (retry.Some? <==> IsQuiet(cfg, w, now))
            && (retry.Some? ==>
                  && now < retry.value <= now + QuietSpan(w)
                  && !IsQuiet(cfg, w, retry.value)
                  && forall t :: now <= t < retry.value ==> IsQuiet(cfg, w, t))
  {
    if w.start.Some? && w.end.Some? {
      NextAllowedIsLeast(now, ZoneOffset(cfg.zones, w.timezone), w.start.value, w.end.value);
    }
  }

  /** The planned retry respects the backoff and quiet hours, and waits no longer than both together. */
  lemma RetryAtBounds(cfg: Settings, a: Attempt, now: int, jitter: nat)
    ensures var at := RetryAt(cfg, a, now, jitter);
            && at >= now + Backoff(cfg, a.attemptNo)
            && at <= now + cfg.maxDelaySeconds * SECOND + QuietSpan(a.window)
            && !IsQuiet(cfg, a.window, at)
  {
    QuietRetryIffQuiet(cfg, a.window, now + BackoffDelay(cfg, a.attemptNo + 1, jitter) * SECOND);
  }

  lemma RefusalsAppend(calls: seq<Call>, call: Call)
    ensures Refusals(calls + [call]) == Refusals(calls) + if call.ok then 0 else 1
  {
    assert (calls + [call])[..|calls + [call]| - 1] == calls;
  }

  lemma NewAttemptIsValid(cfg: Settings, a: Attempt)
    requires a == NewAttempt(a.note, a.user, a.channel, a.payload, a.window)
    ensures Valid(cfg, Track(a, [], [], []))
  {
  }

  lemma CallOutOfQuietHours(cfg: Settings, tr: Track, call: Call)
    requires NeverInQuietHours(cfg, tr) && !IsQuiet(cfg, tr.row.window, call.at)
    ensures forall k :: 0 <= k <= |tr.calls| ==> !IsQuiet(cfg, tr.row.window, (tr.calls + [call])[k].at)
  {
  }

  lemma CallKeepsSpacing(cfg: Settings, tr: Track, call: Call)
    requires SpacedByBackoff(cfg, tr)
    requires tr.calls != [] ==> tr.row.nextRetryAt.Some? && tr.row.nextRetryAt.value <= call.at
    ensures var calls := tr.calls + [call];
            forall k :: 0 <= k < |calls| ==> calls[k].at >= calls[0].at + Spacing(cfg, k)
  {
  }

  lemma ExecuteKeepsRow(cfg: Settings, tr: Track, now: int, reply: Reply, jitter: nat)
    requires RowMatchesStatus(cfg, tr)
    ensures RowMatchesStatus(cfg, Execute(cfg, tr, now, reply, jitter))
  {
  }

  lemma ExecuteKeepsHistory(cfg: Settings, tr: Track, now: int, reply: Reply, jitter: nat)
    requires HistoryMatchesStatus(tr)
    ensures HistoryMatchesStatus(Execute(cfg, tr, now, reply, jitter))
  {
    RefusalsAppend(tr.calls, Call(now, reply.Accepted?));
  }

  /** What an execution does, it does at or after the plan; a call and a plan are out of quiet hours. */
  lemma DecideRespectsQuietHours(cfg: Settings, a: Attempt, now: int, reply: Reply, jitter: nat)
    ensures var effect := Decide(cfg, a, now, reply, jitter);
            match effect
            case Skip => true
            case Delay(until) => now < until && !IsQuiet(cfg, a.window, until)
            case Retry(at, _) => !IsQuiet(cfg, a.window, now) && !IsQuiet(cfg, a.window, at)
            case _ => !IsQuiet(cfg, a.window, now)
  {
    QuietRetryIffQuiet(cfg, a.window, now);
    RetryAtBounds(cfg, a, now, jitter);
  }

  lemma ApplyKeepsQuiet(cfg: Settings, tr: Track, effect: Effect, now: int)
    requires NeverInQuietHours(cfg, tr)
    requires effect.CallsProvider() ==> !IsQuiet(cfg, tr.row.window, now)
    requires effect.Delay? ==> !IsQuiet(cfg, tr.row.window, effect.until)
    requires effect.Retry? ==> !IsQuiet(cfg, tr.row.window, effect.at)
    ensures NeverInQuietHours(cfg, Apply(tr, effect, now))
  {
    if effect.CallsProvider() {
      CallOutOfQuietHours(cfg, tr, Call(now, effect.Deliver?));
    }
  }

  lemma ApplyKeepsSpacing(cfg: Settings, tr: Track, effect: Effect, now: int)
    requires SpacedByBackoff(cfg, tr)
    requires tr.calls != [] && !effect.Skip? ==> tr.row.nextRetryAt.Some? && tr.row.nextRetryAt.value <= now
    requires effect.Delay? ==> now <= effect.until
    requires effect.Retry? ==>
               effect.at >= now + Backoff(cfg, |tr.calls|)
    ensures SpacedByBackoff(cfg, Apply(tr, effect, now))
  {
    if effect.CallsProvider() {
      CallKeepsSpacing(cfg, tr, Call(now, effect.Deliver?));
    }
    if effect.Retry? {
      RetryIsSpaced(cfg, tr, effect, now);
    }
  }

  lemma RetryIsSpaced(cfg: Settings, tr: Track, effect: Effect, now: int)
    requires effect.Retry? && effect.at >= now + Backoff(cfg, |tr.calls|)
    requires var calls := tr.calls + [Call(now, false)]; calls[|tr.calls|].at >= calls[0].at + Spacing(cfg, |tr.calls|)
    ensures var after := Apply(tr, effect, now); effect.at >= after.calls[0].at + Spacing(cfg, |after.calls|)
  {
    var after := Apply(tr, effect, now);
    assert |after.calls| == |tr.calls| + 1 && after.calls[|tr.calls|].at == now;
    assert Spacing(cfg, |tr.calls| + 1) == Spacing(cfg, |tr.calls|) + Backoff(cfg, |tr.calls|);
  }

  lemma DecideKeepsSpacing(cfg: Settings, tr: Track, now: int, reply: Reply, jitter: nat)
    requires RowMatchesStatus(cfg, tr) && HistoryMatchesStatus(tr) && SpacedByBackoff(cfg, tr)
    ensures SpacedByBackoff(cfg, Execute(cfg, tr, now, reply, jitter))
  {
    DecideRespectsQuietHours(cfg, tr.row, now, reply, jitter);
    RetryAtBounds(cfg, tr.row, now, jitter);
    ApplyKeepsSpacing(cfg, tr, Decide(cfg, tr.row, now, reply, jitter), now);
  }

  /** Every execution, at any time and with any reply, keeps the whole invariant. */
  lemma ExecuteKeepsValid(cfg: Settings, tr: Track, now: int, reply: Reply, jitter: nat)
    requires Valid(cfg, tr)
    ensures Valid(cfg, Execute(cfg, tr, now, reply, jitter))
  {
    ExecuteKeepsRow(cfg, tr, now, reply, jitter);
    ExecuteKeepsHistory(cfg, tr, now, reply, jitter);
    DecideKeepsSpacing(cfg, tr, now, reply, jitter);
    DecideRespectsQuietHours(cfg, tr.row, now, reply, jitter);
    ApplyKeepsQuiet(cfg, tr, Decide(cfg, tr.row, now, reply, jitter), now);
  }

  /** So does an execution that raises, at whatever stage. */
  lemma RollbackKeepsValid(cfg: Settings, tr: Track, now: int, reply: Reply, jitter: nat, stage: Stage)
    requires Valid(cfg, tr)
    ensures Valid(cfg, Rollback(tr, Decide(cfg, tr.row, now, reply, jitter), stage, now))
  {
    var effect := Decide(cfg, tr.row, now, reply, jitter);
    DecideRespectsQuietHours(cfg, tr.row, now, reply, jitter);
    assert effect.CallsProvider() ==> IsSpaced(cfg, tr.calls, Undone(effect, stage, now, |tr.calls|));
  }

  predicate SomeCallUndone(tr: Track) {
    exists k :: 0 <= k < |tr.undone| && tr.undone[k].CalledProvider()
  }

  predicate SomeAcceptUndone(tr: Track) {
    exists k :: 0 <= k < |tr.undone| && tr.undone[k].WasAccepted()
  }

  lemma {:induction false} UndoneCallsAreNoneIff(undone: seq<Undone>)
    ensures UndoneCalls(undone) == 0 <==> forall k :: 0 <= k < |undone| ==> !undone[k].CalledProvider()
    decreases |undone|
  {
    if undone != [] {
      UndoneCallsAreNoneIff(undone[..|undone| - 1]);
      assert forall k :: 0 <= k < |undone| - 1 ==> undone[..|undone| - 1][k] == undone[k];
    }
  }

  lemma {:induction false} UndoneAcceptsAreNoneIff(undone: seq<Undone>)
    ensures UndoneAccepts(undone) == 0 <==> forall k :: 0 <= k < |undone| ==> !undone[k].WasAccepted()
    decreases |undone|
  {
    if undone != [] {
      UndoneAcceptsAreNoneIff(undone[..|undone| - 1]);
      assert forall k :: 0 <= k < |undone| - 1 ==> undone[..|undone| - 1][k] == undone[k];
    }
  }

  /** Every call is a counted try or one that was rolled back. */
  lemma ProviderCallsAre(cfg: Settings, tr: Track)
    requires Valid(cfg, tr)
    ensures var sent := if tr.row.status.Sent? then 1 else 0;
            && ProviderCalls(tr) == tr.row.attemptNo + sent + UndoneCalls(tr.undone)
            && ProviderCalls(tr) <= Budget(cfg) + UndoneCalls(tr.undone)
            && AcceptedCalls(tr) == sent + UndoneAccepts(tr.undone)
    ensures UndoneCalls(tr.undone) > 0 <==> SomeCallUndone(tr)
    ensures UndoneAccepts(tr.undone) > 0 <==> SomeAcceptUndone(tr)
    ensures tr.row.status.Dead? ==> tr.row.attemptNo == Budget(cfg)
  {
    UndoneCallsAreNoneIff(tr.undone);
    UndoneAcceptsAreNoneIff(tr.undone);
  }

  predicate SomeSuccessUndone(tr: Track) {
    exists k :: 0 <= k < |tr.undone| && tr.undone[k].AnnouncedSuccess()
  }

  predicate SomeFailureUndone(tr: Track) {
    exists k :: 0 <= k < |tr.undone| && tr.undone[k].AnnouncedFailure()
  }

  lemma {:induction false} OutcomesJoin(first: seq<OutcomeEvent>, second: seq<OutcomeEvent>)
    ensures Successes(first + second) == Successes(first) + Successes(second)
    ensures Failures(first + second) == Failures(first) + Failures(second)
    decreases |second|
  {
    if second == [] {
      assert first + second == first;
    } else {
      var last, all := |second| - 1, first + second;
      OutcomesJoin(first, second[..last]);
      assert all[..|all| - 1] == first + second[..last];
    }
  }

  lemma {:induction false} OutcomesAreSuccessesAndFailures(events: seq<OutcomeEvent>)
    ensures |events| == Successes(events) + Failures(events)
    decreases |events|
  {
    if events != [] {
      OutcomesAreSuccessesAndFailures(events[..|events| - 1]);
    }
  }

  lemma OneOutcome(effect: Effect, at: int)
    ensures Successes(Outcome(effect, at)) == if effect.Deliver? then 1 else 0
    ensures Failures(Outcome(effect, at)) == if effect.Bury? then 1 else 0
  {
  }

  lemma UndoneOutcomesAppend(undone: seq<Undone>)
    requires undone != []
    ensures var before, last := UndoneOutcomes(undone[..|undone| - 1]), undone[|undone| - 1];
            var all := UndoneOutcomes(undone);
            && Successes(all) == Successes(before) + (if last.AnnouncedSuccess() then 1 else 0)
            && Failures(all) == Failures(before) + if last.AnnouncedFailure() then 1 else 0
  {
    var last := undone[|undone| - 1];
    OutcomesJoin(UndoneOutcomes(undone[..|undone| - 1]), last.Published());
    OneOutcome(last.effect, last.at);
  }

  lemma {:induction false} UndoneSuccessesAreNoneIff(undone: seq<Undone>)
    ensures Successes(UndoneOutcomes(undone)) == 0 <==> forall k :: 0 <= k < |undone| ==> !undone[k].AnnouncedSuccess()
    decreases |undone|
  {
    if undone != [] {
      UndoneSuccessesAreNoneIff(undone[..|undone| - 1]);
      UndoneOutcomesAppend(undone);
      assert forall k :: 0 <= k < |undone| - 1 ==> undone[..|undone| - 1][k] == undone[k];
    }
  }

  lemma {:induction false} AnnouncedAreAccepted(undone: seq<Undone>)
    ensures Successes(UndoneOutcomes(undone)) <= UndoneAccepts(undone)
    decreases |undone|
  {
    if undone != [] {
      AnnouncedAreAccepted(undone[..|undone| - 1]);
      UndoneOutcomesAppend(undone);
    }
  }

  lemma {:induction false} UndoneFailuresAreNoneIff(undone: seq<Undone>)
    ensures Failures(UndoneOutcomes(undone)) == 0 <==> forall k :: 0 <= k < |undone| ==> !undone[k].AnnouncedFailure()
    decreases |undone|
  {
    if undone != [] {
      UndoneFailuresAreNoneIff(undone[..|undone| - 1]);
      UndoneOutcomesAppend(undone);
      assert forall k :: 0 <= k < |undone| - 1 ==> undone[..|undone| - 1][k] == undone[k];
    }
  }

  /** Every outcome event is the attempt's own or one that was left behind. */
  lemma PublishedOutcomesAre(cfg: Settings, tr: Track)
    requires Valid(cfg, tr)
    ensures var sent, dead := if tr.row.status.Sent? then 1 else 0, if tr.row.status.Dead? then 1 else 0;
            && Successes(PublishedOutcomes(tr)) == sent + Successes(UndoneOutcomes(tr.undone))
            && Failures(PublishedOutcomes(tr)) == dead + Failures(UndoneOutcomes(tr.undone))
            && |PublishedOutcomes(tr)|
               == sent + dead + Successes(UndoneOutcomes(tr.undone)) + Failures(UndoneOutcomes(tr.undone))
            && Successes(PublishedOutcomes(tr)) <= AcceptedCalls(tr)
    ensures Successes(UndoneOutcomes(tr.undone)) > 0 <==> SomeSuccessUndone(tr)
    ensures Failures(UndoneOutcomes(tr.undone)) > 0 <==> SomeFailureUndone(tr)
  {
    OutcomesJoin(tr.events, UndoneOutcomes(tr.undone));
    OutcomesAreSuccessesAndFailures(PublishedOutcomes(tr));
    UndoneSuccessesAreNoneIff(tr.undone);
    AnnouncedAreAccepted(tr.undone);
    UndoneFailuresAreNoneIff(tr.undone);
    match tr.row.status
    case Sent => OneOutcome(Deliver, tr.events[0].at);
    case Dead => OneOutcome(Bury(tr.events[0].code), tr.events[0].at);
    case _ =>
  }

  /** After a provider call, when will an execution call the provider again? After a rollback at once, at
      any instant out of quiet hours; after a commit only if the call was refused with tries left, and
      then only from the planned retry on. */
  lemma CallComesAgainIff(cfg: Settings, tr: Track, now: int, reply: Reply, jitter: nat, rolledBack: bool, stage: Stage,
                          later: int, reply': Reply, jitter': nat)
    requires Valid(cfg, tr) && now <= later
    requires Decide(cfg, tr.row, now, reply, jitter).CallsProvider()
    ensures var effect := Decide(cfg, tr.row, now, reply, jitter);
            var row' := (if rolledBack then Rollback(tr, effect, stage, now) else Apply(tr, effect, now)).row;
            var again := Decide(cfg, row', later, reply', jitter').CallsProvider();
            && (again <==> (rolledBack || (effect.Retry? && effect.at <= later)) && !IsQuiet(cfg, tr.row.window, later))
            && (effect.Retry? && later < now + Backoff(cfg, |tr.calls|) ==>
                  (again <==> rolledBack && !IsQuiet(cfg, tr.row.window, later)))
  {
    QuietRetryIffQuiet(cfg, tr.row.window, later);
    RetryAtBounds(cfg, tr.row, now, jitter);
  }

  lemma IdleRollbackKeepsValid(cfg: Settings, tr: Track, now: int, stage: Stage)
    requires Valid(cfg, tr)
    ensures Valid(cfg, Rollback(tr, Skip, stage, now))
  {
  }

  /** Sent and dead are absorbing, an early job changes nothing, and what identifies the attempt
      never changes. */
  lemma ExecuteLeavesAlone(cfg: Settings, tr: Track, now: int, reply: Reply, jitter: nat)
    ensures tr.row.IsTerminal() ==> Execute(cfg, tr, now, reply, jitter) == tr
    ensures tr.row.nextRetryAt.Some? && now < tr.row.nextRetryAt.value ==> Execute(cfg, tr, now, reply, jitter) == tr
    ensures var a, a' := tr.row, Execute(cfg, tr, now, reply, jitter).row;
            a' == a.(status := a'.status, attemptNo := a'.attemptNo, errorCode := a'.errorCode,
                     nextRetryAt := a'.nextRetryAt)
  {
  }

  /** An open attempt that is executed in time is either finished, or planned again and its
      follow-up job cannot fall due before the plan. */
  lemma OpenAttemptGetsFollowUp(cfg: Settings, tr: Track, now: int, reply: Reply, jitter: nat, enqueuedAt: int)
    requires !tr.row.IsTerminal()
    requires tr.row.nextRetryAt.Some? ==> tr.row.nextRetryAt.value <= now
    requires now <= enqueuedAt
    ensures var deferral := Deferral(Decide(cfg, tr.row, now, reply, jitter), now);
            var a' := Execute(cfg, tr, now, reply, jitter).row;
            && (deferral.None? <==> a'.IsTerminal())
            && (deferral.Some? ==> a'.nextRetryAt.Some? && enqueuedAt + deferral.value >= a'.nextRetryAt.value)
  {
  }

  /* ---------- Every attempt finishes ---------- */

  /** One execution of the attempt by a worker. */
  datatype Execution = Execution(now: int, reply: Reply, jitter: nat)

  function After(cfg: Settings, tr: Track, e: Execution): Track {
    Execute(cfg, tr, e.now, e.reply, e.jitter)
  }

  /** What one execution in time does, seen from outside. */
  lemma TimelyExecution(cfg: Settings, tr: Track, e: Execution)
    requires Valid(cfg, tr) && !tr.row.IsTerminal()
    requires tr.row.nextRetryAt.Some? ==> tr.row.nextRetryAt.value <= e.now
    ensures var w, tr' := tr.row.window, After(cfg, tr, e);
            && Valid(cfg, tr') && tr'.row.window == w
            && if IsQuiet(cfg, w, e.now) then
                 && tr'.calls == tr.calls
                 && tr'.row.status.Failed?
                 && tr'.row.attemptNo == tr.row.attemptNo
                 && tr'.row.nextRetryAt == NextQuietHoursRetry(cfg, w, e.now)
                 && tr'.row.nextRetryAt.Some?
                 && e.now < tr'.row.nextRetryAt.value <= e.now + QuietSpan(w)
               else
                 && |tr'.calls| == |tr.calls| + 1
                 && (!tr'.row.IsTerminal() ==>
                       && tr'.row.attemptNo == tr.row.attemptNo + 1
                       && tr'.row.nextRetryAt.Some?
                       && tr'.row.nextRetryAt.value <= e.now + LongestGap(cfg, w))
  {
    ExecuteKeepsValid(cfg, tr, e.now, e.reply, e.jitter);
    QuietRetryIffQuiet(cfg, tr.row.window, e.now);
    RetryAtBounds(cfg, tr.row, e.now, e.jitter);
  }

  /** The longest time from one call to the next when nothing is late. */
  function LongestGap(cfg: Settings, w: Window): nat {
    Max(cfg.maxDelaySeconds, 0) * SECOND + QuietSpan(w)
  }

  /** The executions all find the attempt open and are late by less than the free part of a day. */
  predicate Punctual(cfg: Settings, tr: Track, es: seq<Execution>)
    decreases |es|
  {
    es != [] ==>
      && !tr.row.IsTerminal()
      && (tr.row.nextRetryAt.Some? ==>
            tr.row.nextRetryAt.value <= es[0].now < tr.row.nextRetryAt.value + DAY - QuietSpan(tr.row.window))
      && Punctual(cfg, After(cfg, tr, es[0]), es[1..])
  }

  /** The plan is followed by the whole free part of a day, so the next punctual execution calls the
      provider. */
  ghost predicate Settled(cfg: Settings, w: Window, plan: Option<int>) {
    && plan.Some?
    && forall t :: plan.value <= t < plan.value + DAY - QuietSpan(w) ==> !IsQuiet(cfg, w, t)
  }

  /** Tries left and a pending quiet delay, folded into one number. */
  ghost function Measure(cfg: Settings, tr: Track): int {
    if tr.row.IsTerminal() then
      0
    else
      2 * (Budget(cfg) - tr.row.attemptNo) - if Settled(cfg, tr.row.window, tr.row.nextRetryAt) then 1 else 0
  }

  lemma QuietDelaySettles(cfg: Settings, w: Window, now: int)
    requires IsQuiet(cfg, w, now)
    ensures Settled(cfg, w, NextQuietHoursRetry(cfg, w, now))
  {
    QuietRetryIffQuiet(cfg, w, now);
    var next := NextQuietHoursRetry(cfg, w, now).value;
    forall t | next <= t < next + DAY - QuietSpan(w) ensures !IsQuiet(cfg, w, t) {
      FreeAfterClosing(now, ZoneOffset(cfg.zones, w.timezone), w.start.value, w.end.value, t);
    }
  }

  lemma PunctualExecutionProgresses(cfg: Settings, tr: Track, e: Execution)
    requires Valid(cfg, tr) && Punctual(cfg, tr, [e])
    ensures 0 <= Measure(cfg, After(cfg, tr, e)) < Measure(cfg, tr)
    ensures if IsQuiet(cfg, tr.row.window, e.now)
            then !Settled(cfg, tr.row.window, tr.row.nextRetryAt)
                 && Settled(cfg, tr.row.window, After(cfg, tr, e).row.nextRetryAt)
            else |After(cfg, tr, e).calls| == |tr.calls| + 1
  {
    TimelyExecution(cfg, tr, e);
    if IsQuiet(cfg, tr.row.window, e.now) {
      QuietDelaySettles(cfg, tr.row.window, e.now);
    }
  }

  /** However refusals and quiet hours fall, an attempt whose jobs run punctually is finished after at
      most two executions per permitted provider call. */
  lemma {:induction false} EveryAttemptFinishes(cfg: Settings, tr: Track, es: seq<Execution>)
    requires Valid(cfg, tr) && Punctual(cfg, tr, es)
    ensures |es| <= Measure(cfg, tr) <= 2 * Budget(cfg)
    decreases |es|
  {
    if es != [] {
      PunctualExecutionProgresses(cfg, tr, es[0]);
      TimelyExecution(cfg, tr, es[0]);
      EveryAttemptFinishes(cfg, After(cfg, tr, es[0]), es[1..]);
    }
  }

  /** Two punctual executions in a row include a provider call: there is at most one quiet delay
      before each call. */
  lemma AtMostOneQuietDelayPerCall(cfg: Settings, tr: Track, first: Execution, second: Execution)
    requires Valid(cfg, tr) && Punctual(cfg, tr, [first, second])
    ensures |After(cfg, After(cfg, tr, first), second).calls| > |tr.calls|
  {
    assert [first, second][1..] == [second];
    TimelyExecution(cfg, tr, first);
    PunctualExecutionProgresses(cfg, tr, first);
    PunctualExecutionProgresses(cfg, After(cfg, tr, first), second);
  }

  /** When the follow-up job of an execution at `last` falls due, if nothing is late. */
  function ReadyAt(plan: Option<int>, last: int): int {
    if plan.Some? then Max(plan.value, last) else last
  }

  /** The executions all find the attempt open and none is late. */
  predicate Prompt(cfg: Settings, tr: Track, last: int, es: seq<Execution>)
    decreases |es|
  {
    es != [] ==>
      && !tr.row.IsTerminal()
      && es[0].now == ReadyAt(tr.row.nextRetryAt, last)
      && Prompt(cfg, After(cfg, tr, es[0]), es[0].now, es[1..])
  }

  function Gaps(n: int, gap: nat): nat
    decreases n
  {
    if n <= 0 then 0 else gap + Gaps(n - 1, gap)
  }

  lemma GapsMultiply(n: nat, gap: nat)
    ensures Gaps(n, gap) == n * gap
  {
  }

  /** The latest instant at which an execution can happen when nothing is late. */
  function LatestExecution(cfg: Settings, a: Attempt, ready: int): int {
    ready + (if IsQuiet(cfg, a.window, ready) then QuietSpan(a.window) else 0)
          + Gaps(Budget(cfg) - 1 - a.attemptNo, LongestGap(cfg, a.window))
  }

  lemma PromptExecutionKeepsLatest(cfg: Settings, tr: Track, e: Execution)
    requires Valid(cfg, tr) && !tr.row.IsTerminal()
    requires tr.row.nextRetryAt.Some? ==> tr.row.nextRetryAt.value <= e.now
    ensures var row' := After(cfg, tr, e).row;
            !row'.IsTerminal() ==>
              var ready' := ReadyAt(row'.nextRetryAt, e.now);
              && e.now <= ready'
              && !IsQuiet(cfg, row'.window, ready')
              && row'.attemptNo == tr.row.attemptNo + (if IsQuiet(cfg, tr.row.window, e.now) then 0 else 1)
              && LatestExecution(cfg, row', ready') <= LatestExecution(cfg, tr.row, e.now)
  {
    TimelyExecution(cfg, tr, e);
  }

  /** Without lateness only the very first execution can meet quiet hours: there is at most one quiet
      delay in the whole life, and the last execution happens at most one window plus one longest gap
      per retry after the first. */
  lemma {:induction false} ElapsedTimeBound(cfg: Settings, tr: Track, last: int, es: seq<Execution>)
    requires Valid(cfg, tr) && Prompt(cfg, tr, last, es) && !tr.row.IsTerminal()
    ensures var ready := ReadyAt(tr.row.nextRetryAt, last);
            && |es| <= Budget(cfg) - tr.row.attemptNo + (if IsQuiet(cfg, tr.row.window, ready) then 1 else 0)
            && forall i :: 0 <= i < |es| ==> ready <= es[i].now <= LatestExecution(cfg, tr.row, ready)
    decreases |es|
  {
    if es != [] {
      var tr' := After(cfg, tr, es[0]);
      TimelyExecution(cfg, tr, es[0]);
      PromptExecutionKeepsLatest(cfg, tr, es[0]);
      if !tr'.row.IsTerminal() {
        ElapsedTimeBound(cfg, tr', es[0].now, es[1..]);
      }
      assert forall i :: 1 <= i < |es| ==> es[i] == es[1..][i - 1];
    }
  }

  /** The longest time to any execution of a fresh attempt when nothing is late. */
  function LatestInTime(cfg: Settings, w: Window): int {
    QuietSpan(w) + (Budget(cfg) - 1) * (Max(cfg.maxDelaySeconds, 0) * SECOND + QuietSpan(w))
  }

  lemma FirstLatestExecution(cfg: Settings, a: Attempt, start: int)
    requires a.attemptNo == 0
    ensures LatestExecution(cfg, a, start) <= start + LatestInTime(cfg, a.window)
  {
    GapsMultiply(Budget(cfg) - 1, LongestGap(cfg, a.window));
  }

  /** From a fresh attempt: at most one window and, per retry, the longest delay and one window. */
  lemma FreshAttemptFinishesInTime(cfg: Settings, tr: Track, start: int, es: seq<Execution>, i: nat)
    requires Valid(cfg, tr) && tr.row.status.Pending?
    requires Prompt(cfg, tr, start, es) && i < |es|
    ensures |es| <= Budget(cfg) + 1
    ensures es[i].now - start <= LatestInTime(cfg, tr.row.window)
  {
    FirstLatestExecution(cfg, tr.row, start);
    ElapsedTimeBound(cfg, tr, start, es);
  }
}
