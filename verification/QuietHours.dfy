/** Quiet hours of one subscriber: a daily window of local time in which nothing may be delivered.
    Instants are microseconds since the epoch, times of day are microseconds since local midnight,
    and a zone is a constant offset from UTC. */
module QuietHours {
  import opened Options

  const DAY: int := 86_400_000_000

  type TimeOfDay = t: int | 0 <= t < DAY witness 0

  /** A subscriber's quiet hours as the rows store them; a missing bound means none. */
  datatype Window = Window(start: Option<TimeOfDay>, end: Option<TimeOfDay>, timezone: string)

  /** The zone database: the offset of every zone name it knows. */
  type Zones = map<string, int>

  /** An empty name means UTC, and so does a name that the database does not know. */
  function ZoneOffset(zones: Zones, name: string): int {
    if name == "" || name == "UTC" || name !in zones then 0 else zones[name]
  }

  function LocalTime(now: int, offset: int): TimeOfDay {
    (now + offset) % DAY
  }

  function LocalDate(now: int, offset: int): int {
    (now + offset) / DAY
  }

  predicate IsInQuietHours(local: TimeOfDay, start: TimeOfDay, end: TimeOfDay) {
    if start == end then
      false
    else if start < end then
      start <= local < end
    else
      local >= start || local < end
  }

  function QuietEndDate(date: int, local: TimeOfDay, start: TimeOfDay, end: TimeOfDay): int {
    if start < end then date else if local >= start then date + 1 else date
  }

  function NextAllowedTime(now: int, offset: int, start: TimeOfDay, end: TimeOfDay): int {
    var local := LocalTime(now, offset);
    if !IsInQuietHours(local, start, end) then
      now
    else
      QuietEndDate(LocalDate(now, offset), local, start, end) * DAY + end - offset
  }

  /** Whether the instant falls into quiet hours. */
  predicate QuietAt(now: int, offset: int, start: TimeOfDay, end: TimeOfDay) {
    IsInQuietHours(LocalTime(now, offset), start, end)
  }

  /** How long each daily window lasts; 0 when the bounds are equal. */
  function QuietLength(start: TimeOfDay, end: TimeOfDay): TimeOfDay {
    (end - start) % DAY
  }

  /** How long ago the window last opened. */
  function SinceOpening(now: int, offset: int, start: TimeOfDay): TimeOfDay {
    (now + offset - start) % DAY
  }

  /** One formula for same-day, cross-midnight and empty windows: an instant is quiet exactly while
      less than the window's length has passed since the window last opened. */
  lemma QuietIffWithinWindow(now: int, offset: int, start: TimeOfDay, end: TimeOfDay)
    ensures QuietAt(now, offset, start, end) <==> SinceOpening(now, offset, start) < QuietLength(start, end)
  {
    var local, date := LocalTime(now, offset), LocalDate(now, offset);
    assert now + offset == date * DAY + local;
    ModShift(date, local - start);
    ModShift(0, end - start);
  }

  /** The remainder of a day count plus less than one day either way. */
  lemma ModShift(days: int, rest: int)
    requires -DAY < rest < DAY
    ensures (days * DAY + rest) % DAY == if rest >= 0 then rest else rest + DAY
  {
  }

  /** The next allowed time closes the current window, or is now. */
  lemma NextAllowedClosesWindow(now: int, offset: int, start: TimeOfDay, end: TimeOfDay)
    ensures NextAllowedTime(now, offset, start, end)
         == if QuietAt(now, offset, start, end)
            then now + QuietLength(start, end) - SinceOpening(now, offset, start)
            else now
  {
    var local, date := LocalTime(now, offset), LocalDate(now, offset);
    assert now + offset == date * DAY + local;
    ModShift(date, local - start);
    ModShift(0, end - start);
  }

  /** Moving d microseconds on moves the time since the opening by d, up to the next opening. */
  lemma SinceOpeningAdvances(now: int, offset: int, start: TimeOfDay, d: int)
    requires 0 <= d < DAY
    ensures var s := SinceOpening(now, offset, start);
            SinceOpening(now + d, offset, start) == if s + d < DAY then s + d else s + d - DAY
  {
  }

  /** The result is the least instant at or after now that is not quiet, and the wait never exceeds
      one window. */
  lemma NextAllowedIsLeast(now: int, offset: int, start: TimeOfDay, end: TimeOfDay)
    ensures var next := NextAllowedTime(now, offset, start, end);
            && now <= next <= now + QuietLength(start, end) < now + DAY
            && !QuietAt(next, offset, start, end)
            && (forall t :: now <= t < next ==> QuietAt(t, offset, start, end))
  {
    var next := NextAllowedTime(now, offset, start, end);
    var since := SinceOpening(now, offset, start);
    NextAllowedClosesWindow(now, offset, start, end);
    QuietIffWithinWindow(now, offset, start, end);
    if QuietAt(now, offset, start, end) {
      SinceOpeningAdvances(now, offset, start, next - now);
      QuietIffWithinWindow(next, offset, start, end);
      forall t | now <= t < next ensures QuietAt(t, offset, start, end) {
        SinceOpeningAdvances(now, offset, start, t - now);
        QuietIffWithinWindow(t, offset, start, end);
      }
    }
  }

  /** That description fixes the result: no other instant satisfies it. */
  lemma NextAllowedIsUnique(now: int, offset: int, start: TimeOfDay, end: TimeOfDay, other: int)
    requires now <= other && !QuietAt(other, offset, start, end)
    requires forall t :: now <= t < other ==> QuietAt(t, offset, start, end)
    ensures other == NextAllowedTime(now, offset, start, end)
  {
    NextAllowedIsLeast(now, offset, start, end);
  }

  lemma NextAllowedIsIdempotent(now: int, offset: int, start: TimeOfDay, end: TimeOfDay)
    ensures var next := NextAllowedTime(now, offset, start, end);
            NextAllowedTime(next, offset, start, end) == next
  {
    NextAllowedIsLeast(now, offset, start, end);
  }

  lemma NextAllowedIsMonotone(now: int, later: int, offset: int, start: TimeOfDay, end: TimeOfDay)
    requires now <= later
    ensures NextAllowedTime(now, offset, start, end) <= NextAllowedTime(later, offset, start, end)
  {
    NextAllowedIsLeast(now, offset, start, end);
    NextAllowedIsLeast(later, offset, start, end);
  }

  /** Equal bounds mean that no instant is ever quiet, and different bounds that some instant is. */
  lemma NeverQuietIffEqualBounds(offset: int, start: TimeOfDay, end: TimeOfDay)
    ensures (forall now :: !QuietAt(now, offset, start, end)) <==> start == end
  {
    if start != end {
      QuietIffWithinWindow(start - offset, offset, start, end);
      ModShift(0, end - start);
      assert QuietAt(start - offset, offset, start, end);
    }
  }

  /** After a window closes, the rest of the day is free. */
  lemma FreeAfterClosing(now: int, offset: int, start: TimeOfDay, end: TimeOfDay, t: int)
    requires QuietAt(now, offset, start, end)
    requires var next := NextAllowedTime(now, offset, start, end);
             next <= t < next + DAY - QuietLength(start, end)
    ensures !QuietAt(t, offset, start, end)
  {
    var next := NextAllowedTime(now, offset, start, end);
    NextAllowedClosesWindow(now, offset, start, end);
    QuietIffWithinWindow(now, offset, start, end);
    SinceOpeningAdvances(now, offset, start, next - now);
    SinceOpeningAdvances(next, offset, start, t - next);
    QuietIffWithinWindow(t, offset, start, end);
  }
}
