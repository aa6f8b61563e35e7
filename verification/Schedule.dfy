/**
 Scheduled backups: which times they are for, and the folder they are kept in.
 */
module BackupSchedules {
  import opened Options

  /** Local time in microseconds, from a Monday's midnight. */
  type Time = int

  const SECOND: int := 1_000_000
  const MINUTE: int := 60 * SECOND
  const DAY: int := 24 * 60 * MINUTE
  const RETRY: int := 3600 * SECOND

  /** `at`: minutes after midnight; weekdays from Monday, 0. */
  datatype Schedule = Off | Daily(at: int) | Weekly(at: int, weekday: int)

  predicate WellSet(schedule: Schedule) {
    && (!schedule.Off? ==> 0 <= schedule.at < 24 * 60)
    && (schedule.Weekly? ==> 0 <= schedule.weekday < 7)
  }

  function WeekdayOf(t: Time): int {
    (t / DAY) % 7
  }

  function OnDayOf(now: Time, at: int): Time {
    (now / DAY) * DAY + at * MINUTE
  }

  function LastSlot(now: Time, schedule: Schedule): Option<Time> {
    match schedule
    case Off => None
    case Daily(at) =>
      var slot := OnDayOf(now, at);
      Some(if slot <= now then slot else slot - DAY)
    case Weekly(at, weekday) =>
      var slot := OnDayOf(now, at) - ((WeekdayOf(now) - weekday) % 7) * DAY;
      Some(if slot <= now then slot else slot - 7 * DAY)
  }

  function NextSlot(now: Time, schedule: Schedule): Option<Time> {
    var slot := LastSlot(now, schedule);
    if slot.None? then None else Some(slot.value + (if schedule.Daily? then DAY else 7 * DAY))
  }

  // ---------- A schedule's times ----------

  /** The time is one the schedule names: that time of day, on that weekday. */
  predicate IsSlot(t: Time, schedule: Schedule) {
    match schedule
    case Off => false
    case Daily(at) => t % DAY == at * MINUTE
    case Weekly(at, weekday) => t % DAY == at * MINUTE && WeekdayOf(t) == weekday
  }

  lemma DaySplits(day: int, rest: int)
    requires 0 <= rest < DAY
    ensures (day * DAY + rest) / DAY == day && (day * DAY + rest) % DAY == rest
  {
  }

  lemma OnDayIs(now: Time, days: int, at: int)
    requires 0 <= at < 24 * 60
    ensures var t := OnDayOf(now, at) + days * DAY; t % DAY == at * MINUTE && t / DAY == now / DAY + days
  {
    DaySplits(now / DAY + days, at * MINUTE);
  }

  /** Two times of day alike are whole days apart. */
  lemma DaysApart(t: Time, u: Time)
    requires t % DAY == u % DAY
    ensures u - t == (u / DAY - t / DAY) * DAY
  {
  }

  lemma DailyIsSlot(now: Time, at: int)
    requires 0 <= at < 24 * 60
    ensures var slot := LastSlot(now, Daily(at)).value; slot % DAY == at * MINUTE && slot <= now < slot + DAY
  {
    OnDayIs(now, 0, at);
    OnDayIs(now, -1, at);
    assert now == (now / DAY) * DAY + now % DAY;
  }

  lemma WeeklyIsSlot(now: Time, at: int, weekday: int)
    requires 0 <= at < 24 * 60 && 0 <= weekday < 7
    ensures var slot := LastSlot(now, Weekly(at, weekday)).value;
            slot % DAY == at * MINUTE && WeekdayOf(slot) == weekday && slot <= now < slot + 7 * DAY
  {
    var day := now / DAY;
    var back := (day % 7 - weekday) % 7;
    var first := (day - back) * DAY + at * MINUTE;
    assert LastSlot(now, Weekly(at, weekday)) == Some(if first <= now then first else first - 7 * DAY) by {
      assert OnDayOf(now, at) - back * DAY == first;
    }
    BackIsWeekday(day, weekday);
    IsOnWeekday(day - back, at, weekday);
    IsOnWeekday(day - back - 7, at, weekday);
    assert first - 7 * DAY == (day - back - 7) * DAY + at * MINUTE;
    DayOf(now);
    BackIsWithin(day, now - day * DAY, back, at * MINUTE);
    hide WeekdayOf;
    hide LastSlot;
    hide OnDayOf;
  }

  lemma DayOf(now: Time)
    ensures 0 <= now - (now / DAY) * DAY < DAY
  {
  }

  lemma IsOnWeekday(day: int, at: int, weekday: int)
    requires 0 <= at < 24 * 60 && day % 7 == weekday
    ensures var t := day * DAY + at * MINUTE; t % DAY == at * MINUTE && WeekdayOf(t) == weekday
  {
    DaySplits(day, at * MINUTE);
  }

  lemma BackIsWithin(day: int, rest: int, back: int, at: int)
    requires 0 <= at < DAY && 0 <= rest < DAY && 0 <= back < 7
    ensures var now, first := day * DAY + rest, (day - back) * DAY + at;
            if first <= now then now < first + 7 * DAY else first - 7 * DAY <= now
  {
  }

  lemma LastSlotIsSlot(now: Time, schedule: Schedule)
    requires WellSet(schedule) && !schedule.Off?
    ensures var slot := LastSlot(now, schedule).value;
            IsSlot(slot, schedule) && slot <= now < slot + (if schedule.Daily? then DAY else 7 * DAY)
  {
    hide LastSlot;
    hide WeekdayOf;
    if schedule.Daily? {
      DailyIsSlot(now, schedule.at);
    } else {
      WeeklyIsSlot(now, schedule.at, schedule.weekday);
    }
  }

  lemma BackIsWeekday(day: int, weekday: int)
    requires 0 <= weekday < 7
    ensures var back := (day % 7 - weekday) % 7;
            (day - back) % 7 == weekday && (day - back - 7) % 7 == weekday
  {
  }

  /** The last slot is the latest scheduled time that has come, the next one the earliest that hasn't. */
  lemma NothingBetween(now: Time, schedule: Schedule, t: Time)
    requires WellSet(schedule) && IsSlot(t, schedule)
    ensures var last, next := LastSlot(now, schedule), NextSlot(now, schedule);
            && last.Some? && next.Some?
            && IsSlot(last.value, schedule) && IsSlot(next.value, schedule)
            && last.value <= now < next.value
            && (t <= now ==> t <= last.value) && (t > now ==> t >= next.value)
  {
    LastSlotIsSlot(now, schedule);
    var last, step := LastSlot(now, schedule).value, if schedule.Daily? then 1 else 7;
    StepIsSlot(last, step, schedule);
    SlotsApart(last, t, step, schedule);
    hide IsSlot;
    hide LastSlot;
  }

  lemma StepIsSlot(last: Time, step: int, schedule: Schedule)
    requires WellSet(schedule) && IsSlot(last, schedule) && step == (if schedule.Daily? then 1 else 7)
    ensures IsSlot(last + step * DAY, schedule)
  {
    assert last == (last / DAY) * DAY + last % DAY;
    DaySplits(last / DAY + step, last % DAY);
    if schedule.Weekly? {
      WeeksApart(last / DAY, last / DAY);
    }
  }

  /** Two scheduled times are whole steps apart. */
  lemma SlotsApart(last: Time, t: Time, step: int, schedule: Schedule)
    requires WellSet(schedule) && IsSlot(last, schedule) && IsSlot(t, schedule) && step == (if schedule.Daily? then 1 else 7)
    ensures t <= last || t >= last + step * DAY
  {
    var days := t / DAY - last / DAY;
    DaysApart(last, t);
    if schedule.Weekly? {
      WeeksApart(last / DAY, t / DAY);
    }
    WholeSteps(days, step);
  }

  lemma WeeksApart(a: int, b: int)
    requires a % 7 == b % 7
    ensures (b - a) % 7 == 0 && (a + 7) % 7 == a % 7
  {
  }

  lemma WholeSteps(days: int, step: int)
    requires step in {1, 7} && days % step == 0
    ensures days <= 0 || days >= step
    ensures days * DAY <= 0 || days * DAY >= step * DAY
  {
  }

  // ---------- The folder ----------

  /** The last run's outcome, stamped to the second. */
  datatype Status = Status(time: Time, ok: bool)

  /** The scheduled backups by the second they were made in, newest first. */
  datatype Folder = Folder(stamps: seq<Time>, status: Option<Status>)

  /** How a backup ends: stored; stored, but something after it failed - before or after the old ones were deleted; or not. */
  datatype Outcome = Stored | StoredOnly(pruned: bool) | NotStored

  function WholeSecond(t: Time): Time {
    t - t % SECOND
  }

  function Newest(folder: Folder): Option<Time> {
    if folder.stamps == [] then None else Some(folder.stamps[0])
  }

  function Due(now: Time, slot: Option<Time>, newest: Option<Time>, status: Option<Status>): bool {
    && slot.Some?
    && !(newest.Some? && newest.value >= slot.value)
    && !(status.Some? && !status.value.ok && status.value.time >= slot.value && now - status.value.time < RETRY)
  }

  function Inserted(stamps: seq<Time>, t: Time): seq<Time> {
    if stamps == [] || stamps[0] <= t then [t] + stamps else [stamps[0]] + Inserted(stamps[1..], t)
  }

  function Pruned(stamps: seq<Time>, keep: nat): seq<Time> {
    if |stamps| <= keep then stamps else stamps[..keep]
  }

  function Ran(folder: Folder, now: Time, keep: nat, outcome: Outcome): Folder {
    var stamps := if outcome.NotStored? then folder.stamps else Inserted(folder.stamps, WholeSecond(now));
    Folder(if outcome.Stored? || (outcome.StoredOnly? && outcome.pruned) then Pruned(stamps, keep) else stamps,
           Some(Status(WholeSecond(now), outcome.Stored?)))
  }

  /** Newest first. */
  ghost predicate Ordered(stamps: seq<Time>) {
    forall i, j | 0 <= i < j < |stamps| :: stamps[i] >= stamps[j]
  }

  lemma {:induction false} InsertedIsOrdered(stamps: seq<Time>, t: Time)
    requires Ordered(stamps)
    ensures Ordered(Inserted(stamps, t)) && forall s :: s in Inserted(stamps, t) <==> s in stamps || s == t
  {
    if stamps != [] && stamps[0] > t {
      assert stamps == [stamps[0]] + stamps[1..];
      InsertedIsOrdered(stamps[1..], t);
      var rest := Inserted(stamps[1..], t);
      assert forall k | 0 <= k < |rest| :: rest[k] in rest;
    }
  }

  predicate Runs(folder: Folder, now: Time, schedule: Schedule) {
    Due(now, LastSlot(now, schedule), Newest(folder), folder.status)
  }

  class BackupFolder {
    var stamps: seq<Time>
    var status: Option<Status>

    ghost function Abstract(): Folder
      reads this
    {
      Folder(stamps, status)
    }

    ghost predicate Valid()
      reads this
    {
      Ordered(stamps)
    }

    constructor ()
      ensures Valid() && Abstract() == Folder([], None)
    {
      stamps, status := [], None;
    }

    /** What is deleted is older than all that is kept. */
    method Prune(keep: nat)
      requires Valid()
      modifies `stamps
      ensures Valid() && stamps == Pruned(old(stamps), keep) && |stamps| <= keep
      ensures stamps <= old(stamps) && forall kept, gone | kept in stamps && gone in old(stamps)[|stamps|..] :: gone <= kept
    {
      if |stamps| > keep {
        stamps := stamps[..keep];
      }
    }

    /** One scheduled backup, then retention; its outcome is kept either way. */
    method RunScheduled(now: Time, keep: nat, outcome: Outcome)
      requires Valid()
      modifies this
      ensures Valid() && Abstract() == Ran(old(Abstract()), now, keep, outcome)
      ensures outcome.Stored? ==> |stamps| <= keep
      ensures keep > 0 && !outcome.NotStored? ==> stamps != [] && stamps[0] >= WholeSecond(now)
      ensures outcome.NotStored? ==> stamps == old(stamps)
      ensures outcome.StoredOnly? && outcome.pruned ==> |stamps| <= keep
      ensures outcome.StoredOnly? && !outcome.pruned ==> forall s :: s in stamps <==> s in old(stamps) || s == WholeSecond(now)
      ensures status.Some? && status.value.time == WholeSecond(now) && (status.value.ok <==> outcome.Stored?)
    {
      if !outcome.NotStored? {
        InsertedIsOrdered(stamps, WholeSecond(now));
        stamps := Inserted(stamps, WholeSecond(now));
        if outcome.Stored? || outcome.pruned {
          Prune(keep);
        }
      }
      status := Some(Status(WholeSecond(now), outcome.Stored?));
    }

    /** After a stored backup the newest one reaches the slot, and the same slot is never due again. */
    method Tick(now: Time, schedule: Schedule, keep: nat, outcome: Outcome) returns (ran: bool)
      requires Valid() && WellSet(schedule) && keep > 0
      modifies this
      ensures Valid() && ran == Runs(old(Abstract()), now, schedule)
      ensures Abstract() == if ran then Ran(old(Abstract()), now, keep, outcome) else old(Abstract())
      ensures ran && !outcome.NotStored? ==> Reaches(Newest(Abstract()), LastSlot(now, schedule).value)
      ensures ran && !outcome.NotStored? ==>
                forall later | LastSlot(later, schedule) == LastSlot(now, schedule) :: !Runs(Abstract(), later, schedule)
      ensures old(status).None? || old(status).value.ok ==>
                LastSlot(now, schedule).None? || ran || Reaches(Newest(old(Abstract())), LastSlot(now, schedule).value)
    {
      ran := Due(now, LastSlot(now, schedule), if stamps == [] then None else Some(stamps[0]), status);
      if ran {
        LastSlotExists(now, schedule);
        SlotIsWhole(now, schedule);
        RanReaches(Abstract(), now, keep, outcome, LastSlot(now, schedule).value);
        RunScheduled(now, keep, outcome);
      }
      hide LastSlot;
      hide Ran;
    }
  }

  // ---------- Every run of the scheduler ----------

  datatype Tick = Tick(now: Time, outcome: Outcome)

  /** A backup begun: when, for which slot, and how it ended. */
  datatype Attempt = Attempt(now: Time, slot: Time, outcome: Outcome)

  datatype State = State(folder: Folder, attempts: seq<Attempt>)

  function Ticked(s: State, tick: Tick, schedule: Schedule, keep: nat): State {
    if !Runs(s.folder, tick.now, schedule) then s
    else
      State(Ran(s.folder, tick.now, keep, tick.outcome),
            s.attempts + [Attempt(tick.now, LastSlot(tick.now, schedule).value, tick.outcome)])
  }

  function After(s: State, ticks: seq<Tick>, schedule: Schedule, keep: nat): State
    decreases |ticks|
  {
    if ticks == [] then s else After(Ticked(s, ticks[0], schedule, keep), ticks[1..], schedule, keep)
  }

  ghost predicate Reaches(newest: Option<Time>, t: Time) {
    newest.Some? && newest.value >= t
  }

  /** A slot with a stored backup is never due again. */
  ghost predicate StoredHolds(s: State) {
    && (forall i | 0 <= i < |s.attempts| && !s.attempts[i].outcome.NotStored? :: Reaches(Newest(s.folder), s.attempts[i].slot))
    && (forall i, j | 0 <= i < j < |s.attempts| && !s.attempts[i].outcome.NotStored? :: s.attempts[i].slot < s.attempts[j].slot)
  }

  lemma RanReaches(folder: Folder, now: Time, keep: nat, outcome: Outcome, t: Time)
    requires keep > 0
    ensures Reaches(Newest(Ran(folder, now, keep, outcome)), t) <==>
              Reaches(Newest(folder), t) || (!outcome.NotStored? && t <= WholeSecond(now))
  {
  }

  lemma SlotIsWhole(now: Time, schedule: Schedule)
    requires WellSet(schedule) && !schedule.Off?
    ensures var slot := LastSlot(now, schedule).value; slot <= WholeSecond(now)
  {
    LastSlotIsSlot(now, schedule);
    var slot := LastSlot(now, schedule).value;
    assert slot == (slot / DAY) * DAY + slot % DAY;
    WholeMinutes(slot / DAY, schedule.at);
    assert slot % SECOND == 0;
    WholeBelow(slot, now);
  }

  lemma WholeMinutes(day: int, at: int)
    ensures (day * DAY + at * MINUTE) % SECOND == 0
  {
    assert day * DAY + at * MINUTE == (day * 86_400 + at * 60) * SECOND;
  }

  lemma WholeBelow(t: Time, now: Time)
    requires t % SECOND == 0 && t <= now
    ensures t <= WholeSecond(now)
  {
  }

  lemma TickKeepsStored(s: State, tick: Tick, schedule: Schedule, keep: nat)
    requires WellSet(schedule) && keep > 0 && StoredHolds(s)
    ensures StoredHolds(Ticked(s, tick, schedule, keep))
  {
    hide LastSlot;
    if Runs(s.folder, tick.now, schedule) {
      var t := Ticked(s, tick, schedule, keep);
      LastSlotExists(tick.now, schedule);
      SlotIsWhole(tick.now, schedule);
      forall i | 0 <= i < |t.attempts| && !t.attempts[i].outcome.NotStored? ensures Reaches(Newest(t.folder), t.attempts[i].slot) {
        RanReaches(s.folder, tick.now, keep, tick.outcome, t.attempts[i].slot);
      }
      hide Ran;
    }
  }

  lemma LastSlotExists(now: Time, schedule: Schedule)
    ensures LastSlot(now, schedule).Some? <==> !schedule.Off?
  {
  }

  /** Whatever the clock and the backups do: two stored backups are for different slots, the later for the later one. */
  lemma {:induction false} OneBackupPerSlot(s: State, ticks: seq<Tick>, schedule: Schedule, keep: nat)
    requires WellSet(schedule) && keep > 0 && StoredHolds(s)
    ensures StoredHolds(After(s, ticks, schedule, keep))
    decreases |ticks|
  {
    if ticks != [] {
      TickKeepsStored(s, ticks[0], schedule, keep);
      OneBackupPerSlot(Ticked(s, ticks[0], schedule, keep), ticks[1..], schedule, keep);
    }
  }

  // ---------- A missed slot is caught up ----------

  predicate NoFailure(folder: Folder) {
    folder.status.Some? ==> folder.status.value.ok
  }

  /** While backups succeed, a tick backs up exactly when a slot has come since the newest backup - however many were missed -
      and afterwards none is. */
  lemma TickCatchesUp(folder: Folder, now: Time, schedule: Schedule, keep: nat)
    requires WellSet(schedule) && !schedule.Off? && keep > 0 && NoFailure(folder)
    ensures var slot := LastSlot(now, schedule).value;
            && (Runs(folder, now, schedule) <==> !Reaches(Newest(folder), slot))
            && var after := Ticked(State(folder, []), Tick(now, Stored), schedule, keep).folder;
            Reaches(Newest(after), slot) && NoFailure(after) && !Runs(after, now, schedule)
  {
    SlotIsWhole(now, schedule);
    LastSlotExists(now, schedule);
    RanReaches(folder, now, keep, Stored, LastSlot(now, schedule).value);
    hide LastSlot;
  }

  // ---------- Retries ----------

  ghost predicate InTime(ticks: seq<Tick>, from: Time) {
    && (forall i | 0 <= i < |ticks| :: from <= ticks[i].now)
    && (forall i, j | 0 <= i < j < |ticks| :: ticks[i].now <= ticks[j].now)
  }

  ghost predicate RetriesHold(s: State, schedule: Schedule) {
    && (forall i | 0 <= i < |s.attempts| :: !schedule.Off? && s.attempts[i].slot == LastSlot(s.attempts[i].now, schedule).value)
    && (forall i, j | 0 <= i < j < |s.attempts| :: s.attempts[i].now <= s.attempts[j].now)
    && (s.attempts != [] ==>
          var last := s.attempts[|s.attempts| - 1]; s.folder.status == Some(Status(WholeSecond(last.now), last.outcome.Stored?)))
    && (forall i, j | 0 <= i < j < |s.attempts| && s.attempts[i].slot == s.attempts[j].slot ::
          !s.attempts[i].outcome.Stored? && s.attempts[j].now - WholeSecond(s.attempts[i].now) >= RETRY)
  }

  lemma SlotsRise(t: Time, u: Time, schedule: Schedule)
    requires WellSet(schedule) && !schedule.Off? && t <= u
    ensures LastSlot(t, schedule).value <= LastSlot(u, schedule).value
  {
    LastSlotIsSlot(t, schedule);
    NothingBetween(u, schedule, LastSlot(t, schedule).value);
  }

  lemma TickKeepsRetries(s: State, tick: Tick, schedule: Schedule, keep: nat)
    requires WellSet(schedule) && keep > 0 && StoredHolds(s) && RetriesHold(s, schedule)
    requires forall i | 0 <= i < |s.attempts| :: s.attempts[i].now <= tick.now
    ensures RetriesHold(Ticked(s, tick, schedule, keep), schedule)
  {
    hide LastSlot;
    if Runs(s.folder, tick.now, schedule) {
      LastSlotExists(tick.now, schedule);
      SlotIsWhole(tick.now, schedule);
      var slot := LastSlot(tick.now, schedule).value;
      var n := |s.attempts|;
      forall i | 0 <= i < n && s.attempts[i].slot == slot
        ensures !s.attempts[i].outcome.Stored? && tick.now - WholeSecond(s.attempts[i].now) >= RETRY
      {
        var last := s.attempts[n - 1];
        SlotsRise(s.attempts[i].now, last.now, schedule);
        SlotsRise(last.now, tick.now, schedule);
        assert last.slot == slot;
        SlotIsWhole(last.now, schedule);
        WholeRises(s.attempts[i].now, last.now);
      }
    }
  }

  lemma WholeRises(t: Time, u: Time)
    requires t <= u
    ensures WholeSecond(t) <= WholeSecond(u)
  {
  }

  lemma {:induction false} RunKeepsRetries(s: State, ticks: seq<Tick>, schedule: Schedule, keep: nat, from: Time)
    requires WellSet(schedule) && keep > 0 && StoredHolds(s) && RetriesHold(s, schedule)
    requires InTime(ticks, from) && forall i | 0 <= i < |s.attempts| :: s.attempts[i].now <= from
    ensures RetriesHold(After(s, ticks, schedule, keep), schedule)
    decreases |ticks|
  {
    hide StoredHolds;
    hide RetriesHold;
    hide LastSlot;
    if ticks != [] {
      TickKeepsStored(s, ticks[0], schedule, keep);
      TickKeepsRetries(s, ticks[0], schedule, keep);
      assert forall i | 0 <= i < |ticks| - 1 :: ticks[1..][i] == ticks[i + 1];
      RunKeepsRetries(Ticked(s, ticks[0], schedule, keep), ticks[1..], schedule, keep, ticks[0].now);
    }
  }

  /** On a clock that doesn't go back: two attempts for one slot are more than an hour less a second apart, and all but the last
      failed. */
  lemma RetriesAreApart(folder: Folder, ticks: seq<Tick>, schedule: Schedule, keep: nat, from: Time, i: nat, j: nat)
    requires WellSet(schedule) && keep > 0 && InTime(ticks, from)
    requires i < j < |After(State(folder, []), ticks, schedule, keep).attempts|
    ensures var attempts := After(State(folder, []), ticks, schedule, keep).attempts;
            attempts[i].slot == attempts[j].slot ==>
              !attempts[i].outcome.Stored? && attempts[j].now - attempts[i].now > 3_599_000_000
  {
    RunKeepsRetries(State(folder, []), ticks, schedule, keep, from);
  }

  /** When exactly a backup that ran at t runs again at u: with the next slot - or, for the same one, if it was not stored, an
      hour after the second it ran in. */
  lemma RunsAgainIff(folder: Folder, t: Time, u: Time, schedule: Schedule, keep: nat, outcome: Outcome)
    requires WellSet(schedule) && keep > 0 && t <= u && Runs(folder, t, schedule)
    ensures Runs(Ran(folder, t, keep, outcome), u, schedule) <==>
              LastSlot(u, schedule) != LastSlot(t, schedule) || (outcome.NotStored? && u - WholeSecond(t) >= RETRY)
  {
    LastSlotExists(t, schedule);
    LastSlotExists(u, schedule);
    SlotIsWhole(t, schedule);
    LastSlotIsSlot(u, schedule);
    NothingBetween(t, schedule, LastSlot(u, schedule).value);
    SlotsRise(t, u, schedule);
    RanReaches(folder, t, keep, outcome, LastSlot(u, schedule).value);
    hide LastSlot;
    hide IsSlot;
  }

  /** A failed backup runs again for its slot within the hour at some time, exactly if it ran within a second - not on it - and the
      slot is still the last one an hour after that second. */
  lemma EarlyRetryIff(folder: Folder, t: Time, schedule: Schedule, keep: nat)
    requires WellSet(schedule) && keep > 0 && Runs(folder, t, schedule)
    ensures (exists u :: RetriesEarly(folder, t, u, schedule, keep)) <==>
              t % SECOND != 0 && LastSlot(WholeSecond(t) + RETRY, schedule) == LastSlot(t, schedule)
  {
    var first := WholeSecond(t) + RETRY;
    LastSlotExists(t, schedule);
    if u :| RetriesEarly(folder, t, u, schedule, keep) {
      RunsAgainIff(folder, t, u, schedule, keep, NotStored);
      LastSlotExists(u, schedule);
      LastSlotExists(first, schedule);
      SlotsRise(t, first, schedule);
      SlotsRise(first, u, schedule);
    }
    if t % SECOND != 0 && LastSlot(first, schedule) == LastSlot(t, schedule) {
      RunsAgainIff(folder, t, first, schedule, keep, NotStored);
      assert RetriesEarly(folder, t, first, schedule, keep);
    }
    hide LastSlot;
    hide Ran;
    hide Due;
  }

  ghost predicate RetriesEarly(folder: Folder, t: Time, u: Time, schedule: Schedule, keep: nat) {
    && t <= u && u - t < RETRY && LastSlot(u, schedule) == LastSlot(t, schedule)
    && Runs(Ran(folder, t, keep, NotStored), u, schedule)
  }
}
