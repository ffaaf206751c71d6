/**
 The decision-window scheduler: any number of processes tick against one lease
 table, each with its own clock.  Times are microseconds of New York local time
 counted from midnight of day 0.
 */
module Scheduler {
  import opened Options

  datatype Window = Morning | Midday | Afternoon | Late

  const MINUTE: nat := 60_000_000
  const DAY: nat := 24 * 60 * MINUTE

  /** The minute of the day in which a window is evaluated. */
  function EvaluationMinute(w: Window): nat {
    match w
    case Morning => 10 * 60 + 5
    case Midday => 11 * 60 + 35
    case Afternoon => 13 * 60 + 5
    case Late => 14 * 60 + 20
  }

  /** The minute of the day in which a window's pending certificate is executed. */
  function ExecutionMinute(w: Window): nat {
    match w
    case Morning => 10 * 60 + 10
    case Midday => 11 * 60 + 40
    case Afternoon => 13 * 60 + 10
    case Late => 14 * 60 + 25
  }

  function DateOf(now: nat): nat { now / DAY }

  function MinuteOf(now: nat): nat { now % DAY / MINUTE }

  function EvaluationWindowDue(now: nat): Option<Window> {
    var m := MinuteOf(now);
    if m == EvaluationMinute(Morning) then Some(Morning)
    else if m == EvaluationMinute(Midday) then Some(Midday)
    else if m == EvaluationMinute(Afternoon) then Some(Afternoon)
    else if m == EvaluationMinute(Late) then Some(Late)
    else None
  }

  function ExecutionWindowDue(now: nat): Option<Window> {
    var m := MinuteOf(now);
    if m == ExecutionMinute(Morning) then Some(Morning)
    else if m == ExecutionMinute(Midday) then Some(Midday)
    else if m == ExecutionMinute(Afternoon) then Some(Afternoon)
    else if m == ExecutionMinute(Late) then Some(Late)
    else None
  }

  type Slot = (nat, Window)                       // a trading date and a window

  datatype Lease = Lease(owner: nat, acquiredAt: nat, until: nat)

  /** Whether the slot can be leased at a time. */
  predicate Free(leases: map<Slot, Lease>, slot: Slot, now: nat) {
    slot in leases ==> leases[slot].until <= now
  }

  /** What the processes share: the lease table, and what evaluate and execute have been called for. */
  datatype Ledger = Ledger(leases: map<Slot, Lease>, evaluated: seq<Slot>, executed: seq<Slot>)

  const EMPTY_LEDGER := Ledger(map[], [], [])

  /** One tick: who ticks, when, with which lease length, and what its collaborators answer. */
  datatype Tick = Tick(
    owner: nat,
    now: nat,
    ttl: nat,
    ready: bool,                                  // preflight passed, earlier closes and entries are settled
    session: Option<(nat, nat)>,                  // today's open and close, if the market trades
    clockOpen: bool,
    positionHandled: bool,                        // an exit decision ends the tick
    consistent: bool,                             // broker and ledger agree
    entriesEnabled: bool,
    pending: bool,                                // an unvetoed certificate is pending for the window
    executor: bool)                               // an execution service is configured

  /** Idle stands for every result, halted or skipped, in which neither service was called. */
  datatype Outcome = Idle | Evaluated(at: Slot) | Executed(at: Slot)

  /** 15:30, or half an hour before an early close. */
  function ForcedExit(date: nat, close: nat): int {
    var normal := date * DAY + (15 * 60 + 30) * MINUTE;
    var early := close - 30 * MINUTE;
    if normal <= early then normal else early
  }

  /** The window a tick is due for: the evaluation window has precedence. */
  function WindowDue(now: nat): Option<Window> {
    if EvaluationWindowDue(now).Some? then EvaluationWindowDue(now) else ExecutionWindowDue(now)
  }

  /** All that must hold before a tick asks for the lease of its window. */
  predicate AsksForLease(t: Tick) {
    && t.ready && t.clockOpen && !t.positionHandled && t.consistent && t.entriesEnabled
    && t.session.Some? && t.session.value.0 <= t.now < t.session.value.1
    && WindowDue(t.now).Some?
    && t.now + 60 * MINUTE <= ForcedExit(DateOf(t.now), t.session.value.1)
  }

  function SlotOf(t: Tick): Slot
    requires WindowDue(t.now).Some?
  {
    (DateOf(t.now), WindowDue(t.now).value)
  }

  /** The ledger after one tick. */
  function Ticked(l: Ledger, t: Tick): Ledger {
    if !AsksForLease(t) || !Free(l.leases, SlotOf(t), t.now) then l
    else
      var l' := l.(leases := l.leases[SlotOf(t) := Lease(t.owner, t.now, t.now + t.ttl)]);
      if ExecutionWindowDue(t.now).None? then l'.(evaluated := l.evaluated + [SlotOf(t)])
      else if t.executor && t.pending then l'.(executed := l.executed + [SlotOf(t)])
      else l'
  }

  function RunFrom(l: Ledger, ticks: seq<Tick>): Ledger
    decreases |ticks|
  {
    if ticks == [] then l else RunFrom(Ticked(l, ticks[0]), ticks[1..])
  }

  /** The lease table and the scheduler step in the form the program has them. */
  class SharedLedger {
    var leases: map<Slot, Lease>
    var evaluated: seq<Slot>
    var executed: seq<Slot>

    constructor ()
      ensures State() == EMPTY_LEDGER
    {
      leases := map[];
      evaluated := [];
      executed := [];
    }

    function State(): Ledger
      reads this
    {
      Ledger(leases, evaluated, executed)
    }

    /** One transaction: a lease that has not run out is left alone. */
    method AcquireWindowLease(slot: Slot, owner: nat, now: nat, ttl: nat) returns (acquired: bool)
      modifies this`leases
      ensures acquired == old(Free(leases, slot, now))
      ensures leases == if acquired then old(leases)[slot := Lease(owner, now, now + ttl)] else old(leases)
    {
      if slot in leases && leases[slot].until > now {
        return false;
      }
      leases := leases[slot := Lease(owner, now, now + ttl)];
      return true;
    }

    method DoTick(t: Tick) returns (outcome: Outcome)
      modifies this
      ensures State() == Ticked(old(State()), t)
      ensures outcome.Evaluated? <==> evaluated != old(evaluated)
      ensures outcome.Executed? <==> executed != old(executed)
      ensures outcome.Evaluated? ==> evaluated == old(evaluated) + [outcome.at]
      ensures outcome.Executed? ==> executed == old(executed) + [outcome.at]
    {
      if !t.ready {
        return Idle;
      }
      if t.session.None? || !t.clockOpen || t.now < t.session.value.0 || t.now >= t.session.value.1 {
        return Idle;
      }
      if t.positionHandled {
        return Idle;
      }
      var evaluation := EvaluationWindowDue(t.now);
      var execution := ExecutionWindowDue(t.now);
      if evaluation.None? && execution.None? {
        return Idle;
      }
      var window := if evaluation.Some? then evaluation.value else execution.value;
      if t.now + 60 * MINUTE > ForcedExit(DateOf(t.now), t.session.value.1) {
        return Idle;
      }
      if !t.consistent {
        return Idle;
      }
      if !t.entriesEnabled {
        return Idle;
      }
      var slot := (DateOf(t.now), window);
      var acquired := AcquireWindowLease(slot, t.owner, t.now, t.ttl);
      if !acquired {
        return Idle;
      }
      if execution.Some? {
        if !t.executor {
          return Idle;
        }
        if !t.pending {
          return Idle;
        }
        executed := executed + [slot];
        return Executed(slot);
      }
      evaluated := evaluated + [slot];
      return Evaluated(slot);
    }
  }

  // ------------------------------------------------------------- theorems

  predicate NoRepeats(slots: seq<Slot>) {
    forall i, j :: 0 <= i < j < |slots| ==> slots[i] != slots[j]
  }

  /** Each trading date and window has seen at most one evaluate and at most one execute. */
  predicate AtMostOnce(l: Ledger) {
    NoRepeats(l.evaluated) && NoRepeats(l.executed)
  }

  /** The slot's lease outlasts a given minute of its date. */
  predicate LeasedPast(l: Ledger, slot: Slot, minute: nat) {
    slot in l.leases && slot.0 * DAY + (minute + 1) * MINUTE <= l.leases[slot].until
  }

  ghost predicate Inv(l: Ledger) {
    && AtMostOnce(l)
    && (forall i :: 0 <= i < |l.evaluated| ==> LeasedPast(l, l.evaluated[i], EvaluationMinute(l.evaluated[i].1)))
    && (forall i :: 0 <= i < |l.executed| ==> LeasedPast(l, l.executed[i], ExecutionMinute(l.executed[i].1)))
  }

  /** Every successful acquire pushes the end of a lease strictly outward, whatever the clocks say. */
  lemma {:induction false} LeaseEndsIncrease(l: Ledger, t: Tick, slot: Slot)
    requires 0 < t.ttl && slot in l.leases
    ensures
      if AsksForLease(t) && slot == SlotOf(t) && Free(l.leases, slot, t.now) then
        slot in Ticked(l, t).leases && l.leases[slot].until < Ticked(l, t).leases[slot].until
      else
        slot in Ticked(l, t).leases && Ticked(l, t).leases[slot] == l.leases[slot]
  {
  }

  /**
   Whatever a tick serves, it serves inside the session and at least an hour
   before both 15:30 and half an hour before the close.
   */
  lemma {:induction false} ServedWithTimeToExit(l: Ledger, t: Tick)
    requires Ticked(l, t).evaluated != l.evaluated || Ticked(l, t).executed != l.executed
    ensures t.session.Some? && t.session.value.0 <= t.now < t.session.value.1
    ensures t.now + 60 * MINUTE <= DateOf(t.now) * DAY + (15 * 60 + 30) * MINUTE
    ensures t.now + 90 * MINUTE <= t.session.value.1
    ensures MinuteOf(t.now) in {EvaluationMinute(SlotOf(t).1), ExecutionMinute(SlotOf(t).1)}
  {
  }

  /** A time lies inside its minute. */
  lemma {:induction false} MinuteBounds(now: nat)
    ensures DateOf(now) * DAY + MinuteOf(now) * MINUTE <= now < DateOf(now) * DAY + (MinuteOf(now) + 1) * MINUTE
  {
  }

  lemma {:induction false} TickKeepsInv(l: Ledger, t: Tick)
    requires Inv(l) && MINUTE <= t.ttl
    ensures Inv(Ticked(l, t))
  {
    MinuteBounds(t.now);
    var l' := Ticked(l, t);
    forall slot: Slot, minute: nat | LeasedPast(l, slot, minute)
      ensures LeasedPast(l', slot, minute)
    {
      LeaseEndsIncrease(l, t, slot);
    }
    if l'.evaluated != l.evaluated {
      assert MinuteOf(t.now) == EvaluationMinute(SlotOf(t).1);
    }
    if l'.executed != l.executed {
      assert EvaluationWindowDue(t.now).None?;
      assert MinuteOf(t.now) == ExecutionMinute(SlotOf(t).1);
    }
  }

  lemma {:induction false} RunKeepsInv(l: Ledger, ticks: seq<Tick>)
    requires Inv(l) && forall i :: 0 <= i < |ticks| ==> MINUTE <= ticks[i].ttl
    ensures Inv(RunFrom(l, ticks))
    decreases |ticks|
  {
    if ticks != [] {
      TickKeepsInv(l, ticks[0]);
      RunKeepsInv(Ticked(l, ticks[0]), ticks[1..]);
    }
  }

  /** Lease lengths are positive and at least a floor. */
  predicate LeasesAtLeast(ticks: seq<Tick>, floor: nat) {
    forall i :: 0 <= i < |ticks| ==> 0 < ticks[i].ttl && floor <= ticks[i].ttl
  }

  /** Two schedulers ticking at the start of the morning evaluation minute and one lease length later. */
  function ShortLeaseTicks(ttl: nat): seq<Tick> {
    var start := EvaluationMinute(Morning) * MINUTE;
    var first := Tick(1, start, ttl, true, Some((0, 16 * 60 * MINUTE)), true, false, true, true, true, true);
    [first, first.(owner := 2, now := start + ttl)]
  }

  lemma {:induction false} ShortLeasesRepeat(ttl: nat)
    requires 0 < ttl < MINUTE
    ensures !AtMostOnce(RunFrom(EMPTY_LEDGER, ShortLeaseTicks(ttl)))
  {
    var ticks := ShortLeaseTicks(ttl);
    var slot := (0 as nat, Morning);
    var start := EvaluationMinute(Morning) * MINUTE;
    assert MinuteOf(start) == MinuteOf(start + ttl) == EvaluationMinute(Morning) by {
      MinuteBounds(start);
      MinuteBounds(start + ttl);
    }
    var l1 := Ticked(EMPTY_LEDGER, ticks[0]);
    assert l1.evaluated == [slot] && l1.leases == map[slot := Lease(1, start, start + ttl)];
    var l2 := Ticked(l1, ticks[1]);
    assert l2.evaluated == [slot, slot];
    assert ticks[1..] == [ticks[1]] && ticks[1..][1..] == [];
    assert RunFrom(EMPTY_LEDGER, ticks) == RunFrom(l1, ticks[1..]) == RunFrom(l2, []) == l2;
    assert l2.evaluated[0] == l2.evaluated[1];
  }

  /**
   Windows are served at most once in every run of any schedulers with any
   clocks, if and only if leases last at least a minute.
   */
  lemma {:induction false} WindowsServedAtMostOnceIff(floor: nat)
    ensures
      (forall ticks :: LeasesAtLeast(ticks, floor) ==> AtMostOnce(RunFrom(EMPTY_LEDGER, ticks)))
      <==> MINUTE <= floor
  {
    if MINUTE <= floor {
      forall ticks | LeasesAtLeast(ticks, floor) ensures AtMostOnce(RunFrom(EMPTY_LEDGER, ticks)) {
        RunKeepsInv(EMPTY_LEDGER, ticks);
      }
    } else {
      var ttl := if floor == 0 then 1 else floor;
      ShortLeasesRepeat(ttl);
      assert LeasesAtLeast(ShortLeaseTicks(ttl), floor);
    }
  }
}
