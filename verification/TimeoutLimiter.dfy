/** The usbip client's timeout limiter: a device that is not seen on its bus for a while times out, and after a timeout
    it is left alone for a while. Every reading of the clock is a parameter. */
module TimeoutLimiter {
  import opened Wrappers

  type BusTable = map<string, seq<string>>

  datatype Status = Status(bus: string, lastEvent: int, timedOut: bool)

  datatype Limits = Limits(ip: string, timeout: nat, delay: nat)

  function Max(a: int, b: int): int {
    if a > b then a else b
  }

  function BusUpdated(s: Status, bus: string, now: int): Status {
    s.(bus := bus, lastEvent := Max(now, s.lastEvent))
  }

  function EventSeen(s: Status, now: int): Status {
    s.(lastEvent := Max(now, s.lastEvent))
  }

  predicate Connected(s: Status, ip: string, info: BusTable) {
    ip in info && s.bus in info[ip]
  }

  // The clock is read once for the last event, if the bus is connected, and once for the decision.
  function TimeoutChecked(s: Status, limits: Limits, info: BusTable, seen: int, now: int): Status {
    var t := if Connected(s, limits.ip, info) then s.(lastEvent := seen) else s;
    t.(timedOut := now - limits.timeout > t.lastEvent)
  }

  function TimeoutAsked(s: Status, limits: Limits, now: int): Status {
    if s.timedOut then s.(lastEvent := now + limits.delay) else s
  }

  // ----- runs -----

  // Where the polling thread is with the current object: not polled yet, checked in this round, asked in this round.
  datatype Poll = New | Checked | Asked

  /** What happens to one serial.
        status     its entry in the devices table
        stale      an object that was removed from the table when the polling thread may just have fetched it to ask it
        clock      the last reading of the clock
        triggers   the times at which a timeout was triggered
        disturbed  the entry was made anew after the object that triggered last, or a check has seen the bus connected
                   since then */
  datatype State = State(status: Option<Status>, stale: Option<Status>, poll: Poll, clock: int, triggers: seq<int>,
                         disturbed: bool)

  datatype Step =
    | Export(bus: string, now: int)
    | Remove
    | AddEvent(now: int)
    | Check(info: BusTable, seen: int, now: int)
    | Ask(now: int)
    | AskStale(now: int)

  // The clock never goes back, and the polling thread checks an entry before it asks it again. It asks a removed
  // object next, if at all.
  predicate CanStep(st: State, step: Step) {
    match step
    case Export(_, now) => st.clock <= now
    case Remove => true
    case AddEvent(now) => st.clock <= now && st.status.Some?
    case Check(_, seen, now) => st.clock <= seen <= now && st.status.Some? && st.poll != Checked
    case Ask(now) => st.clock <= now && st.status.Some? && st.poll != Asked
    case AskStale(now) => st.clock <= now && st.stale.Some?
  }

  function Next(st: State, step: Step, limits: Limits): State
    requires CanStep(st, step)
  {
    match step
    case Export(bus, now) =>
      if st.status.Some?
      then st.(status := Some(BusUpdated(st.status.value, bus, now)), clock := now)
      else st.(status := Some(Status(bus, now, false)), poll := New, clock := now, disturbed := true)
    case Remove =>
      st.(status := None, stale := if st.stale.None? && st.poll != Asked then st.status else st.stale)
    case AddEvent(now) => st.(status := Some(EventSeen(st.status.value, now)), clock := now)
    case Check(info, seen, now) =>
      st.(status := Some(TimeoutChecked(st.status.value, limits, info, seen, now)), stale := None,
          poll := Checked, clock := now,
          disturbed := st.disturbed || Connected(st.status.value, limits.ip, info))
    case Ask(now) =>
      var s := st.status.value;
      var asked := st.(status := Some(TimeoutAsked(s, limits, now)), stale := None, poll := Asked, clock := now);
      if s.timedOut then asked.(triggers := st.triggers + [now], disturbed := false) else asked
    case AskStale(now) =>
      var asked := st.(stale := None, clock := now);
      if st.stale.value.timedOut then asked.(triggers := st.triggers + [now], disturbed := true) else asked
  }

  ghost predicate Run(states: seq<State>, steps: seq<Step>, limits: Limits) {
    && |states| == |steps| + 1
    && states[0].status.None? && states[0].stale.None? && states[0].triggers == []
    && forall i {:trigger steps[i]} ::
         0 <= i < |steps| ==> CanStep(states[i], steps[i]) && states[i + 1] == Next(states[i], steps[i], limits)
  }

  function LastTrigger(st: State): int
    requires st.triggers != []
  {
    st.triggers[|st.triggers| - 1]
  }

  // A removed object does no harm unless it triggers a timeout while an entry made anew was last seen before that.
  predicate Harmless(st: State, step: Step) {
    step.AskStale? && st.stale.Some? && st.stale.value.timedOut && st.status.Some? ==>
      st.status.value.lastEvent >= step.now
  }

  ghost predicate Polite(states: seq<State>, steps: seq<Step>) {
    |states| > |steps| && forall i {:trigger steps[i]} :: 0 <= i < |steps| ==> Harmless(states[i], steps[i])
  }

  // A decision to time out that is still to be acted on is later than the last trigger by more than the timeout.
  ghost predicate Limited(st: State, limits: Limits) {
    && (st.status.Some? && st.poll == New ==> !st.status.value.timedOut)
    && (st.status.Some? && st.stale.Some? ==> st.poll == New)
    && (st.triggers != [] ==>
          var quiet := if st.disturbed then 0 else limits.delay;
          && LastTrigger(st) <= st.clock
          && (st.stale.Some? && st.stale.value.timedOut ==> st.clock > LastTrigger(st) + limits.timeout + quiet)
          && (st.status.Some? ==>
                && st.status.value.lastEvent >= LastTrigger(st) + quiet
                && (st.poll == Checked && st.status.value.timedOut ==>
                      st.clock > LastTrigger(st) + limits.timeout + quiet)))
  }

  lemma StepKeepsLimited(st: State, step: Step, limits: Limits)
    requires CanStep(st, step) && Limited(st, limits) && Harmless(st, step)
    ensures Limited(Next(st, step, limits), limits)
  {
  }

  lemma StepTriggers(st: State, step: Step, limits: Limits)
    requires CanStep(st, step) && Limited(st, limits)
    ensures st.triggers <= Next(st, step, limits).triggers && |Next(st, step, limits).triggers| <= |st.triggers| + 1
    ensures |Next(st, step, limits).triggers| > |st.triggers| > 0 ==>
              LastTrigger(Next(st, step, limits)) >
              LastTrigger(st) + limits.timeout + if st.disturbed then 0 else limits.delay
  {
  }

  lemma {:induction false} LimitedInvariant(states: seq<State>, steps: seq<Step>, limits: Limits, i: nat)
    requires Run(states, steps, limits) && Polite(states, steps) && i < |states|
    ensures Limited(states[i], limits)
  {
    if i > 0 {
      LimitedInvariant(states, steps, limits, i - 1);
      StepKeepsLimited(states[i - 1], steps[i - 1], limits);
    }
  }

  // Over every run of exports, removals, events and polls, two timeouts of one device are more than `timeout` apart.
  lemma {:induction false} TimeoutsApart(states: seq<State>, steps: seq<Step>, limits: Limits, i: nat, j: nat, k: nat)
    requires Run(states, steps, limits) && Polite(states, steps) && i < |states| && j < k < |states[i].triggers|
    ensures states[i].triggers[k] > states[i].triggers[j] + limits.timeout
    decreases i
  {
    LimitedInvariant(states, steps, limits, i - 1);
    StepTriggers(states[i - 1], steps[i - 1], limits);
    var before := states[i - 1].triggers;
    if k < |before| {
      TimeoutsApart(states, steps, limits, i - 1, j, k);
    } else if j < |before| - 1 {
      TimeoutsApart(states, steps, limits, i - 1, j, |before| - 1);
    }
  }

  // And the next one is more than `timeout` + `delay` later, if no poll in between saw the bus connected and the
  // entry was not removed and made anew.
  lemma UndisturbedTimeoutsFurtherApart(states: seq<State>, steps: seq<Step>, limits: Limits, i: nat)
    requires Run(states, steps, limits) && Polite(states, steps) && i < |steps| && states[i].triggers != []
    requires |states[i + 1].triggers| > |states[i].triggers| && !states[i].disturbed
    ensures LastTrigger(states[i + 1]) > LastTrigger(states[i]) + limits.timeout + limits.delay
  {
    LimitedInvariant(states, steps, limits, i);
    StepTriggers(states[i], steps[i], limits);
  }

  // The next timeout of the entry, as early as it can come, after a removed object has triggered one.
  function NextTimeout(st: State, limits: Limits): State
    requires st.status.Some? && st.poll != Checked
  {
    var due := Max(st.clock, st.status.value.lastEvent + limits.timeout + 1);
    Next(Next(st, Check(map[], due, due), limits), Ask(due), limits)
  }

  // Exactly when a removed object is asked without breaking the limit: otherwise the entry made anew times out at most
  // `timeout` after it.
  lemma StaleAskExactly(st: State, now: int, limits: Limits)
    requires CanStep(st, AskStale(now)) && Limited(st, limits)
    ensures Harmless(st, AskStale(now)) ==> Limited(Next(st, AskStale(now), limits), limits)
    ensures !Harmless(st, AskStale(now)) ==>
              var triggers := NextTimeout(Next(st, AskStale(now), limits), limits).triggers;
              var n := |st.triggers|;
              |triggers| == n + 2 && triggers[n] == now && triggers[n + 1] <= now + limits.timeout
  {
  }

  // A run of that kind: the polling thread asks an object 14 seconds after it was removed and made anew, and two
  // seconds later the new entry times out too.
  lemma StaleAskBreaksLimit() returns (states: seq<State>, steps: seq<Step>, limits: Limits)
    ensures Run(states, steps, limits) && limits.timeout == 15
    ensures states[|steps|].triggers == [31, 33]
  {
    limits := Limits("ip", 15, 15);
    steps := [Export("bus", 0), Check(map[], 16, 16), Remove, Export("bus", 17),
              AskStale(31), Check(map[], 33, 33), Ask(33)];
    var s0 := State(None, None, New, 0, [], false);
    var s1 := Next(s0, steps[0], limits);
    var s2 := Next(s1, steps[1], limits);
    var s3 := Next(s2, steps[2], limits);
    var s4 := Next(s3, steps[3], limits);
    var s5 := Next(s4, steps[4], limits);
    var s6 := Next(s5, steps[5], limits);
    states := [s0, s1, s2, s3, s4, s5, s6, Next(s6, steps[6], limits)];
  }

  // ----- when a timeout comes -----

  // The bus of the last export of the entry, after the first k steps.
  function LastBus(steps: seq<Step>, k: nat): Option<string>
    requires k <= |steps|
  {
    if k == 0 then None
    else
      match steps[k - 1]
      case Export(bus, _) => Some(bus)
      case Remove => None
      case _ => LastBus(steps, k - 1)
  }

  // The last export or event of the entry.
  function LastSeen(steps: seq<Step>, k: nat): Option<int>
    requires k <= |steps|
  {
    if k == 0 then None
    else
      match steps[k - 1]
      case Export(_, now) => Some(now)
      case AddEvent(now) => Some(now)
      case Remove => None
      case _ => LastSeen(steps, k - 1)
  }

  // usbip lists the bus under the address of the server.
  predicate Listed(info: BusTable, ip: string, bus: Option<string>) {
    bus.Some? && ip in info && exists i :: 0 <= i < |info[ip]| && info[ip][i] == bus.value
  }

  predicate Triggers(states: seq<State>, k: nat)
    requires k + 1 < |states|
  {
    |states[k + 1].triggers| > |states[k].triggers|
  }

  // The last sign of life of the entry, which the limit counts from: an export, an event, a poll that found the bus
  // listed; and a timeout counts as one after the delay.
  function LastSign(states: seq<State>, steps: seq<Step>, limits: Limits, k: nat): Option<int>
    requires k <= |steps| < |states|
  {
    if k == 0 then None
    else
      var before := LastSign(states, steps, limits, k - 1);
      match steps[k - 1]
      case Export(_, now) => Some(if before.Some? && before.value > now then before.value else now)
      case AddEvent(now) => Some(if before.Some? && before.value > now then before.value else now)
      case Remove => None
      case Check(info, seen, _) => if Listed(info, limits.ip, LastBus(steps, k - 1)) then Some(seen) else before
      case Ask(now) => if Triggers(states, k - 1) then Some(now + limits.delay) else before
      case AskStale(_) => before
  }

  // What the entry holds is the bus of the last export and the last sign of life.
  lemma {:induction false} EntryIs(states: seq<State>, steps: seq<Step>, limits: Limits, k: nat)
    requires Run(states, steps, limits) && k <= |steps|
    ensures states[k].status.Some? <==> LastBus(steps, k).Some?
    ensures states[k].status.Some? ==>
              && states[k].status.value.bus == LastBus(steps, k).value
              && LastSign(states, steps, limits, k) == Some(states[k].status.value.lastEvent)
    ensures states[k].status.None? ==> LastSign(states, steps, limits, k).None?
  {
    if k > 0 {
      EntryIs(states, steps, limits, k - 1);
      assert CanStep(states[k - 1], steps[k - 1]) && states[k] == Next(states[k - 1], steps[k - 1], limits);
    }
  }

  // Exactly when the poll of an entry triggers a timeout: more than `timeout` has passed since the poll itself, if it
  // finds the bus listed, and since the last sign of life otherwise.
  lemma TriggersExactly(states: seq<State>, steps: seq<Step>, limits: Limits, k: nat)
    requires Run(states, steps, limits) && k + 1 < |steps| && steps[k].Check? && steps[k + 1].Ask?
    ensures LastSign(states, steps, limits, k).Some?
    ensures Triggers(states, k + 1) <==>
            steps[k].now - limits.timeout >
            if Listed(steps[k].info, limits.ip, LastBus(steps, k)) then steps[k].seen
            else LastSign(states, steps, limits, k).value
  {
    EntryIs(states, steps, limits, k);
    assert CanStep(states[k], steps[k]) && states[k + 1] == Next(states[k], steps[k], limits);
    assert CanStep(states[k + 1], steps[k + 1]) && states[k + 2] == Next(states[k + 1], steps[k + 1], limits);
  }

  // The poll finds the bus listed and does not take longer than the limit, or there was an export or event within it.
  predicate Alive(steps: seq<Step>, limits: Limits, k: nat)
    requires k < |steps|
  {
    steps[k].Check? ==>
      || (Listed(steps[k].info, limits.ip, LastBus(steps, k)) && steps[k].now <= steps[k].seen + limits.timeout)
      || (LastSeen(steps, k).Some? && steps[k].now <= LastSeen(steps, k).value + limits.timeout)
  }

  // A device that every poll finds alive never times out.
  lemma {:induction false} AliveNeverTimesOut(states: seq<State>, steps: seq<Step>, limits: Limits, k: nat)
    requires Run(states, steps, limits) && k <= |steps|
    requires forall j :: 0 <= j < k ==> Alive(steps, limits, j)
    ensures states[k].triggers == []
    ensures states[k].status.Some? ==>
              && !states[k].status.value.timedOut
              && LastSeen(steps, k).Some? && LastSeen(steps, k).value <= states[k].status.value.lastEvent
              && LastSeen(steps, k).value <= states[k].clock
    ensures states[k].stale.Some? ==> !states[k].stale.value.timedOut
  {
    if k > 0 {
      AliveNeverTimesOut(states, steps, limits, k - 1);
      EntryIs(states, steps, limits, k - 1);
      assert CanStep(states[k - 1], steps[k - 1]) && states[k] == Next(states[k - 1], steps[k - 1], limits);
      assert Alive(steps, limits, k - 1);
    }
  }

  // ----- the program -----

  class DeviceStatus {
    const limits: Limits
    var bus: string
    var lastEvent: int
    var timedOut: bool

    function View(): Status
      reads this
    {
      Status(bus, lastEvent, timedOut)
    }

    constructor (ip: string, bus: string, timeout: nat, delay: nat, now: int)
      ensures View() == Status(bus, now, false) && limits == Limits(ip, timeout, delay)
    {
      limits := Limits(ip, timeout, delay);
      this.bus, lastEvent, timedOut := bus, now, false;
    }

    method UpdateBus(bus: string, now: int)
      modifies this
      ensures View() == BusUpdated(old(View()), bus, now)
      ensures this.bus == bus && timedOut == old(timedOut)
      ensures lastEvent == if now > old(lastEvent) then now else old(lastEvent)
    {
      this.bus := bus;
      if now > lastEvent {
        lastEvent := now;
      }
    }

    method DeviceEvent(now: int)
      modifies this
      ensures View() == EventSeen(old(View()), now)
      ensures bus == old(bus) && timedOut == old(timedOut)
      ensures lastEvent == if now > old(lastEvent) then now else old(lastEvent)
    {
      if now > lastEvent {
        lastEvent := now;
      }
    }

    method CheckTimeout(info: BusTable, seen: int, now: int)
      modifies this
      ensures View() == TimeoutChecked(old(View()), limits, info, seen, now)
      ensures bus == old(bus)
      ensures lastEvent == if Listed(info, limits.ip, Some(old(bus))) then seen else old(lastEvent)
      ensures timedOut <==> now - limits.timeout > lastEvent
    {
      if limits.ip in info {
        if bus in info[limits.ip] {
          lastEvent := seen;
        }
      }
      timedOut := now - limits.timeout > lastEvent;
    }

    method HadTimeout(now: int) returns (r: bool)
      modifies this
      ensures r == old(timedOut) && View() == TimeoutAsked(old(View()), limits, now)
      ensures bus == old(bus) && timedOut == old(timedOut)
      ensures lastEvent == if r then now + limits.delay else old(lastEvent)
    {
      if timedOut {
        lastEvent := now + limits.delay;
      }
      return timedOut;
    }
  }
}
