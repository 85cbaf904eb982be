/** The switch mechanism of a device, run by one thread at a time under the re-entrant device lock: switching
    exits the old state, constructs the new one, installs it and starts it, and starting it may switch again. */
module DeviceSwitch {
  import opened Wrappers

  // The state factories of the worker. A flash state carries the factory of its successor.
  datatype Factory =
    | FlashF(next: Factory, timed: bool)
    | TestF
    | ReadyF
    | BrokenF
    | PulseFlasherF
    | PulseF

  const DEFAULT_CYCLE := FlashF(TestF, true)
  const PULSE_FLASH := FlashF(PulseF, false)

  // What an add event shows of a device file, with the outcome of acting on it.
  datatype DevFile = DevFile(named: bool, tty: bool, partition: bool, uploads: bool, runsDefault: bool)

  datatype Event = Constructed(id: nat, factory: Factory) | Exited(id: nat)

  // The states whose constructor starts a timer.
  predicate Timed(f: Factory) {
    f.TestF? || (f.FlashF? && f.timed)
  }

  // Nested switches go down in rank.
  function Rank(f: Factory): nat {
    match f
    case FlashF(next, _) => 1 + Rank(next)
    case PulseFlasherF => 2
    case TestF => 1
    case _ => 0
  }

  // The switch that a state asks for when it handles an add event.
  function Reaction(f: Factory, file: DevFile): (r: Option<Factory>)
    ensures r.Some? ==> Rank(r.value) < Rank(f)
  {
    match f
    case FlashF(next, _) =>
      if file.named && !file.tty && file.partition then Some(if file.uploads then next else BrokenF) else None
    case TestF => if file.named && file.runsDefault then Some(ReadyF) else None
    case _ => None
  }

  function FirstReaction(f: Factory, files: seq<DevFile>): (r: Option<Factory>)
    ensures r.Some? ==> Rank(r.value) < Rank(f)
  {
    if files == [] then None
    else if Reaction(f, files[0]).Some? then Reaction(f, files[0])
    else FirstReaction(f, files[1..])
  }

  // The switch that starting a state asks for, given the device files it finds.
  function StartRequest(f: Factory, files: seq<DevFile>): (r: Option<Factory>)
    ensures r.Some? ==> Rank(r.value) < Rank(f)
  {
    match f
    case FlashF(_, _) => FirstReaction(f, files)
    case PulseFlasherF => Some(PULSE_FLASH)
    case _ => None
  }

  // The states constructed by one call of switch, in order; the n-th state of the device finds the files scan(n).
  function Chain(f: Factory, n: nat, scan: nat -> seq<DevFile>): (r: seq<Factory>)
    ensures |r| > 0 && r[0] == f
    decreases Rank(f)
  {
    match StartRequest(f, scan(n))
    case None => [f]
    case Some(g) => [f] + Chain(g, n + 1, scan)
  }

  // The log of a device whose states were built by the given factories.
  function LogOf(history: seq<Factory>): seq<Event> {
    var n := |history|;
    if n == 0 then []
    else if n == 1 then [Constructed(0, history[0])]
    else LogOf(history[..n - 1]) + [Exited(n - 2), Constructed(n - 1, history[n - 1])]
  }

  // ----- the log is well bracketed -----

  // Constructions and exits alternate: state i is exited right before state i + 1 is constructed.
  lemma {:induction false} LogAlternates(history: seq<Factory>, i: nat)
    requires i < |history|
    ensures |LogOf(history)| == 2 * |history| - 1
    ensures LogOf(history)[2 * i] == Constructed(i, history[i])
    ensures i + 1 < |history| ==> LogOf(history)[2 * i + 1] == Exited(i)
  {
    var n := |history|;
    if n > 1 {
      LogAlternates(history[..n - 1], if i < n - 1 then i else 0);
    }
  }

  lemma ExitAt(history: seq<Factory>, id: nat, q: nat)
    requires id < |history| && q < 2 * |history| - 1
    ensures |LogOf(history)| == 2 * |history| - 1
    ensures LogOf(history)[q] == Exited(id) <==> q == 2 * id + 1
  {
    LogAlternates(history, q / 2);
    assert q == 2 * (q / 2) || q == 2 * (q / 2) + 1;
  }

  // Every replaced state is exited exactly once, and the current one never.
  lemma ExitedExactlyOnce(history: seq<Factory>, id: nat)
    requires id < |history|
    ensures id + 1 < |history| ==>
              exists p :: 0 <= p < |LogOf(history)| && LogOf(history)[p] == Exited(id) &&
                          forall q :: 0 <= q < |LogOf(history)| && LogOf(history)[q] == Exited(id) ==> q == p
    ensures id + 1 == |history| ==> Exited(id) !in LogOf(history)
  {
    forall q: nat | q < 2 * |history| - 1
      ensures |LogOf(history)| == 2 * |history| - 1
      ensures LogOf(history)[q] == Exited(id) <==> q == 2 * id + 1
    {
      ExitAt(history, id, q);
    }
    if id + 1 < |history| {
      ExitAt(history, id, 2 * id + 1);
    } else {
      ExitAt(history, id, 0);
    }
  }

  // What a flash state acts on is a named partition that is no tty, and whether the upload succeeds decides what
  // follows.
  lemma FlashReacts(next: Factory, timed: bool, file: DevFile)
    ensures Reaction(FlashF(next, timed), file).Some? <==> file.named && !file.tty && file.partition
    ensures file.named && !file.tty && file.partition ==>
              Reaction(FlashF(next, timed), file) == Some(if file.uploads then next else BrokenF)
  {
  }

  // A test state acts on a named file on which the check succeeds.
  lemma TestReacts(file: DevFile)
    ensures Reaction(TestF, file) == if file.named && file.runsDefault then Some(ReadyF) else None
  {
  }

  // Where the default reflash cycle ends by itself: it is decided by the first named partition that is no tty.
  lemma DefaultCycleOutcome(n: nat, scan: nat -> seq<DevFile>, files: seq<DevFile>, k: nat)
    requires files == scan(n) && k <= |files|
    requires forall i :: 0 <= i < k ==> !files[i].named || files[i].tty || !files[i].partition
    requires k < |files| ==> files[k].named && !files[k].tty && files[k].partition
    ensures Chain(FlashF(TestF, true), n, scan) ==
            if k == |files| then [FlashF(TestF, true)]
            else [FlashF(TestF, true), if files[k].uploads then TestF else BrokenF]
  {
    FirstReactionAt(DEFAULT_CYCLE, files, k);
  }

  // A pulse count reservation passes through its flasher at once and ends flashing, counting or broken.
  lemma PulseReservationOutcome(n: nat, scan: nat -> seq<DevFile>, files: seq<DevFile>, k: nat)
    requires files == scan(n + 1) && k <= |files|
    requires forall i :: 0 <= i < k ==> !files[i].named || files[i].tty || !files[i].partition
    requires k < |files| ==> files[k].named && !files[k].tty && files[k].partition
    ensures Chain(PulseFlasherF, n, scan) ==
            [PulseFlasherF, FlashF(PulseF, false)] +
            (if k == |files| then [] else [if files[k].uploads then PulseF else BrokenF])
  {
    FirstReactionAt(PULSE_FLASH, files, k);
  }

  lemma {:induction false} FirstReactionAt(f: Factory, files: seq<DevFile>, k: nat)
    requires k <= |files| && forall i :: 0 <= i < k ==> Reaction(f, files[i]) == None
    requires k < |files| ==> Reaction(f, files[k]).Some?
    ensures FirstReaction(f, files) == if k == |files| then None else Reaction(f, files[k])
  {
    if k > 0 {
      FirstReactionAt(f, files[1..], k - 1);
    }
  }

  class StateObject {
    const id: nat
    const factory: Factory
    var switching: bool
    var exiting: bool
    var timer: bool

    constructor (id: nat, factory: Factory)
      ensures this.id == id && this.factory == factory && !switching && !exiting
      ensures timer == Timed(factory)
      ensures timer <==> factory == TestF || (factory.FlashF? && factory.timed)
    {
      this.id, this.factory := id, factory;
      switching, exiting := false, false;
      timer := Timed(factory);
    }
  }

  class Device {
    const scan: nat -> seq<DevFile>
    var device: StateObject?
    var log: seq<Event>
    ghost var history: seq<Factory>

    ghost predicate Valid()
      reads this
    {
      && log == LogOf(history)
      && (device == null <==> history == [])
      && (device != null ==> device.id + 1 == |history| && device.factory == history[device.id])
    }

    // The installed state is the last one constructed and has not asked for a switch.
    ghost predicate Settled()
      reads this, device
    {
      Valid() && device != null && !device.switching
    }

    constructor (scan: nat -> seq<DevFile>)
      ensures Settled() && this.scan == scan && history == Chain(DEFAULT_CYCLE, 0, scan)
    {
      this.scan := scan;
      device, log, history := null, [], [];
      new;
      Switch(DEFAULT_CYCLE);
    }

    method Switch(f: Factory)
      requires Valid()
      modifies this
      ensures Settled() && fresh(device)
      ensures history == old(history) + Chain(f, |old(history)|, scan)
      decreases Rank(f), 2
    {
      if device != null {
        log := log + [Exited(device.id)];
      }
      ghost var n := |history|;
      var state := new StateObject(if device != null then device.id + 1 else 0, f);
      log := log + [Constructed(state.id, f)];
      history := history + [f];
      assert history[..n] == old(history);
      device := state;
      Start(state);
    }

    // start() of the new state.
    method Start(state: StateObject)
      requires Settled() && device == state
      modifies this, state
      ensures Settled() && (device == state || fresh(device))
      ensures history == old(history)[..state.id] + Chain(state.factory, state.id, scan)
      decreases Rank(state.factory), 1
    {
      ghost var request := StartRequest(state.factory, scan(state.id));
      assert history == history[..state.id] + [state.factory];
      match state.factory
      case FlashF(_, _) => StartFlash(state);
      case PulseFlasherF => var _ := SelfSwitch(state, PULSE_FLASH);
      case _ =>
    }

    // FlashState.start: handle the files that are already there, until one of them makes the state switch.
    method StartFlash(state: StateObject)
      requires Settled() && device == state && state.factory.FlashF?
      modifies this, state
      ensures Settled() && (device == state || fresh(device))
      ensures var request := FirstReaction(state.factory, scan(state.id));
              history == old(history) + if request.Some? then Chain(request.value, |old(history)|, scan) else []
      decreases Rank(state.factory), 0, 1
    {
      var files := scan(state.id);
      var i := 0;
      while i < |files|
        invariant 0 <= i <= |files|
        invariant Settled() && (device == state || fresh(device))
        invariant !state.switching ==>
                    && device == state && history == old(history)
                    && FirstReaction(state.factory, files[i..]) == FirstReaction(state.factory, files)
        invariant state.switching ==>
                    var request := FirstReaction(state.factory, files);
                    && request.Some?
                    && history == old(history) + Chain(request.value, |old(history)|, scan)
      {
        if state.switching {
          return;
        }
        assert files[i..][0] == files[i] && files[i..][1..] == files[i + 1..];
        HandleAdd(state, files[i]);
        i := i + 1;
      }
      assert files[|files|..] == [];
    }

    // AbstractState.switch: only the first call from a state object has an effect.
    method SelfSwitch(state: StateObject, f: Factory) returns (done: bool)
      requires Valid()
      modifies this, state
      ensures done == !old(state.switching) && state.switching
      ensures state.timer == old(state.timer) && state.exiting == old(state.exiting)
      ensures done ==> Settled() && fresh(device) && history == old(history) + Chain(f, |old(history)|, scan)
      ensures !done ==> Valid() && history == old(history) && device == old(device)
      decreases Rank(f), 3
    {
      if state.switching {
        return false;
      }
      state.switching := true;
      Switch(f);
      return true;
    }

    // handleAdd of the current state. If its timer has taken the right to switch already, nothing is switched.
    method HandleAdd(state: StateObject, file: DevFile)
      requires Valid() && device == state
      modifies this, state
      ensures Valid() && (device == state || fresh(device))
      ensures var reaction :=
                if state.factory.TestF? && old(state.exiting) then None else Reaction(state.factory, file);
              && state.timer == (old(state.timer) && reaction.None?)
              && if reaction.Some? && !old(state.switching)
                 then
                   && Settled() && state.switching
                   && history == old(history) + Chain(reaction.value, |old(history)|, scan)
                 else state.switching == old(state.switching) && history == old(history) && device == state
      // A flash state switches on a named partition that is no tty, and otherwise stays as it is.
      ensures state.factory.FlashF? && !old(state.switching) ==>
                && (state.switching <==> file.named && !file.tty && file.partition)
                && (state.switching ==>
                      && |history| > |old(history)|
                      && history[|old(history)|] == if file.uploads then state.factory.next else BrokenF)
                && (!state.switching ==> history == old(history) && state.timer == old(state.timer))
      // A test state that has its check switches on a named file on which it succeeds.
      ensures state.factory.TestF? && !old(state.exiting) && !old(state.switching) ==>
                && (state.switching <==> file.named && file.runsDefault)
                && (state.switching ==> history == old(history) + [ReadyF])
      // A test state spends its only check on the first named file.
      ensures state.exiting == (old(state.exiting) || (state.factory.TestF? && file.named))
      decreases Rank(state.factory), 0, 0
    {
      if !file.named {
        return;
      }
      match state.factory
      case FlashF(next, _) =>
        if file.tty {
          return;
        }
        if file.partition {
          state.timer := false;
          var _ := SelfSwitch(state, if file.uploads then next else BrokenF);
        }
      case TestF =>
        if state.exiting {
          return;
        }
        state.exiting := true;
        if file.runsDefault {
          state.timer := false;
          var _ := SelfSwitch(state, ReadyF);
        }
      case _ =>
    }

    method HandleDeviceEvent(add: bool, file: DevFile)
      requires Valid()
      modifies this, device
      ensures Valid()
      ensures old(device) == null || !add ==> history == old(history) && device == old(device)
      ensures old(device) != null && add ==>
                var request := if old(device.switching) || (old(device).factory.TestF? && old(device.exiting)) then None
                               else Reaction(old(device).factory, file);
                history == old(history) + if request.Some? then Chain(request.value, |old(history)|, scan) else []
    {
      if device == null {
        return;
      }
      if add {
        HandleAdd(device, file);
      }
    }

    method HandleUnreserve() returns (ok: bool)
      requires Valid()
      modifies this
      ensures Settled() && ok
      ensures history == old(history) + Chain(DEFAULT_CYCLE, |old(history)|, scan)
      ensures history[|old(history)|] == FlashF(TestF, true)
    {
      Switch(DEFAULT_CYCLE);
      return true;
    }

    method HandleReserve(kind: string) returns (ok: bool)
      requires Valid() && kind != "usbip"
      modifies this
      ensures ok == (kind == "pulsecount")
      ensures ok ==> Settled() && history == old(history) + Chain(PulseFlasherF, |old(history)|, scan)
      ensures !ok ==> Valid() && history == old(history) && device == old(device)
    {
      if kind != "pulsecount" {
        return false;
      }
      Switch(PulseFlasherF);
      return true;
    }

    // The timer of a state object, which need not be the current one any more.
    method TimerExpires(state: StateObject)
      requires Valid()
      modifies this, state
      ensures Valid() && state.switching
      ensures history == old(history) + if old(state.switching) then [] else [BrokenF]
    {
      var done := SelfSwitch(state, BrokenF);
    }
  }
}
