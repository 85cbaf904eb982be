/** The Device object of a worker, as the rest of the system sees it: the chain of state objects that runs under the
    device lock, with the timers and the callers of __flashDefault that run outside it. */
module DeviceObject {
  import opened Wrappers
  import opened DeviceSwitch

  // One switch performed on behalf of the state object `actor` while `current` was the state of the device.
  datatype Cause = Cause(actor: nat, current: nat)

  /** State objects are numbered in the order of construction and the last one is the current one.
        kinds       the factory of every state object
        switched    the objects whose once-only _switching flag is set
        exiting     the test states that have used their one check
        timers      the objects with a timer that was started and neither fired nor cancelled
        pending     the objects whose timer thread has set the flag and not yet entered Device.switch
        aboutWrite  the callers of __flashDefault that have not written the status yet
        aboutSwitch the callers of __flashDefault that have written it and not yet entered Device.switch */
  datatype Object = Object(
    kinds: seq<Factory>,
    switched: set<nat>,
    exiting: set<nat>,
    timers: set<nat>,
    pending: set<nat>,
    aboutWrite: nat,
    aboutSwitch: nat,
    causes: seq<Cause>)
  {
    predicate Started() { |kinds| > 0 }

    function Current(): nat
      requires Started()
    {
      |kinds| - 1
    }

    // In the default reflash cycle.
    predicate InCycle() {
      Started() && (kinds[Current()] == DEFAULT_CYCLE || kinds[Current()] == TestF)
    }
  }

  // A new object is about to run its first default reflash.
  const FRESH := Object([], {}, {}, {}, {}, 1, 0, [])

  // An object whose worker has ended.
  const GONE := Object([], {}, {}, {}, {}, 0, 0, [])

  // Device.switch: a new state object becomes the current one.
  function Construct(o: Object, f: Factory): Object {
    o.(kinds := o.kinds + [f], timers := if Timed(f) then o.timers + {|o.kinds|} else o.timers)
  }

  // AbstractState.switch called by the current state: ignored once the flag is set.
  function Ask(o: Object, f: Factory): Object
    requires o.Started()
  {
    var c := o.Current();
    if c in o.switched then o
    else Construct(o.(switched := o.switched + {c}, causes := o.causes + [Cause(c, c)]), f)
  }

  function CancelTimer(o: Object): Object
    requires o.Started()
  {
    o.(timers := o.timers - {o.Current()})
  }

  // handleAdd of the current state, run under the device lock. A test state has one check only.
  function AddEvent(o: Object, file: DevFile): Object
    requires o.Started()
  {
    var c := o.Current();
    if o.kinds[c].TestF? && c in o.exiting then o
    else
      var v := if o.kinds[c].TestF? && file.named then o.(exiting := o.exiting + {c}) else o;
      match Reaction(o.kinds[c], file)
      case None => v
      case Some(g) => Ask(CancelTimer(v), g)
  }

  // The reservable state that starts a flash of the pulse firmware from its own start().
  function Accept(o: Object): Object {
    Ask(Construct(o, PulseFlasherF), PULSE_FLASH)
  }

  function FireTimer(o: Object, id: nat): Object {
    var v := o.(timers := o.timers - {id});
    if id in o.switched then v
    else v.(switched := v.switched + {id}, pending := v.pending + {id})
  }

  function TimerSwitch(o: Object, id: nat): Object
    requires o.Started()
  {
    Construct(o.(pending := o.pending - {id}, causes := o.causes + [Cause(id, o.Current())]), BrokenF)
  }

  // A caller of __flashDefault enters Device.switch.
  function Reflash(o: Object): Object
    requires o.aboutSwitch > 0
  {
    Construct(o.(aboutSwitch := o.aboutSwitch - 1), DEFAULT_CYCLE)
  }

  // ----- bookkeeping -----

  // The factories the worker uses.
  predicate Known(f: Factory) {
    f.FlashF? ==> f == DEFAULT_CYCLE || f == PULSE_FLASH
  }

  /** Bookkeeping of the state objects: timers belong to flash and test states, a pending timer thread has the
      once-only right of its object, and every switch in the history used up the right of a different object. */
  ghost predicate ObjectOk(o: Object) {
    && (forall id :: 0 <= id < |o.kinds| ==> Known(o.kinds[id]))
    && (forall id :: id in o.switched || id in o.exiting ==> id < |o.kinds|)
    && (forall id :: id in o.timers || id in o.pending ==> id < |o.kinds| && Timed(o.kinds[id]))
    && o.pending <= o.switched
    && (forall k :: 0 <= k < |o.causes| ==> o.causes[k].actor in o.switched && o.causes[k].actor !in o.pending)
    && (forall j, k :: 0 <= j < k < |o.causes| ==> o.causes[j].actor != o.causes[k].actor)
  }

  // The timer of this state object can still lead to a switch.
  predicate Armed(o: Object, id: nat) {
    id in o.pending || (id in o.timers && id !in o.switched)
  }

  ghost predicate Unarmed(o: Object) {
    forall id: nat :: !Armed(o, id)
  }

  predicate NoneStale(o: Object) {
    forall k :: 0 <= k < |o.causes| ==> o.causes[k].actor == o.causes[k].current
  }

  // Every armed timer, and every switch performed, belongs to the current state.
  ghost predicate Attentive(o: Object) {
    NoneStale(o) && forall id: nat :: Armed(o, id) ==> id + 1 == |o.kinds|
  }

  lemma AskOk(o: Object, f: Factory)
    requires ObjectOk(o) && o.Started() && Known(f)
    ensures ObjectOk(Ask(o, f))
  {
  }

  lemma AskAttentive(o: Object, f: Factory)
    requires ObjectOk(o) && o.Started() && Known(f) && Attentive(o)
    ensures Attentive(Ask(o, f))
  {
    var c, v := o.Current(), Ask(o, f);
    assert c !in o.switched ==> forall id: nat :: Armed(v, id) ==> (Armed(o, id) && id != c) || id == c + 1;
  }

  lemma AddEventOk(o: Object, file: DevFile)
    requires ObjectOk(o) && o.Started()
    ensures ObjectOk(AddEvent(o, file))
    ensures Attentive(o) ==> Attentive(AddEvent(o, file))
  {
    var c := o.Current();
    var v := if o.kinds[c].TestF? && file.named then o.(exiting := o.exiting + {c}) else o;
    assert Attentive(o) ==> Attentive(v) by {
      assert forall id: nat :: Armed(v, id) ==> Armed(o, id);
    }
    if Reaction(o.kinds[c], file).Some? {
      ReactionOk(v, Reaction(o.kinds[c], file).value);
    }
  }

  lemma ReactionOk(o: Object, f: Factory)
    requires ObjectOk(o) && o.Started() && Known(f)
    ensures ObjectOk(Ask(CancelTimer(o), f))
    ensures Attentive(o) ==> Attentive(Ask(CancelTimer(o), f))
  {
    AskOk(CancelTimer(o), f);
    if Attentive(o) {
      assert forall id: nat :: Armed(CancelTimer(o), id) ==> Armed(o, id);
      AskAttentive(CancelTimer(o), f);
    }
  }

  lemma ConstructOk(o: Object, f: Factory)
    requires ObjectOk(o) && Known(f)
    ensures ObjectOk(Construct(o, f))
  {
  }

  // A switch by a command keeps timers with the current state exactly when it interrupts a state without an armed one.
  lemma ConstructAttentive(o: Object, f: Factory)
    requires ObjectOk(o) && Known(f) && Attentive(o)
    ensures Attentive(Construct(o, f)) <==> Unarmed(o)
  {
    var v := Construct(o, f);
    forall id: nat | Armed(o, id) ensures Armed(v, id) && id + 1 != |v.kinds| {
    }
    assert forall id: nat :: Armed(v, id) ==> Armed(o, id) || id + 1 == |v.kinds|;
  }

  lemma AcceptOk(o: Object)
    requires ObjectOk(o)
    ensures ObjectOk(Accept(o)) && !Accept(o).InCycle()
    ensures Accept(o).aboutWrite == o.aboutWrite && Accept(o).aboutSwitch == o.aboutSwitch
  {
    ConstructOk(o, PulseFlasherF);
    AskOk(Construct(o, PulseFlasherF), PULSE_FLASH);
  }

  lemma AcceptAttentive(o: Object)
    requires ObjectOk(o) && Attentive(o)
    ensures Attentive(Accept(o)) <==> Unarmed(o)
  {
    var v := Construct(o, PulseFlasherF);
    ConstructOk(o, PulseFlasherF);
    ConstructAttentive(o, PulseFlasherF);
    if Unarmed(o) {
      AskAttentive(v, PULSE_FLASH);
    } else {
      var id :| Armed(o, id);
      assert Armed(Accept(o), id);
    }
  }

  lemma ReflashOk(o: Object)
    requires ObjectOk(o) && o.aboutSwitch > 0
    ensures ObjectOk(Reflash(o))
    ensures Attentive(o) ==> (Attentive(Reflash(o)) <==> Unarmed(o))
  {
    var v := o.(aboutSwitch := o.aboutSwitch - 1);
    ConstructOk(v, DEFAULT_CYCLE);
    assert forall id: nat :: Armed(v, id) <==> Armed(o, id);
    if Attentive(o) {
      ConstructAttentive(v, DEFAULT_CYCLE);
    }
  }

  // An armed timer of the current state means that a reflash is running.
  lemma ArmedInCycle(o: Object, id: nat)
    requires ObjectOk(o) && Attentive(o) && Armed(o, id)
    ensures o.InCycle()
  {
  }

  lemma FireTimerOk(o: Object, id: nat)
    requires ObjectOk(o) && id in o.timers
    ensures ObjectOk(FireTimer(o, id)) && (Attentive(o) ==> Attentive(FireTimer(o, id)))
  {
    assert forall i: nat :: Armed(FireTimer(o, id), i) ==> Armed(o, i);
  }

  lemma TimerSwitchOk(o: Object, id: nat)
    requires ObjectOk(o) && o.Started() && id in o.pending
    ensures ObjectOk(TimerSwitch(o, id)) && (Attentive(o) ==> Attentive(TimerSwitch(o, id)))
  {
    var v := TimerSwitch(o, id);
    assert Armed(o, id);
    assert forall i: nat :: Armed(v, i) ==> Armed(o, i) && i != id;
  }

  lemma AboutOk(o: Object, aboutWrite: nat, aboutSwitch: nat)
    requires ObjectOk(o)
    ensures ObjectOk(o.(aboutWrite := aboutWrite, aboutSwitch := aboutSwitch))
    ensures Attentive(o) ==> Attentive(o.(aboutWrite := aboutWrite, aboutSwitch := aboutSwitch))
  {
    assert forall id: nat :: Armed(o.(aboutWrite := aboutWrite, aboutSwitch := aboutSwitch), id) ==> Armed(o, id);
  }

  // Only the default reflash cycle leads to the ready state, and it ends there.
  lemma AddEventToken(o: Object, file: DevFile)
    requires o.Started() && ObjectOk(o)
    ensures var v := AddEvent(o, file);
            && v.Started() && |v.kinds| >= |o.kinds|
            && v.aboutWrite == o.aboutWrite && v.aboutSwitch == o.aboutSwitch
            && (v.InCycle() ==> o.InCycle())
            && (|v.kinds| > |o.kinds| && v.kinds[|v.kinds| - 1] == ReadyF ==> o.InCycle() && !v.InCycle())
  {
  }

  // ----- one command -----

  // The timer runs out and its thread switches, with nothing in between.
  function Expire(o: Object, id: nat): Object
    requires o.Started() && Armed(o, id)
  {
    TimerSwitch(if id in o.pending then o else FireTimer(o, id), id)
  }

  lemma ExpireStale(o: Object, id: nat)
    requires ObjectOk(o) && o.Started() && Armed(o, id) && NoneStale(o)
    ensures NoneStale(Expire(o, id)) <==> id == o.Current()
  {
    var causes := Expire(o, id).causes;
    assert causes == o.causes + [Cause(id, o.Current())];
    assert causes[|o.causes|] == Cause(id, o.Current());
  }

  // The exact condition for one command: the switch it makes leaves no timer that can switch out of turn if and only
  // if it interrupts a state without an armed timer.
  lemma CommandSafeExactly(o: Object, f: Factory)
    requires ObjectOk(o) && Attentive(o) && Known(f)
    ensures (forall id: nat :: Armed(Construct(o, f), id) ==> NoneStale(Expire(Construct(o, f), id))) <==> Unarmed(o)
  {
    var v := Construct(o, f);
    ConstructOk(o, f);
    forall id: nat | Armed(v, id)
      ensures NoneStale(Expire(v, id)) <==> id == v.Current()
      ensures Armed(o, id) <==> id != v.Current()
    {
      ExpireStale(v, id);
    }
    assert forall id: nat :: Armed(o, id) ==> Armed(v, id);
  }

  // ----- the reflash as a token -----

  // The current state can still leave the default reflash cycle for the ready state.
  predicate Live(o: Object)
    requires o.Started()
  {
    var c := o.Current();
    c !in o.switched && (o.kinds[c].TestF? ==> c !in o.exiting)
  }

  // Nothing but the timer moves a state that has spent its switch or its check.
  lemma DeadObject(o: Object, file: DevFile, id: nat)
    requires o.InCycle() && !Live(o)
    ensures AddEvent(o, file).kinds == o.kinds && !Live(AddEvent(o, file))
    ensures FireTimer(o, id).kinds == o.kinds && !Live(FireTimer(o, id))
  {
  }

  // ----- the program -----

  // The states of the worker that an add event leads to ask for no switch of their own when they start.
  lemma ReactionsRest(f: Factory, file: DevFile, n: nat, scan: nat -> seq<DevFile>)
    requires Known(f) && Reaction(f, file).Some?
    ensures Chain(Reaction(f, file).value, n, scan) == [Reaction(f, file).value]
  {
  }

  // AddEvent is DeviceSwitch.Device.HandleAdd: the same states are built, and the flag, the check and the timer of the
  // current state are left as its contract says.
  lemma AddEventIsHandleAdd(o: Object, file: DevFile, scan: nat -> seq<DevFile>)
    requires ObjectOk(o) && o.Started()
    ensures var c, v := o.Current(), AddEvent(o, file);
            var reaction := if o.kinds[c].TestF? && c in o.exiting then None else Reaction(o.kinds[c], file);
            && v.kinds == o.kinds + (if reaction.Some? && c !in o.switched
                                     then Chain(reaction.value, |o.kinds|, scan) else [])
            && (c in v.switched <==> c in o.switched || reaction.Some?)
            && (c in v.exiting <==> c in o.exiting || (o.kinds[c].TestF? && file.named))
            && (c in v.timers <==> c in o.timers && reaction.None?)
  {
    var c := o.Current();
    if Reaction(o.kinds[c], file).Some? {
      ReactionsRest(o.kinds[c], file, |o.kinds|, scan);
    }
  }

  function AddEvents(o: Object, files: seq<DevFile>): (v: Object)
    requires o.Started()
    ensures v.Started()
    decreases |files|
  {
    if files == [] then o else AddEvents(AddEvent(o, files[0]), files[1..])
  }

  // Over any files that are unnamed, ttys or no partition a flash state stays as it is, with its flag and its timer.
  lemma {:induction false} UnusableFiles(o: Object, files: seq<DevFile>)
    requires o.Started() && o.kinds[o.Current()].FlashF?
    requires forall i :: 0 <= i < |files| ==> !files[i].named || files[i].tty || !files[i].partition
    ensures AddEvents(o, files) == o
  {
    if files != [] {
      FlashReacts(o.kinds[o.Current()].next, o.kinds[o.Current()].timed, files[0]);
      assert AddEvent(o, files[0]) == o;
      UnusableFiles(o, files[1..]);
    }
  }

  // The first usable one makes it switch, if its timer has not taken the right to.
  lemma UsableFile(o: Object, files: seq<DevFile>, file: DevFile)
    requires o.Started() && o.kinds[o.Current()].FlashF? && o.Current() !in o.switched
    requires forall i :: 0 <= i < |files| ==> !files[i].named || files[i].tty || !files[i].partition
    requires file.named && !file.tty && file.partition
    ensures var v := AddEvent(AddEvents(o, files), file);
            && v.kinds == o.kinds + [if file.uploads then o.kinds[o.Current()].next else BrokenF]
            && o.Current() in v.switched && o.Current() !in v.timers
  {
    UnusableFiles(o, files);
    FlashReacts(o.kinds[o.Current()].next, o.kinds[o.Current()].timed, file);
  }

  // A timer that expires breaks the device, unless its object has switched: DeviceSwitch.Device.TimerExpires.
  lemma ExpireIsTimerExpires(o: Object, id: nat)
    requires ObjectOk(o) && o.Started() && id in o.timers
    ensures id in o.switched ==> FireTimer(o, id).kinds == o.kinds && FireTimer(o, id).switched == o.switched
    ensures id !in o.switched ==> Expire(o, id).kinds == o.kinds + [BrokenF] && id in Expire(o, id).switched
  {
  }

  // A flash state that handles files one by one, up to the first it reacts to, does what its start() does.
  lemma {:induction false} FlashSees(o: Object, files: seq<DevFile>) returns (k: nat)
    requires o.Started() && o.kinds[o.Current()].FlashF? && o.Current() !in o.switched
    ensures k <= |files|
    ensures var request := FirstReaction(o.kinds[o.Current()], files);
            AddEvents(o, files[..k]).kinds == o.kinds + if request.Some? then [request.value] else []
  {
    if files == [] {
      k := 0;
    } else if Reaction(o.kinds[o.Current()], files[0]).Some? {
      k := 1;
      assert files[..1] == [files[0]] && files[..1][1..] == [];
    } else {
      assert AddEvent(o, files[0]) == o;
      k := FlashSees(o, files[1..]);
      k := k + 1;
      assert files[..k][0] == files[0] && files[..k][1..] == files[1..][..k - 1];
    }
  }

  // The switch of a caller of __flashDefault, with the nested switch of its flash state, is DeviceSwitch.Device.Switch:
  // constructing the flash state and a number of add events build the same states.
  lemma ReflashIsSwitch(o: Object, scan: nat -> seq<DevFile>) returns (k: nat)
    requires ObjectOk(o) && o.aboutSwitch > 0
    ensures k <= |scan(|o.kinds|)|
    ensures AddEvents(Reflash(o), scan(|o.kinds|)[..k]).kinds == o.kinds + Chain(DEFAULT_CYCLE, |o.kinds|, scan)
  {
    var files := scan(|o.kinds|);
    k := FlashSees(Reflash(o), files);
    ReactionOf(DEFAULT_CYCLE, files, |o.kinds| + 1, scan);
  }

  // So is the switch of an accepted reservation.
  lemma AcceptIsSwitch(o: Object, scan: nat -> seq<DevFile>) returns (k: nat)
    requires ObjectOk(o)
    ensures k <= |scan(|o.kinds| + 1)|
    ensures AddEvents(Accept(o), scan(|o.kinds| + 1)[..k]).kinds == o.kinds + Chain(PulseFlasherF, |o.kinds|, scan)
  {
    var files := scan(|o.kinds| + 1);
    k := FlashSees(Accept(o), files);
    ReactionOf(PULSE_FLASH, files, |o.kinds| + 2, scan);
    assert Chain(PulseFlasherF, |o.kinds|, scan) == [PulseFlasherF] + Chain(PULSE_FLASH, |o.kinds| + 1, scan);
  }

  lemma {:induction false} ReactionOf(f: Factory, files: seq<DevFile>, n: nat, scan: nat -> seq<DevFile>)
    requires Known(f)
    ensures var request := FirstReaction(f, files);
            request.Some? ==> Chain(request.value, n, scan) == [request.value]
  {
    if files != [] {
      if Reaction(f, files[0]).Some? {
        ReactionsRest(f, files[0], n, scan);
      } else {
        ReactionOf(f, files[1..], n, scan);
      }
    }
  }
}
