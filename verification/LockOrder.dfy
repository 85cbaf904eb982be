/** The locks of the worker: the manager's _dev_lock, one re-entrant _device_lock per device, one re-entrant
    switching_lock per state object and the lock of every test state.

    Part one derives the lock operations of each kind of thread from the calls it makes and shows that they follow
    one order. Part two is about any number of threads running any such programs, interleaved in any way. */
module LockOrder {
  import opened Wrappers

  datatype Lock =
    | ManagerLock
    | DeviceLock(dev: nat)
    | SwitchingLock(dev: nat, id: nat)
    | TestLock(dev: nat, id: nat)

  predicate Reentrant(l: Lock) {
    l.DeviceLock? || l.SwitchingLock?
  }

  // State objects are ranked by creation.
  function Rank(l: Lock): nat {
    match l
    case ManagerLock => 0
    case DeviceLock(_) => 1
    case SwitchingLock(_, id) => 2 * id + 2
    case TestLock(_, id) => 2 * id + 3
  }

  // Access: the thread uses what the lock protects.
  datatype Op = Acquire(l: Lock) | Release(l: Lock) | Access(l: Lock)

  function After(op: Op, held: multiset<Lock>): multiset<Lock> {
    match op
    case Acquire(l) => held + multiset{l}
    case Release(l) => held - multiset{l}
    case Access(_) => held
  }

  // An acquisition is in order when it re-enters a re-entrant lock or goes up in rank, an access when its lock is held.
  predicate InOrder(op: Op, held: multiset<Lock>) {
    match op
    case Acquire(l) => (Reentrant(l) && l in held) || forall m :: m in held ==> Rank(m) < Rank(l)
    case Release(l) => l in held
    case Access(l) => l in held
  }

  function HeldAfter(ops: seq<Op>, held: multiset<Lock>): multiset<Lock> {
    if ops == [] then held else HeldAfter(ops[1..], After(ops[0], held))
  }

  predicate Ordered(ops: seq<Op>, held: multiset<Lock>) {
    ops == [] || (InOrder(ops[0], held) && Ordered(ops[1..], After(ops[0], held)))
  }

  // A program fragment that keeps the order and gives back what it takes.
  predicate Bracket(ops: seq<Op>, held: multiset<Lock>) {
    Ordered(ops, held) && HeldAfter(ops, held) == held
  }

  lemma {:induction false} Concat(a: seq<Op>, b: seq<Op>, held: multiset<Lock>)
    ensures HeldAfter(a + b, held) == HeldAfter(b, HeldAfter(a, held))
    ensures Ordered(a, held) && Ordered(b, HeldAfter(a, held)) ==> Ordered(a + b, held)
  {
    if a == [] {
      assert a + b == b;
    } else {
      assert (a + b)[0] == a[0] && (a + b)[1..] == a[1..] + b;
      Concat(a[1..], b, After(a[0], held));
    }
  }

  lemma Sequence(a: seq<Op>, b: seq<Op>, held: multiset<Lock>)
    requires Bracket(a, held) && Bracket(b, held)
    ensures Bracket(a + b, held)
  {
    Concat(a, b, held);
  }

  // with l: body
  function With(l: Lock, body: seq<Op>): seq<Op> {
    [Acquire(l)] + (body + [Release(l)])
  }

  lemma First(op: Op, rest: seq<Op>, held: multiset<Lock>)
    ensures HeldAfter([op] + rest, held) == HeldAfter(rest, After(op, held))
    ensures Ordered([op] + rest, held) == (InOrder(op, held) && Ordered(rest, After(op, held)))
  {
  }

  lemma ReleaseAtEnd(l: Lock, body: seq<Op>, held: multiset<Lock>)
    requires Bracket(body, held) && l in held
    ensures Ordered(body + [Release(l)], held) && HeldAfter(body + [Release(l)], held) == held - multiset{l}
  {
    Concat(body, [Release(l)], held);
    First(Release(l), [], held);
    assert [Release(l)] + [] == [Release(l)];
  }

  lemma Enclose(l: Lock, body: seq<Op>, held: multiset<Lock>)
    requires InOrder(Acquire(l), held) && Bracket(body, held + multiset{l})
    ensures Bracket(With(l, body), held)
  {
    assert held + multiset{l} - multiset{l} == held;
    ReleaseAtEnd(l, body, held + multiset{l});
    First(Acquire(l), body + [Release(l)], held);
  }

  // An access under the lock, before the rest.
  lemma Accessed(l: Lock, body: seq<Op>, held: multiset<Lock>)
    requires l in held && Bracket(body, held)
    ensures Bracket([Access(l)] + body, held)
  {
    First(Access(l), body, held);
  }

  lemma EncloseAccess(l: Lock, body: seq<Op>, held: multiset<Lock>)
    requires InOrder(Acquire(l), held) && Bracket(body, held + multiset{l})
    ensures Bracket(With(l, [Access(l)] + body), held)
  {
    Accessed(l, body, held + multiset{l});
    Enclose(l, [Access(l)] + body, held);
  }

  // ----- the programs of the threads -----

  // What the locks protect: the table of devices, the installed state of a device, the once-only flag of a state
  // object, the check of a test state.

  /** A call of Device.switch: the number of the state it constructs, and what start() of that state does. It reads
      its `switching` flag, and it calls AbstractState.switch, which does nothing or calls Device.switch. */
  datatype SwitchCall = SwitchCall(id: nat, starts: seq<Option<SwitchCall>>)

  // States are numbered in the order of creation, so nested switches build later ones.
  predicate Later(call: SwitchCall, than: nat) {
    && call.id > than
    && forall i :: 0 <= i < |call.starts| && call.starts[i].Some? ==> Later(call.starts[i].value, call.id)
  }

  function SwitchOps(dev: nat, call: SwitchCall): seq<Op>
    decreases call, 1
  {
    With(DeviceLock(dev), [Access(DeviceLock(dev))] + StartOps(dev, call, |call.starts|))
  }

  // The first n actions of start().
  function StartOps(dev: nat, call: SwitchCall, n: nat): seq<Op>
    requires n <= |call.starts|
    decreases call, 0, n
  {
    if n == 0 then [] else StartOps(dev, call, n - 1) + AskOps(dev, call.id, call.starts[n - 1])
  }

  // AbstractState.switch: the flag is taken under the switching lock, the device switches after its release.
  function AskOps(dev: nat, id: nat, request: Option<SwitchCall>): seq<Op>
    decreases request
  {
    With(SwitchingLock(dev, id), [Access(SwitchingLock(dev, id))] + []) +
    if request.Some? then SwitchOps(dev, request.value) else []
  }

  datatype ThreadProgram =
    | KnownDevEvent
    | NewDevEvent(dev: nat, call: SwitchCall)
    | EventBeforeState(dev: nat)
    | FlashEvent(dev: nat, current: nat, request: Option<SwitchCall>)
    | TestEvent(dev: nat, current: nat, request: Option<SwitchCall>)
    | IgnoredTestEvent(dev: nat, current: nat)
    | OtherEvent(dev: nat, current: nat)
    | Timer(dev: nat, id: nat, request: Option<SwitchCall>)
    | Command(dev: nat, call: SwitchCall)
    | ClientRequest(dev: nat)

  // Nested switches construct states that are newer than the current one.
  predicate Realistic(p: ThreadProgram) {
    match p
    case NewDevEvent(_, call) => Later(call, 0)
    case FlashEvent(_, current, request) => request.Some? ==> Later(request.value, current)
    case TestEvent(_, current, request) => request.Some? ==> Later(request.value, current)
    case Timer(_, id, request) => request.Some? ==> Later(request.value, id)
    case Command(_, call) => Later(call, 0)
    case _ => true
  }

  // Looking up a device in the table of the manager.
  const LOOKUP := With(ManagerLock, [Access(ManagerLock)] + [])

  // handleDeviceEvent: the state installed under the device lock handles the event under its switching lock.
  function EventOps(dev: nat, current: nat, body: seq<Op>): seq<Op> {
    With(DeviceLock(dev), [Access(DeviceLock(dev))] + With(SwitchingLock(dev, current), body))
  }

  function Program(p: ThreadProgram): seq<Op> {
    match p
    case KnownDevEvent => LOOKUP
    case NewDevEvent(dev, call) => With(ManagerLock, [Access(ManagerLock)] + SwitchOps(dev, call))
    case EventBeforeState(dev) => With(DeviceLock(dev), [Access(DeviceLock(dev))] + [])
    case FlashEvent(dev, current, request) => EventOps(dev, current, AskOps(dev, current, request))
    case TestEvent(dev, current, request) =>
      EventOps(dev, current,
               With(TestLock(dev, current), [Access(TestLock(dev, current))] + AskOps(dev, current, request)))
    // The test state has used its check, or the check fails.
    case IgnoredTestEvent(dev, current) =>
      EventOps(dev, current, With(TestLock(dev, current), [Access(TestLock(dev, current))] + []))
    case OtherEvent(dev, current) => EventOps(dev, current, [])
    case Timer(dev, id, request) => AskOps(dev, id, request)
    case Command(dev, call) => LOOKUP + SwitchOps(dev, call)
    case ClientRequest(dev) => LOOKUP + With(DeviceLock(dev), [Access(DeviceLock(dev))] + [])
  }

  // What a thread may hold when it calls Device.switch for a state newer than all it is working on.
  predicate MayEnter(dev: nat, id: nat, held: multiset<Lock>) {
    && (forall l :: l in held ==> Rank(l) < 2 * id + 2)
    && (DeviceLock(dev) in held || forall l :: l in held ==> l == ManagerLock)
  }

  lemma {:induction false} SwitchOpsBracket(dev: nat, call: SwitchCall, than: nat, held: multiset<Lock>)
    requires Later(call, than) && MayEnter(dev, call.id, held)
    ensures Bracket(SwitchOps(dev, call), held)
    decreases call, 1
  {
    var inner := held + multiset{DeviceLock(dev)};
    StartOpsBracket(dev, call, than, |call.starts|, inner);
    EncloseAccess(DeviceLock(dev), StartOps(dev, call, |call.starts|), held);
  }

  lemma {:induction false} StartOpsBracket(dev: nat, call: SwitchCall, than: nat, n: nat, held: multiset<Lock>)
    requires Later(call, than) && MayEnter(dev, call.id, held) && DeviceLock(dev) in held && n <= |call.starts|
    ensures Bracket(StartOps(dev, call, n), held)
    decreases call, 0, n
  {
    if n > 0 {
      StartOpsBracket(dev, call, than, n - 1, held);
      var request := call.starts[n - 1];
      assert request.Some? ==> Later(request.value, call.id);
      AskOpsBracket(dev, call.id, request, held);
      Sequence(StartOps(dev, call, n - 1), AskOps(dev, call.id, request), held);
    }
  }

  lemma {:induction false} AskOpsBracket(dev: nat, id: nat, request: Option<SwitchCall>, held: multiset<Lock>)
    requires InOrder(Acquire(SwitchingLock(dev, id)), held)
    requires request.Some? ==> Later(request.value, id) && MayEnter(dev, request.value.id, held)
    ensures Bracket(AskOps(dev, id, request), held)
    decreases request
  {
    var flag := With(SwitchingLock(dev, id), [Access(SwitchingLock(dev, id))] + []);
    EncloseAccess(SwitchingLock(dev, id), [], held);
    if request.Some? {
      SwitchOpsBracket(dev, request.value, id, held);
      Sequence(flag, SwitchOps(dev, request.value), held);
    } else {
      assert AskOps(dev, id, request) == flag;
    }
  }

  // handleDeviceEvent: the device lock, then the switching lock of the current state.
  lemma EventBracket(dev: nat, current: nat, body: seq<Op>)
    requires Bracket(body, multiset{DeviceLock(dev), SwitchingLock(dev, current)})
    ensures Bracket(EventOps(dev, current, body), multiset{})
  {
    var held := multiset{DeviceLock(dev)};
    assert held + multiset{SwitchingLock(dev, current)} == multiset{DeviceLock(dev), SwitchingLock(dev, current)};
    Enclose(SwitchingLock(dev, current), body, held);
    assert multiset{} + multiset{DeviceLock(dev)} == held;
    EncloseAccess(DeviceLock(dev), With(SwitchingLock(dev, current), body), multiset{});
  }

  lemma TestEventBracket(dev: nat, current: nat, request: Option<SwitchCall>)
    requires request.Some? ==> Later(request.value, current)
    ensures Bracket(Program(TestEvent(dev, current, request)), multiset{})
  {
    var held := multiset{DeviceLock(dev), SwitchingLock(dev, current)};
    AskOpsBracket(dev, current, request, held + multiset{TestLock(dev, current)});
    EncloseAccess(TestLock(dev, current), AskOps(dev, current, request), held);
    EventBracket(dev, current,
                 With(TestLock(dev, current), [Access(TestLock(dev, current))] + AskOps(dev, current, request)));
  }

  // Every thread of the worker keeps the order and ends without locks, re-entrant acquisitions included.
  lemma ProgramBracket(p: ThreadProgram)
    requires Realistic(p)
    ensures Bracket(Program(p), multiset{})
  {
    var none: multiset<Lock> := multiset{};
    match p
    case KnownDevEvent => EncloseAccess(ManagerLock, [], none);
    case NewDevEvent(dev, call) =>
      SwitchOpsBracket(dev, call, 0, none + multiset{ManagerLock});
      EncloseAccess(ManagerLock, SwitchOps(dev, call), none);
    case EventBeforeState(dev) => EncloseAccess(DeviceLock(dev), [], none);
    case FlashEvent(dev, current, request) =>
      AskOpsBracket(dev, current, request, multiset{DeviceLock(dev), SwitchingLock(dev, current)});
      EventBracket(dev, current, AskOps(dev, current, request));
    case TestEvent(dev, current, request) => TestEventBracket(dev, current, request);
    case IgnoredTestEvent(dev, current) =>
      EncloseAccess(TestLock(dev, current), [], multiset{DeviceLock(dev), SwitchingLock(dev, current)});
      EventBracket(dev, current, With(TestLock(dev, current), [Access(TestLock(dev, current))] + []));
    case OtherEvent(dev, current) => EventBracket(dev, current, []);
    case Timer(dev, id, request) => AskOpsBracket(dev, id, request, none);
    case Command(dev, call) =>
      EncloseAccess(ManagerLock, [], none);
      SwitchOpsBracket(dev, call, 0, none);
      Sequence(LOOKUP, SwitchOps(dev, call), none);
    case ClientRequest(dev) =>
      EncloseAccess(ManagerLock, [], none);
      EncloseAccess(DeviceLock(dev), [], none);
      Sequence(LOOKUP, With(DeviceLock(dev), [Access(DeviceLock(dev))] + []), none);
  }

  // ----- threads -----

  datatype System = System(programs: seq<seq<Op>>, pcs: seq<nat>)

  predicate WellFormed(sys: System) {
    && |sys.pcs| == |sys.programs|
    && forall t :: 0 <= t < |sys.pcs| ==> sys.pcs[t] <= |sys.programs[t]|
  }

  predicate Unfinished(sys: System, t: nat)
    requires WellFormed(sys)
  {
    t < |sys.pcs| && sys.pcs[t] < |sys.programs[t]|
  }

  function HeldBy(sys: System, t: nat): multiset<Lock>
    requires WellFormed(sys) && t < |sys.pcs|
  {
    HeldAfter(sys.programs[t][..sys.pcs[t]], multiset{})
  }

  function NextOp(sys: System, t: nat): Op
    requires WellFormed(sys) && Unfinished(sys, t)
  {
    sys.programs[t][sys.pcs[t]]
  }

  // t waits for u: it wants a lock that u holds.
  predicate WaitsFor(sys: System, t: nat, u: nat)
    requires WellFormed(sys)
  {
    t != u && u < |sys.pcs| && Unfinished(sys, t) && NextOp(sys, t).Acquire? && NextOp(sys, t).l in HeldBy(sys, u)
  }

  // The rank of the lock that a thread is about to acquire.
  function Wanted(sys: System, t: nat): nat
    requires WellFormed(sys)
  {
    if Unfinished(sys, t) then Rank(NextOp(sys, t).l) else 0
  }

  ghost predicate CanRun(sys: System, t: nat)
    requires WellFormed(sys)
  {
    Unfinished(sys, t) && forall u :: 0 <= u < |sys.pcs| ==> !WaitsFor(sys, t, u)
  }

  function RunThread(sys: System, t: nat): System
    requires WellFormed(sys) && Unfinished(sys, t)
  {
    sys.(pcs := sys.pcs[t := sys.pcs[t] + 1])
  }

  ghost predicate Execution(run: seq<System>, threads: seq<ThreadProgram>) {
    && |run| > 0
    && run[0] == System(seq(|threads|, i requires 0 <= i < |threads| => Program(threads[i])), seq(|threads|, _ => 0))
    && (forall k :: 0 <= k < |run| ==> WellFormed(run[k]))
    && forall k :: 0 <= k < |run| - 1 ==> exists t: nat :: CanRun(run[k], t) && run[k + 1] == RunThread(run[k], t)
  }

  ghost predicate Exclusive(sys: System)
    requires WellFormed(sys)
  {
    forall t, u, l :: 0 <= t < |sys.pcs| && 0 <= u < |sys.pcs| && l in HeldBy(sys, t) && l in HeldBy(sys, u) ==> t == u
  }

  ghost predicate AllBracket(sys: System) {
    forall t :: 0 <= t < |sys.programs| ==> Bracket(sys.programs[t], multiset{})
  }

  lemma HeldPrefix(ops: seq<Op>, held: multiset<Lock>, k: nat)
    requires 0 < k <= |ops|
    ensures HeldAfter(ops[..k], held) == HeldAfter(ops[1..][..k - 1], After(ops[0], held))
  {
    assert ops[..k][0] == ops[0] && ops[..k][1..] == ops[1..][..k - 1];
  }

  lemma {:induction false} OrderedAt(ops: seq<Op>, held: multiset<Lock>, k: nat)
    requires Ordered(ops, held) && k < |ops|
    ensures InOrder(ops[k], HeldAfter(ops[..k], held))
    ensures HeldAfter(ops[..k + 1], held) == After(ops[k], HeldAfter(ops[..k], held))
  {
    if k > 0 {
      OrderedAt(ops[1..], After(ops[0], held), k - 1);
      HeldPrefix(ops, held, k);
      HeldPrefix(ops, held, k + 1);
    } else {
      HeldPrefix(ops, held, 1);
    }
  }

  lemma StepHeld(sys: System, t: nat, u: nat)
    requires WellFormed(sys) && AllBracket(sys) && Unfinished(sys, t) && u < |sys.pcs|
    ensures WellFormed(RunThread(sys, t))
    ensures HeldBy(RunThread(sys, t), u) == if u == t then After(NextOp(sys, t), HeldBy(sys, t)) else HeldBy(sys, u)
    ensures InOrder(NextOp(sys, t), HeldBy(sys, t))
  {
    OrderedAt(sys.programs[t], multiset{}, sys.pcs[t]);
  }

  // What a thread holds after the step of t, it held before, unless it is t and no other thread holds it.
  lemma StepHolds(sys: System, t: nat, u: nat, v: nat, l: Lock)
    requires WellFormed(sys) && AllBracket(sys) && Exclusive(sys) && CanRun(sys, t) && WellFormed(RunThread(sys, t))
    requires u < |sys.pcs| && v < |sys.pcs|
    requires l in HeldBy(RunThread(sys, t), u) && l in HeldBy(RunThread(sys, t), v)
    ensures u == v
  {
    StepHeld(sys, t, u);
    StepHeld(sys, t, v);
    assert !WaitsFor(sys, t, u) && !WaitsFor(sys, t, v);
  }

  lemma StepKeepsExclusive(sys: System, t: nat)
    requires WellFormed(sys) && AllBracket(sys) && Exclusive(sys) && CanRun(sys, t)
    ensures WellFormed(RunThread(sys, t)) && Exclusive(RunThread(sys, t))
  {
    var sys' := RunThread(sys, t);
    StepHeld(sys, t, t);
    forall u: nat, v: nat, l | u < |sys.pcs| && v < |sys.pcs| && l in HeldBy(sys', u) && l in HeldBy(sys', v)
      ensures u == v
    {
      StepHolds(sys, t, u, v, l);
    }
  }

  lemma {:induction false} ExecutionInvariant(run: seq<System>, threads: seq<ThreadProgram>, k: nat)
    requires Execution(run, threads) && k < |run|
    requires forall i :: 0 <= i < |threads| ==> Realistic(threads[i])
    ensures run[k].programs == run[0].programs && AllBracket(run[k]) && Exclusive(run[k])
  {
    if k == 0 {
      forall t | 0 <= t < |threads| ensures Bracket(run[0].programs[t], multiset{}) {
        ProgramBracket(threads[t]);
      }
    } else {
      ExecutionInvariant(run, threads, k - 1);
      var t: nat :| CanRun(run[k - 1], t) && run[k] == RunThread(run[k - 1], t);
      StepKeepsExclusive(run[k - 1], t);
    }
  }

  // No two threads ever use what one lock protects at the same time, and a thread that uses it holds the lock.
  lemma NoRace(run: seq<System>, threads: seq<ThreadProgram>, k: nat, t: nat, u: nat, l: Lock)
    requires Execution(run, threads) && k < |run|
    requires forall i :: 0 <= i < |threads| ==> Realistic(threads[i])
    requires Unfinished(run[k], t) && NextOp(run[k], t) == Access(l)
    ensures l in HeldBy(run[k], t)
    ensures Unfinished(run[k], u) && NextOp(run[k], u) == Access(l) ==> u == t
  {
    ExecutionInvariant(run, threads, k);
    StepHeld(run[k], t, t);
    if Unfinished(run[k], u) && NextOp(run[k], u) == Access(l) {
      StepHeld(run[k], u, u);
    }
  }

  // Along the waits-for relation the awaited lock goes up in rank.
  lemma WaitsForClimbs(sys: System, t: nat, u: nat, v: nat)
    requires WellFormed(sys) && AllBracket(sys) && Exclusive(sys)
    requires WaitsFor(sys, t, u) && WaitsFor(sys, u, v)
    ensures Wanted(sys, t) < Wanted(sys, u)
  {
    OrderedAt(sys.programs[u], multiset{}, sys.pcs[u]);
  }

  lemma {:induction false} PathClimbs(sys: System, path: seq<nat>, i: nat)
    requires WellFormed(sys) && AllBracket(sys) && Exclusive(sys)
    requires |path| >= 2 && i + 1 < |path| && forall k :: 0 <= k < |path| - 1 ==> WaitsFor(sys, path[k], path[k + 1])
    ensures i > 0 ==> Wanted(sys, path[0]) < Wanted(sys, path[i])
  {
    if i > 0 {
      PathClimbs(sys, path, i - 1);
      WaitsForClimbs(sys, path[i - 1], path[i], path[i + 1]);
    }
  }

  // The waits-for relation has no cycle in any reachable state, whatever the number of threads.
  lemma WaitsForAcyclic(run: seq<System>, threads: seq<ThreadProgram>, k: nat, path: seq<nat>)
    requires Execution(run, threads) && k < |run|
    requires forall i :: 0 <= i < |threads| ==> Realistic(threads[i])
    requires |path| >= 2 && forall i :: 0 <= i < |path| - 1 ==> WaitsFor(run[k], path[i], path[i + 1])
    ensures path[0] != path[|path| - 1]
  {
    ExecutionInvariant(run, threads, k);
    var n := |path| - 1;
    if path[0] == path[n] {
      if n == 1 {
        assert false;
      } else {
        PathClimbs(run[k], path, n - 1);
        WaitsForClimbs(run[k], path[n - 1], path[n], path[1]);
      }
    }
  }

  lemma {:induction false} RankBound(programs: seq<seq<Op>>) returns (bound: nat)
    ensures forall t, i :: 0 <= t < |programs| && 0 <= i < |programs[t]| ==> Rank(programs[t][i].l) < bound
  {
    if programs == [] {
      bound := 0;
    } else {
      bound := RankBound(programs[1..]);
      var b := OpsBound(programs[0]);
      bound := if b > bound then b else bound;
      forall t, i | 0 <= t < |programs| && 0 <= i < |programs[t]| ensures Rank(programs[t][i].l) < bound {
        if t > 0 {
          assert programs[t] == programs[1..][t - 1];
        }
      }
    }
  }

  lemma {:induction false} OpsBound(ops: seq<Op>) returns (bound: nat)
    ensures forall i :: 0 <= i < |ops| ==> Rank(ops[i].l) < bound
  {
    if ops == [] {
      bound := 0;
    } else {
      bound := OpsBound(ops[1..]);
      bound := if Rank(ops[0].l) + 1 > bound then Rank(ops[0].l) + 1 else bound;
      forall i | 0 <= i < |ops| ensures Rank(ops[i].l) < bound {
        if i > 0 {
          assert ops[i] == ops[1..][i - 1];
        }
      }
    }
  }

  // From a thread that is blocked, follow the holders up to one that can run.
  lemma {:induction false} FindRunnable(sys: System, t: nat, bound: nat) returns (u: nat)
    requires WellFormed(sys) && AllBracket(sys) && Exclusive(sys) && Unfinished(sys, t)
    requires forall s, i :: 0 <= s < |sys.programs| && 0 <= i < |sys.programs[s]| ==> Rank(sys.programs[s][i].l) < bound
    ensures CanRun(sys, u)
    decreases bound - Wanted(sys, t)
  {
    if CanRun(sys, t) {
      return t;
    }
    var v: nat :| v < |sys.pcs| && WaitsFor(sys, t, v);
    assert Unfinished(sys, v) by {
      assert sys.programs[v][..|sys.programs[v]|] == sys.programs[v];
    }
    if CanRun(sys, v) {
      return v;
    }
    var w: nat :| w < |sys.pcs| && WaitsFor(sys, v, w);
    WaitsForClimbs(sys, t, v, w);
    u := FindRunnable(sys, v, bound);
  }

  // No deadlock: as long as a thread has not finished, some thread can take its next step.
  lemma SomeThreadCanRun(run: seq<System>, threads: seq<ThreadProgram>, k: nat, t: nat) returns (u: nat)
    requires Execution(run, threads) && k < |run| && Unfinished(run[k], t)
    requires forall i :: 0 <= i < |threads| ==> Realistic(threads[i])
    ensures CanRun(run[k], u)
  {
    ExecutionInvariant(run, threads, k);
    var bound := RankBound(run[k].programs);
    u := FindRunnable(run[k], t, bound);
  }
}
