/** The life cycle of a reservation across the database, the control server, the network and the workers.

    Stored procedures are atomic (`Database.Tx`). Requests from control to a worker are messages that can be
    delayed, lost and overtaken; a /reserve can also be duplicated. Every worker has Device objects (`DeviceObject`);
    several objects of one serial may exist, on one worker or on several. */
module Lifecycle {
  import opened Wrappers
  import opened Database
  import opened DeviceSwitch
  import opened DeviceObject

  // The Device object of a worker for a serial.
  datatype Instance = Instance(serial: string, worker: string, o: Object)

  // A request about a device to a worker.
  datatype Request = Request(serial: string, worker: string)

  /** reserves    the /reserve requests in flight
      unreserves  for every serial the workers to which an /unreserve is in flight */
  datatype State = State(
    db: Tables,
    reserves: multiset<Request>,
    unreserves: map<string, multiset<string>>,
    instances: seq<Instance>)

  datatype Step =
    | Administer(tx: Tx)
    | Reserve(serials: set<string>, client: string, until: int, sent: multiset<Request>)
    | End(ended: set<string>, notified: set<string>)
    | LoseReserve(r: Request)
    | LoseUnreserve(r: Request)
    | CreateDevice(s: string, worker: string, added: bool)
    | WorkerEnds(i: nat)
    | DeliverReserve(i: nat, accepted: bool)
    | DeliverUnreserve(i: nat)
    | WriteFlashing(i: nat, written: bool)
    | SwitchToFlash(i: nat)
    | TimerFires(i: nat, id: nat)
    | TimerSwitches(i: nat, id: nat, written: bool)
    | DeviceAdded(i: nat, file: DevFile, written: bool)

  const INITIAL := State(Tables(map[], map[], map[]), multiset{}, map[], [])

  // The status that the constructor of a state writes.
  function StatusOf(f: Factory): Option<DeviceState> {
    match f
    case TestF => Some(Testing)
    case ReadyF => Some(Available)
    case BrokenF => Some(Broken)
    case _ => None
  }

  // A status write by a worker: it fails without effect when the row is gone, and it can be lost.
  function Write(db: Tables, s: string, status: Option<DeviceState>, written: bool): Tables {
    if written && status.Some? && Enabled(db, StatusTx(s, status.value))
    then Commit(db, StatusTx(s, status.value))
    else db
  }

  // The writes of a handler that turns an object into another.
  function WriteNew(db: Tables, s: string, before: Object, after: Object, written: bool): Tables {
    if |after.kinds| > |before.kinds| then Write(db, s, StatusOf(after.kinds[|after.kinds| - 1]), written) else db
  }

  function Unreserves(st: State, s: string): multiset<string> {
    if s in st.unreserves then st.unreserves[s] else multiset{}
  }

  // A request is sent to the worker of the row.
  function Notify(st: State, serials: set<string>): map<string, multiset<string>>
    requires serials <= st.db.devices.Keys
  {
    map s | s in st.unreserves.Keys + serials ::
      Unreserves(st, s) + if s in serials then multiset{st.db.devices[s].worker} else multiset{}
  }

  function Taken(st: State, r: Request): map<string, multiset<string>> {
    st.unreserves[r.serial := Unreserves(st, r.serial) - multiset{r.worker}]
  }

  predicate Running(st: State, i: nat) {
    i < |st.instances| && st.instances[i].o.Started()
  }

  function Put(st: State, i: nat, o: Object): State
    requires i < |st.instances|
  {
    st.(instances := st.instances[i := st.instances[i].(o := o)])
  }

  predicate CanStep(st: State, step: Step) {
    match step
    case Administer(tx) =>
      Database.Enabled(st.db, tx) && (tx.AddWorkerTx? || tx.DeleteWorkersTx? || tx.HeartbeatTx? || tx.ExtendTx?)
    case Reserve(serials, client, until, sent) =>
      && Database.Enabled(st.db, ReserveTx(serials, client, until))
      && forall r :: r in sent ==> r.serial in serials && r.worker == st.db.devices[r.serial].worker
    case End(ended, notified) =>
      Database.Enabled(st.db, EndTx(ended)) && notified <= ended && ended <= st.db.devices.Keys
    case LoseReserve(r) => r in st.reserves
    case LoseUnreserve(r) => r.worker in Unreserves(st, r.serial)
    // A worker sees a board for the first time. If the row exists already, or addDevice fails, it goes on all the same.
    case CreateDevice(s, worker, added) => added ==> Database.Enabled(st.db, AddDeviceTx(s, worker))
    case WorkerEnds(i) => i < |st.instances|
    case DeliverReserve(i, _) =>
      Running(st, i) && Request(st.instances[i].serial, st.instances[i].worker) in st.reserves
    case DeliverUnreserve(i) => Running(st, i) && st.instances[i].worker in Unreserves(st, st.instances[i].serial)
    case WriteFlashing(i, _) => i < |st.instances| && st.instances[i].o.aboutWrite > 0
    case SwitchToFlash(i) => i < |st.instances| && st.instances[i].o.aboutSwitch > 0
    case TimerFires(i, id) => i < |st.instances| && id in st.instances[i].o.timers
    case TimerSwitches(i, id, _) => Running(st, i) && id in st.instances[i].o.pending
    case DeviceAdded(i, _, _) => Running(st, i)
  }

  function Next(st: State, step: Step): State
    requires CanStep(st, step)
  {
    match step
    case Administer(tx) => st.(db := Commit(st.db, tx))
    case Reserve(serials, client, until, sent) =>
      st.(db := Commit(st.db, ReserveTx(serials, client, until)), reserves := st.reserves + sent)
    case End(ended, notified) => st.(db := Commit(st.db, EndTx(ended)), unreserves := Notify(st, notified))
    case LoseReserve(r) => st.(reserves := st.reserves - multiset{r})
    case LoseUnreserve(r) => st.(unreserves := Taken(st, r))
    case CreateDevice(s, worker, added) =>
      st.(db := if added then Commit(st.db, AddDeviceTx(s, worker)) else st.db,
          instances := st.instances + [Instance(s, worker, FRESH)])
    case WorkerEnds(i) => Put(st, i, GONE)
    case DeliverReserve(i, accepted) =>
      var d := st.instances[i];
      Put(st, i, if accepted then Accept(d.o) else d.o).(
        reserves := st.reserves - multiset{Request(d.serial, d.worker)})
    case DeliverUnreserve(i) =>
      var d := st.instances[i];
      Put(st, i, d.o.(aboutWrite := d.o.aboutWrite + 1)).(
        unreserves := Taken(st, Request(d.serial, d.worker)))
    case WriteFlashing(i, written) =>
      var d := st.instances[i];
      Put(st, i, d.o.(aboutWrite := d.o.aboutWrite - 1, aboutSwitch := d.o.aboutSwitch + 1)).(
        db := Write(st.db, d.serial, Some(FlashingDefault), written))
    case SwitchToFlash(i) => Put(st, i, Reflash(st.instances[i].o))
    case TimerFires(i, id) => Put(st, i, FireTimer(st.instances[i].o, id))
    case TimerSwitches(i, id, written) =>
      var d := st.instances[i];
      Put(st, i, TimerSwitch(d.o, id)).(db := Write(st.db, d.serial, Some(Broken), written))
    case DeviceAdded(i, file, written) =>
      var d := st.instances[i];
      var after := AddEvent(d.o, file);
      Put(st, i, after).(db := WriteNew(st.db, d.serial, d.o, after, written))
  }

  // ----- tokens -----

  function DbToken(db: Tables, s: string): nat {
    (if s in db.reservations then 1 else 0)
    + (if s in db.devices && db.devices[s].status == Available then 1 else 0)
  }

  function ObjectToken(o: Object): nat {
    o.aboutWrite + o.aboutSwitch + if o.InCycle() then 1 else 0
  }

  function InstanceToken(d: Instance, s: string): nat {
    if d.serial == s then ObjectToken(d.o) else 0
  }

  function Tokens(instances: seq<Instance>, s: string): nat {
    if instances == [] then 0 else InstanceToken(instances[0], s) + Tokens(instances[1..], s)
  }

  // Reservation row, status available, unreserve in flight, default reflash about to start or running.
  function Token(st: State, s: string): nat {
    DbToken(st.db, s) + |Unreserves(st, s)| + Tokens(st.instances, s)
  }

  ghost predicate OneToken(st: State) {
    forall s :: Token(st, s) <= 1
  }

  lemma {:induction false} TokensUpdate(instances: seq<Instance>, i: nat, d: Instance, s: string)
    requires i < |instances|
    ensures Tokens(instances[i := d], s) + InstanceToken(instances[i], s) == Tokens(instances, s) + InstanceToken(d, s)
  {
    var after := instances[i := d];
    if i > 0 {
      TokensUpdate(instances[1..], i - 1, d, s);
      assert after[0] == instances[0] && after[1..] == instances[1..][i - 1 := d];
    } else {
      assert after[0] == d && after[1..] == instances[1..];
    }
  }

  lemma {:induction false} TokensAppend(instances: seq<Instance>, d: Instance, s: string)
    ensures Tokens(instances + [d], s) == Tokens(instances, s) + InstanceToken(d, s)
  {
    if instances == [] {
      assert [d][1..] == [];
    } else {
      TokensAppend(instances[1..], d, s);
      assert (instances + [d])[1..] == instances[1..] + [d];
    }
  }

  lemma {:induction false} TokensAt(instances: seq<Instance>, i: nat, s: string)
    requires i < |instances|
    ensures InstanceToken(instances[i], s) <= Tokens(instances, s)
  {
    if i > 0 {
      TokensAt(instances[1..], i - 1, s);
    }
  }

  lemma {:induction false} TokenHolder(instances: seq<Instance>, s: string) returns (i: nat)
    requires Tokens(instances, s) > 0
    ensures i < |instances| && InstanceToken(instances[i], s) > 0
  {
    if InstanceToken(instances[0], s) > 0 {
      i := 0;
    } else {
      i := TokenHolder(instances[1..], s);
      i := i + 1;
    }
  }

  // The runs.

  // Assumption: a device is created only when no token of an earlier incarnation is left.
  predicate CleanCreation(st: State, step: Step) {
    step.CreateDevice? ==> Token(st, step.s) == 0
  }

  predicate StepTo(st: State, step: Step, next: State) {
    CanStep(st, step) && CleanCreation(st, step) && next == Next(st, step)
  }

  // States and the steps between them.
  ghost predicate Path(states: seq<State>, steps: seq<Step>) {
    && |states| == |steps| + 1
    && forall i {:trigger steps[i]} :: 0 <= i < |steps| ==> StepTo(states[i], steps[i], states[i + 1])
  }

  // A run starts from the empty system.
  ghost predicate Run(states: seq<State>, steps: seq<Step>) {
    Path(states, steps) && states[0] == INITIAL
  }

  // A run in which devices are created at any time.
  ghost predicate AnyRun(states: seq<State>, steps: seq<Step>) {
    && |states| == |steps| + 1 && states[0] == INITIAL
    && forall i {:trigger steps[i]} ::
         0 <= i < |steps| ==> CanStep(states[i], steps[i]) && states[i + 1] == Next(states[i], steps[i])
  }

  // What holds of the tables and of every object, whatever happens.
  ghost predicate Tidy(st: State) {
    Consistent(st.db) && forall i :: 0 <= i < |st.instances| ==> ObjectOk(st.instances[i].o)
  }

  ghost predicate Inv(st: State) {
    Tidy(st) && OneToken(st)
  }

  // A status write leaves the rows alone, touches one device, and only a write of `available` adds a token.
  lemma WriteToken(db: Tables, x: string, status: Option<DeviceState>, written: bool, s: string)
    ensures var u := Write(db, x, status, written);
            && u.reservations == db.reservations
            && DbToken(u, s) <= DbToken(db, s) + (if s == x && status == Some(Available) then 1 else 0)
  {
  }

  lemma CommitToken(db: Tables, tx: Tx, s: string)
    requires Database.Enabled(db, tx) && !tx.StatusTx?
    ensures DbToken(Commit(db, tx), s) <= DbToken(db, s)
    ensures tx.EndTx? && s in tx.serials ==> DbToken(Commit(db, tx), s) == 0 && DbToken(db, s) >= 1
  {
  }

  predicate Creates(step: Step, s: string) {
    step.CreateDevice? && step.s == s
  }

  predicate OfInstance(step: Step, i: nat) {
    && (step.WorkerEnds? || step.DeliverReserve? || step.DeliverUnreserve? || step.WriteFlashing? || step.SwitchToFlash?
        || step.TimerFires? || step.TimerSwitches? || step.DeviceAdded?)
    && step.i == i
  }

  // The object of one instance changes: the tokens of its serial change with it.
  lemma PutToken(st: State, i: nat, o: Object, s: string)
    requires i < |st.instances|
    ensures Tokens(Put(st, i, o).instances, s) ==
            Tokens(st.instances, s) +
            if st.instances[i].serial == s then ObjectToken(o) - ObjectToken(st.instances[i].o) else 0
  {
    TokensUpdate(st.instances, i, st.instances[i].(o := o), s);
  }

  lemma DbStepToken(st: State, step: Step, s: string)
    requires CanStep(st, step) && Consistent(st.db)
    requires step.Administer? || step.Reserve? || step.End? || step.CreateDevice?
    ensures Token(Next(st, step), s) <= Token(st, s) + if Creates(step, s) then 1 else 0
    ensures Creates(step, s) ==> Token(Next(st, step), s) == Token(st, s) + 1
  {
    match step
    case Administer(tx) => CommitToken(st.db, tx, s);
    case Reserve(serials, client, until, _) => CommitToken(st.db, ReserveTx(serials, client, until), s);
    case End(ended, _) => CommitToken(st.db, EndTx(ended), s);
    case CreateDevice(x, worker, added) =>
      TokensAppend(st.instances, Instance(x, worker, FRESH), s);
      if added { CommitToken(st.db, AddDeviceTx(x, worker), s); }
  }

  lemma TakenCount(st: State, r: Request, s: string)
    requires r.worker in Unreserves(st, r.serial)
    ensures |Unreserves(st.(unreserves := Taken(st, r)), s)| == |Unreserves(st, s)| - if s == r.serial then 1 else 0
  {
  }

  lemma LoseUnreserveToken(st: State, r: Request, s: string)
    requires CanStep(st, LoseUnreserve(r))
    ensures Token(Next(st, LoseUnreserve(r)), s) == Token(st, s) - if s == r.serial then 1 else 0
  {
    TakenCount(st, r, s);
  }

  lemma DeliverUnreserveToken(st: State, i: nat, s: string)
    requires CanStep(st, DeliverUnreserve(i))
    ensures Token(Next(st, DeliverUnreserve(i)), s) <= Token(st, s)
  {
    var d := st.instances[i];
    var next := Next(st, DeliverUnreserve(i));
    TakenCount(st, Request(d.serial, d.worker), s);
    assert Unreserves(next, s) == Unreserves(st.(unreserves := Taken(st, Request(d.serial, d.worker))), s);
    PutToken(st, i, d.o.(aboutWrite := d.o.aboutWrite + 1), s);
    assert next.db == st.db && next.instances == Put(st, i, d.o.(aboutWrite := d.o.aboutWrite + 1)).instances;
  }

  // A step that changes one object, and perhaps writes a status.
  lemma ObjectChanges(st: State, next: State, i: nat, after: Object, s: string)
    requires i < |st.instances| && next.instances == Put(st, i, after).instances && next.unreserves == st.unreserves
    requires st.instances[i].serial == s ==>
               DbToken(next.db, s) + ObjectToken(after) <= DbToken(st.db, s) + ObjectToken(st.instances[i].o)
    requires st.instances[i].serial != s ==> DbToken(next.db, s) <= DbToken(st.db, s)
    ensures Token(next, s) <= Token(st, s)
  {
    PutToken(st, i, after, s);
  }

  lemma ObjectStepToken(st: State, step: Step, s: string)
    requires CanStep(st, step) && Tidy(st)
    requires step.WorkerEnds? || step.DeliverReserve? || step.SwitchToFlash? || step.TimerFires?
    ensures Token(Next(st, step), s) <= Token(st, s)
  {
    var o := st.instances[step.i].o;
    match step
    case WorkerEnds(i) => ObjectChanges(st, Next(st, step), i, GONE, s);
    case DeliverReserve(i, accepted) =>
      AcceptOk(o);
      ObjectChanges(st, Next(st, step), i, if accepted then Accept(o) else o, s);
    case SwitchToFlash(i) => ObjectChanges(st, Next(st, step), i, Reflash(o), s);
    case TimerFires(i, id) => ObjectChanges(st, Next(st, step), i, FireTimer(o, id), s);
  }

  lemma WritingToken(st: State, i: nat, written: bool, s: string)
    requires CanStep(st, WriteFlashing(i, written))
    ensures Token(Next(st, WriteFlashing(i, written)), s) <= Token(st, s)
  {
    var d := st.instances[i];
    WriteToken(st.db, d.serial, Some(FlashingDefault), written, s);
    ObjectChanges(st, Next(st, WriteFlashing(i, written)), i,
                  d.o.(aboutWrite := d.o.aboutWrite - 1, aboutSwitch := d.o.aboutSwitch + 1), s);
  }

  lemma BreakingToken(st: State, i: nat, id: nat, written: bool, s: string)
    requires CanStep(st, TimerSwitches(i, id, written))
    ensures Token(Next(st, TimerSwitches(i, id, written)), s) <= Token(st, s)
  {
    var d := st.instances[i];
    WriteToken(st.db, d.serial, Some(Broken), written, s);
    ObjectChanges(st, Next(st, TimerSwitches(i, id, written)), i, TimerSwitch(d.o, id), s);
  }

  lemma AddedToken(st: State, i: nat, file: DevFile, written: bool, s: string)
    requires Running(st, i) && ObjectOk(st.instances[i].o)
    ensures Token(Next(st, DeviceAdded(i, file, written)), s) <= Token(st, s)
  {
    var d := st.instances[i];
    var after := AddEvent(d.o, file);
    AddEventToken(d.o, file);
    WriteToken(st.db, d.serial, StatusOf(after.kinds[|after.kinds| - 1]), written, s);
    ObjectChanges(st, Next(st, DeviceAdded(i, file, written)), i, after, s);
  }

  // No step adds a token, except that a device is created with one, whatever else is left of it.
  lemma StepToken(st: State, step: Step, s: string)
    requires CanStep(st, step) && Tidy(st)
    ensures !Creates(step, s) ==> Token(Next(st, step), s) <= Token(st, s)
    ensures Creates(step, s) ==> Token(Next(st, step), s) == Token(st, s) + 1
  {
    if step.Administer? || step.Reserve? || step.End? || step.CreateDevice? {
      DbStepToken(st, step, s);
    } else {
      match step
      case LoseUnreserve(r) => LoseUnreserveToken(st, r, s);
      case DeliverUnreserve(i) => DeliverUnreserveToken(st, i, s);
      case WriteFlashing(i, written) => WritingToken(st, i, written, s);
      case TimerSwitches(i, id, written) => BreakingToken(st, i, id, written, s);
      case DeviceAdded(i, file, written) => AddedToken(st, i, file, written, s);
      case LoseReserve(_) =>
      case _ => ObjectStepToken(st, step, s);
    }
  }

  // The steps of one object change no other.
  lemma StepOfOther(st: State, step: Step, i: nat)
    requires CanStep(st, step) && i < |Next(st, step).instances| && !OfInstance(step, i)
    ensures if i < |st.instances| then Next(st, step).instances[i] == st.instances[i]
            else step.CreateDevice? && Next(st, step).instances[i] == Instance(step.s, step.worker, FRESH)
    ensures |st.instances| <= |Next(st, step).instances|
  {
  }

  lemma StepKeepsObject(st: State, step: Step, i: nat)
    requires CanStep(st, step) && i < |st.instances| && OfInstance(step, i) && ObjectOk(st.instances[i].o)
    ensures |Next(st, step).instances| == |st.instances| && ObjectOk(Next(st, step).instances[i].o)
    ensures Next(st, step).instances[i] == st.instances[i].(o := Next(st, step).instances[i].o)
  {
    var o := st.instances[i].o;
    match step
    case WorkerEnds(_) =>
    case DeliverReserve(_, _) => AcceptOk(o);
    case DeliverUnreserve(_) => AboutOk(o, o.aboutWrite + 1, o.aboutSwitch);
    case WriteFlashing(_, _) => AboutOk(o, o.aboutWrite - 1, o.aboutSwitch + 1);
    case SwitchToFlash(_) => ReflashOk(o);
    case TimerFires(_, id) => FireTimerOk(o, id);
    case TimerSwitches(_, id, _) => TimerSwitchOk(o, id);
    case DeviceAdded(_, file, _) => AddEventOk(o, file);
  }

  lemma StepKeepsConsistent(st: State, step: Step)
    requires CanStep(st, step) && Consistent(st.db)
    ensures Consistent(Next(st, step).db)
  {
    match step
    case Administer(tx) => CommitKeepsConsistent(st.db, tx);
    case Reserve(serials, client, until, _) => CommitKeepsConsistent(st.db, ReserveTx(serials, client, until));
    case End(ended, _) => CommitKeepsConsistent(st.db, EndTx(ended));
    case _ =>
  }

  lemma StepKeepsTidy(st: State, step: Step)
    requires CanStep(st, step) && Tidy(st)
    ensures Tidy(Next(st, step))
  {
    StepKeepsConsistent(st, step);
    var next := Next(st, step);
    forall i: nat | i < |next.instances| ensures ObjectOk(next.instances[i].o) {
      if OfInstance(step, i) {
        StepKeepsObject(st, step, i);
      } else {
        StepOfOther(st, step, i);
      }
    }
  }

  lemma {:induction false} TidyInvariant(states: seq<State>, steps: seq<Step>, i: nat)
    requires AnyRun(states, steps) && i < |states|
    ensures Tidy(states[i])
  {
    if i > 0 {
      TidyInvariant(states, steps, i - 1);
      StepKeepsTidy(states[i - 1], steps[i - 1]);
    }
  }

  lemma StepKeepsInv(st: State, step: Step)
    requires CanStep(st, step) && CleanCreation(st, step) && Inv(st)
    ensures Inv(Next(st, step))
  {
    StepKeepsTidy(st, step);
    forall s ensures Token(Next(st, step), s) <= 1 {
      assert Token(st, s) <= 1;
      StepToken(st, step, s);
    }
  }

  // In every reachable state every device has at most one token.
  lemma {:induction false} TokenInvariant(states: seq<State>, steps: seq<Step>, i: nat)
    requires Run(states, steps) && i < |states|
    ensures Inv(states[i])
  {
    if i > 0 {
      TokenInvariant(states, steps, i - 1);
      assert StepTo(states[i - 1], steps[i - 1], states[i]);
      StepKeepsInv(states[i - 1], steps[i - 1]);
    }
  }

  // Exactly when a device may be created: its token is the only one if and only if none is left.
  lemma CreationSafeExactly(st: State, step: Step)
    requires Inv(st) && step.CreateDevice? && CanStep(st, step)
    ensures OneToken(Next(st, step)) <==> CleanCreation(st, step)
  {
    if CleanCreation(st, step) {
      StepKeepsInv(st, step);
    } else {
      StepToken(st, step, step.s);
      assert Token(Next(st, step), step.s) > 1;
    }
  }

  // In any run at all the token invariant holds throughout if and only if every creation is clean.
  lemma TokenInvariantExactly(states: seq<State>, steps: seq<Step>)
    requires AnyRun(states, steps)
    ensures (forall i :: 0 <= i < |states| ==> OneToken(states[i])) <==> Run(states, steps)
  {
    if Run(states, steps) {
      forall i | 0 <= i < |states| ensures OneToken(states[i]) {
        TokenInvariant(states, steps, i);
      }
    } else if forall i :: 0 <= i < |states| ==> OneToken(states[i]) {
      forall i {:trigger steps[i]} | 0 <= i < |steps| ensures StepTo(states[i], steps[i], states[i + 1]) {
        TidyInvariant(states, steps, i);
        assert CanStep(states[i], steps[i]) && OneToken(states[i]) && OneToken(states[i + 1]);
        if steps[i].CreateDevice? {
          CreationSafeExactly(states[i], steps[i]);
        }
      }
      assert Run(states, steps);
    }
  }

  // While a reservation lasts, no worker runs or starts the default reflash cycle on its device, nothing that would
  // start it is under way, and the device is not offered to anybody else.
  lemma ReservationNeverUndercut(states: seq<State>, steps: seq<Step>, k: nat, s: string, i: nat)
    requires Run(states, steps) && k < |states| && s in states[k].db.reservations
    ensures Unreserves(states[k], s) == multiset{}
    ensures i < |states[k].instances| && states[k].instances[i].serial == s ==>
              var o := states[k].instances[i].o;
              && o.aboutWrite == 0 && o.aboutSwitch == 0 && !o.InCycle()
              && (k < |steps| ==> steps[k] != DeliverUnreserve(i) && steps[k] != SwitchToFlash(i))
    ensures s in states[k].db.devices && states[k].db.devices[s].status != Available
  {
    TokenInvariant(states, steps, k);
    assert Token(states[k], s) <= 1;
    assert |Unreserves(states[k], s)| == 0;
    if i < |states[k].instances| {
      TokensAt(states[k].instances, i, s);
      if k < |steps| {
        assert StepTo(states[k], steps[k], states[k + 1]);
      }
    }
  }

  // makeReservations never runs into the primary key of Reservations.
  lemma NoReservationConflict(states: seq<State>, steps: seq<Step>, i: nat)
    requires Run(states, steps) && i < |states|
    ensures Free(states[i].db) !! states[i].db.reservations.Keys
  {
    TokenInvariant(states, steps, i);
    forall s | s in Free(states[i].db) ensures s !in states[i].db.reservations {
      assert Token(states[i], s) <= 1;
    }
  }

  // A token that is lost never comes back, whatever other devices are created.
  lemma {:induction false} LostTokenStaysLost(states: seq<State>, steps: seq<Step>, i: nat, j: nat, s: string)
    requires AnyRun(states, steps) && i <= j < |states|
    requires forall k :: i <= k < j ==> !Creates(steps[k], s)
    ensures Token(states[j], s) <= Token(states[i], s)
    decreases j
  {
    if i < j {
      LostTokenStaysLost(states, steps, i, j - 1, s);
      TidyInvariant(states, steps, j - 1);
      StepToken(states[j - 1], steps[j - 1], s);
    }
  }

  // After an /unreserve got lost, or the device broke, the device is neither offered nor reserved again until it is
  // created anew.
  lemma LostTokenStrandsDevice(states: seq<State>, steps: seq<Step>, i: nat, j: nat, s: string)
    requires AnyRun(states, steps) && i <= j < |states| && Token(states[i], s) == 0
    requires forall k :: i <= k < j ==> !Creates(steps[k], s)
    ensures s !in states[j].db.reservations && s !in Free(states[j].db)
  {
    LostTokenStaysLost(states, steps, i, j, s);
  }

  lemma RunIsAnyRun(states: seq<State>, steps: seq<Step>)
    requires Run(states, steps)
    ensures AnyRun(states, steps)
  {
    forall i {:trigger steps[i]} | 0 <= i < |steps|
      ensures CanStep(states[i], steps[i]) && states[i + 1] == Next(states[i], steps[i])
    {
      assert StepTo(states[i], steps[i], states[i + 1]);
    }
  }

  // A lost /unreserve does that: from then on the device is neither reserved nor offered until it is created anew.
  lemma LostUnreserveStrandsDevice(states: seq<State>, steps: seq<Step>, i: nat, j: nat, r: Request)
    requires Run(states, steps) && i < j < |states| && steps[i] == LoseUnreserve(r)
    requires forall k :: i < k < j ==> !Creates(steps[k], r.serial)
    ensures r.serial !in states[j].db.reservations && r.serial !in Free(states[j].db)
  {
    TokenInvariant(states, steps, i);
    RunIsAnyRun(states, steps);
    assert StepTo(states[i], steps[i], states[i + 1]);
    assert Token(states[i], r.serial) <= 1;
    LoseUnreserveToken(states[i], r, r.serial);
    LostTokenStrandsDevice(states, steps, i + 1, j, r.serial);
  }

  // ----- exactly when a device can be offered again -----

  // A started object of the device on that worker.
  ghost predicate Receives(st: State, s: string, worker: string) {
    exists i: nat :: Running(st, i) && st.instances[i].serial == s && st.instances[i].worker == worker
  }

  predicate InDb(db: Tables, s: string) {
    s in db.devices && db.devices[s].worker in db.workers
  }

  /** The device has its row and a token. If that is a reservation or an unreserve in flight, the worker has a started
      object for it. If it is a running reflash, the current state has spent neither its switch nor its check. */
  ghost predicate Recoverable(st: State, s: string) {
    && InDb(st.db, s) && Token(st, s) > 0
    && (s in st.db.reservations ==> Receives(st, s, st.db.devices[s].worker))
    && (forall worker :: worker in Unreserves(st, s) ==> Receives(st, s, worker))
    && (forall i :: 0 <= i < |st.instances| && InCycleOf(st, i, s) ==> Live(st.instances[i].o))
  }

  predicate InCycleOf(st: State, i: nat, s: string)
    requires i < |st.instances|
  {
    st.instances[i].serial == s && st.instances[i].o.InCycle()
  }

  // A continuation in which the device is not created anew.
  ghost predicate Leads(st: State, next: State, s: string) {
    exists states: seq<State>, steps :: Continues(states, steps, st, s) && states[|steps|] == next
  }

  ghost predicate Continues(states: seq<State>, steps: seq<Step>, st: State, s: string) {
    Path(states, steps) && states[0] == st && forall k :: 0 <= k < |steps| ==> !Creates(steps[k], s)
  }

  // The running reflash is the only token.
  lemma CycleToken(st: State, i: nat, s: string)
    requires OneToken(st) && i < |st.instances| && InCycleOf(st, i, s)
    ensures DbToken(st.db, s) == 0 && Unreserves(st, s) == multiset{}
    ensures st.instances[i].o.aboutWrite == 0 && st.instances[i].o.aboutSwitch == 0
    ensures Tokens(st.instances, s) == 1
  {
    TokensAt(st.instances, i, s);
    assert Token(st, s) <= 1;
    assert |Unreserves(st, s)| == 0;
  }

  // A reflash that is cut short leaves no token.
  lemma LeavingCycle(st: State, step: Step, i: nat, s: string)
    requires CanStep(st, step) && Inv(st) && i < |st.instances| && OfInstance(step, i) && InCycleOf(st, i, s)
    requires step.WorkerEnds? || step.TimerSwitches? || (step.DeliverReserve? && step.accepted)
    ensures Token(Next(st, step), s) == 0
  {
    var d := st.instances[i];
    CycleToken(st, i, s);
    match step
    case WorkerEnds(_) => PutToken(st, i, GONE, s);
    case TimerSwitches(_, id, written) =>
      WriteToken(st.db, s, Some(Broken), written, s);
      PutToken(st, i, TimerSwitch(d.o, id), s);
    case DeliverReserve(_, _) =>
      AcceptOk(d.o);
      PutToken(st, i, Accept(d.o), s);
  }

  // A flag that was taken stays taken until the cycle is left, and then the token is gone.
  lemma DeadCycle(st: State, step: Step, i: nat, s: string)
    requires CanStep(st, step) && Inv(st) && !Creates(step, s)
    requires i < |st.instances| && InCycleOf(st, i, s) && !Live(st.instances[i].o)
    requires Token(Next(st, step), s) > 0
    ensures i < |Next(st, step).instances|
    ensures InCycleOf(Next(st, step), i, s) && !Live(Next(st, step).instances[i].o)
  {
    CycleToken(st, i, s);
    if !OfInstance(step, i) {
      assert i < |Next(st, step).instances|;
      StepOfOther(st, step, i);
    } else if step.WorkerEnds? || step.TimerSwitches? || (step.DeliverReserve? && step.accepted) {
      LeavingCycle(st, step, i, s);
    } else {
      DeadStep(st, step, i);
    }
  }

  lemma DeadStep(st: State, step: Step, i: nat)
    requires CanStep(st, step) && i < |st.instances| && OfInstance(step, i)
    requires st.instances[i].o.InCycle() && !Live(st.instances[i].o)
    requires st.instances[i].o.aboutSwitch == 0
    requires !step.WorkerEnds? && !step.TimerSwitches? && !(step.DeliverReserve? && step.accepted)
    ensures i < |Next(st, step).instances| && Next(st, step).instances[i].serial == st.instances[i].serial
    ensures Next(st, step).instances[i].o.InCycle() && !Live(Next(st, step).instances[i].o)
  {
    match step
    case TimerFires(_, id) => DeadObject(st.instances[i].o, DEFAULT_FILE, id);
    case DeviceAdded(_, file, _) => DeadObject(st.instances[i].o, file, 0);
    case _ =>
  }

  // Only a caller of __flashDefault starts an object, and it has a token.
  lemma StartedBefore(st: State, step: Step, i: nat)
    requires CanStep(st, step) && Running(Next(st, step), i)
    ensures i < |st.instances| && Next(st, step).instances[i].serial == st.instances[i].serial
    ensures Next(st, step).instances[i].worker == st.instances[i].worker
    ensures !Running(st, i) ==> step == SwitchToFlash(i)
  {
    if !OfInstance(step, i) {
      StepOfOther(st, step, i);
    }
  }

  lemma ReceivesBefore(st: State, step: Step, s: string, worker: string)
    requires CanStep(st, step) && OneToken(st) && DbToken(st.db, s) + |Unreserves(st, s)| > 0
    requires Receives(Next(st, step), s, worker)
    ensures Receives(st, s, worker)
  {
    var next := Next(st, step);
    var i: nat :| Running(next, i) && next.instances[i].serial == s && next.instances[i].worker == worker;
    StartedBefore(st, step, i);
    assert Token(st, s) <= 1;
    TokensAt(st.instances, i, s);
    assert Running(st, i);
  }

  lemma CommitKeepsRow(db: Tables, tx: Tx, s: string)
    requires Database.Enabled(db, tx) && Consistent(db) && !(tx.AddDeviceTx? && tx.serial == s)
    requires s in Commit(db, tx).devices
    ensures InDb(db, s) && Commit(db, tx).devices[s].worker == db.devices[s].worker
  {
  }

  lemma WriteKeepsRow(db: Tables, x: string, status: Option<DeviceState>, written: bool, s: string)
    requires Consistent(db) && s in Write(db, x, status, written).devices
    ensures InDb(db, s) && Write(db, x, status, written).devices[s].worker == db.devices[s].worker
  {
  }

  // Rows come into being by creation only, and stay with their worker.
  lemma StepKeepsRow(st: State, step: Step, s: string)
    requires CanStep(st, step) && Consistent(st.db) && !Creates(step, s)
    requires s in Next(st, step).db.devices
    ensures InDb(st.db, s) && Next(st, step).db.devices[s].worker == st.db.devices[s].worker
  {
    match step
    case Administer(tx) => CommitKeepsRow(st.db, tx, s);
    case Reserve(serials, client, until, _) => CommitKeepsRow(st.db, ReserveTx(serials, client, until), s);
    case End(ended, _) => CommitKeepsRow(st.db, EndTx(ended), s);
    case CreateDevice(x, worker, added) => if added { CommitKeepsRow(st.db, AddDeviceTx(x, worker), s); }
    case WriteFlashing(i, written) => WriteKeepsRow(st.db, st.instances[i].serial, Some(FlashingDefault), written, s);
    case TimerSwitches(i, _, written) => WriteKeepsRow(st.db, st.instances[i].serial, Some(Broken), written, s);
    case DeviceAdded(i, file, written) =>
      var kinds := AddEvent(st.instances[i].o, file).kinds;
      WriteKeepsRow(st.db, st.instances[i].serial, StatusOf(kinds[|kinds| - 1]), written, s);
    case _ =>
  }

  // Where a reservation goes.
  lemma ReservationBefore(st: State, step: Step, s: string)
    requires CanStep(st, step) && Inv(st) && !Creates(step, s)
    requires s in st.db.reservations && Recoverable(Next(st, step), s)
    ensures Receives(st, s, st.db.devices[s].worker)
  {
    var next, worker := Next(st, step), st.db.devices[s].worker;
    assert Token(st, s) <= 1;
    StepKeepsRow(st, step, s);
    ReservationMoves(st, step, s);
    ReceivesBefore(st, step, s, worker);
  }

  lemma ReservationMoves(st: State, step: Step, s: string)
    requires CanStep(st, step) && Inv(st) && !Creates(step, s)
    requires s in st.db.reservations && s in st.db.devices
    requires Token(Next(st, step), s) > 0 && s in Next(st, step).db.devices
    ensures s in Next(st, step).db.reservations || st.db.devices[s].worker in Unreserves(Next(st, step), s)
  {
    assert Token(st, s) <= 1;
    if step.End? && s in step.ended {
      EndMovesToken(st, step.ended, step.notified, s);
    } else {
      ReservationStays(st, step, s);
    }
  }

  lemma EndMovesToken(st: State, ended: set<string>, notified: set<string>, s: string)
    requires CanStep(st, End(ended, notified)) && s in ended && Token(st, s) <= 1
    ensures s in notified ==> st.db.devices[s].worker in Unreserves(Next(st, End(ended, notified)), s)
    ensures s !in notified ==> Token(Next(st, End(ended, notified)), s) == 0
  {
    CommitToken(st.db, EndTx(ended), s);
  }

  lemma ReservationStays(st: State, step: Step, s: string)
    requires CanStep(st, step) && s in st.db.reservations && !(step.End? && s in step.ended)
    requires s in Next(st, step).db.devices
    ensures s in Next(st, step).db.reservations
  {
  }

  // Where an unreserve goes.
  lemma UnreserveBefore(st: State, step: Step, s: string, worker: string)
    requires CanStep(st, step) && Inv(st) && !Creates(step, s)
    requires worker in Unreserves(st, s) && Recoverable(Next(st, step), s)
    ensures Receives(st, s, worker)
  {
    assert Token(st, s) <= 1;
    OneUnreserve(Unreserves(st, s), worker);
    if step.DeliverUnreserve? && st.instances[step.i].serial == s {
      assert Running(st, step.i);
    } else if step.LoseUnreserve? && step.r.serial == s {
      LoseUnreserveToken(st, step.r, s);
    } else {
      UnreserveStays(st, step, s, worker);
      ReceivesBefore(st, step, s, worker);
    }
  }

  lemma OneUnreserve(workers: multiset<string>, worker: string)
    requires worker in workers && |workers| <= 1
    ensures workers == multiset{worker}
  {
    assert |workers - multiset{worker}| == |workers| - 1;
    assert workers == multiset{worker} + (workers - multiset{worker});
  }

  lemma UnreserveStays(st: State, step: Step, s: string, worker: string)
    requires CanStep(st, step) && worker in Unreserves(st, s)
    requires step.DeliverUnreserve? ==> st.instances[step.i].serial != s
    requires step.LoseUnreserve? ==> step.r.serial != s
    ensures worker in Unreserves(Next(st, step), s)
  {
  }

  lemma StepFromRecoverable(st: State, step: Step, s: string)
    requires CanStep(st, step) && Inv(st) && !Creates(step, s)
    requires Recoverable(Next(st, step), s)
    ensures Recoverable(st, s)
  {
    StepToken(st, step, s);
    StepKeepsRow(st, step, s);
    if s in st.db.reservations {
      ReservationBefore(st, step, s);
    }
    forall worker | worker in Unreserves(st, s) ensures Receives(st, s, worker) {
      UnreserveBefore(st, step, s, worker);
    }
    forall i: nat | i < |st.instances| && InCycleOf(st, i, s) ensures Live(st.instances[i].o) {
      if !Live(st.instances[i].o) {
        DeadCycle(st, step, i, s);
      }
    }
  }

  lemma {:induction false} RecoverableBefore(states: seq<State>, steps: seq<Step>, st: State, s: string, i: nat)
    requires Continues(states, steps, st, s) && Inv(st) && i <= |steps|
    requires Recoverable(states[i], s)
    ensures Recoverable(st, s)
  {
    if i > 0 {
      InvAlong(states, steps, st, s, i - 1);
      RecoverableStep(states, steps, st, s, i - 1);
      RecoverableBefore(states, steps, st, s, i - 1);
    }
  }

  lemma RecoverableStep(states: seq<State>, steps: seq<Step>, st: State, s: string, i: nat)
    requires Continues(states, steps, st, s) && i < |steps| && Inv(states[i]) && Recoverable(states[i + 1], s)
    ensures Recoverable(states[i], s)
  {
    assert StepTo(states[i], steps[i], states[i + 1]);
    StepFromRecoverable(states[i], steps[i], s);
  }

  lemma {:induction false} InvAlong(states: seq<State>, steps: seq<Step>, st: State, s: string, i: nat)
    requires Continues(states, steps, st, s) && Inv(st) && i <= |steps|
    ensures Inv(states[i])
  {
    if i > 0 {
      InvAlong(states, steps, st, s, i - 1);
      assert StepTo(states[i - 1], steps[i - 1], states[i]);
      StepKeepsInv(states[i - 1], steps[i - 1]);
    }
  }

  lemma LeadsItself(st: State, s: string)
    ensures Leads(st, st, s)
  {
    var none: seq<Step> := [];
    assert Continues([st], none, st, s) && [st][|none|] == st;
  }

  lemma PathExtends(states: seq<State>, steps: seq<Step>, step: Step, next: State)
    requires Path(states, steps) && StepTo(states[|steps|], step, next)
    ensures Path(states + [next], steps + [step])
    ensures (states + [next])[0] == states[0] && (states + [next])[|steps + [step]|] == next
  {
  }

  lemma Lead(start: State, st: State, s: string, step: Step) returns (next: State)
    requires Leads(start, st, s) && CanStep(st, step) && !step.CreateDevice?
    ensures Leads(start, next, s) && next == Next(st, step)
  {
    next := Next(st, step);
    var states, steps :| Continues(states, steps, start, s) && states[|steps|] == st;
    PathExtends(states, steps, step, next);
    assert Continues(states + [next], steps + [step], start, s);
  }

  // The object of the instance, and the row of its device.
  predicate Ready(st: State, i: nat, s: string) {
    InDb(st.db, s) && i < |st.instances| && st.instances[i].serial == s
  }

  // A reflash that nothing interrupts ends in the ready state.
  lemma CycleRecovers(start: State, st: State, s: string, i: nat) returns (next: State)
    requires Leads(start, st, s) && Ready(st, i, s) && ObjectOk(st.instances[i].o)
    requires st.instances[i].o.InCycle() && Live(st.instances[i].o)
    ensures Leads(start, next, s) && s in Free(next.db)
  {
    next := st;
    if st.instances[i].o.kinds[st.instances[i].o.Current()] == DEFAULT_CYCLE {
      next := FlashRecovers(start, st, s, i);
    }
    next := TestRecovers(start, next, s, i);
  }

  lemma TestRecovers(start: State, st: State, s: string, i: nat) returns (next: State)
    requires Leads(start, st, s) && Ready(st, i, s)
    requires st.instances[i].o.Started() && st.instances[i].o.kinds[st.instances[i].o.Current()] == TestF
    requires Live(st.instances[i].o)
    ensures Leads(start, next, s) && s in Free(next.db)
  {
    next := Lead(start, st, s, DeviceAdded(i, DEFAULT_FILE, true));
  }

  lemma FlashRecovers(start: State, st: State, s: string, i: nat) returns (next: State)
    requires Leads(start, st, s) && Ready(st, i, s) && ObjectOk(st.instances[i].o)
    requires st.instances[i].o.Started() && st.instances[i].o.kinds[st.instances[i].o.Current()] == DEFAULT_CYCLE
    requires Live(st.instances[i].o)
    ensures Leads(start, next, s) && Ready(next, i, s)
    ensures next.instances[i].o.Started() && next.instances[i].o.kinds[next.instances[i].o.Current()] == TestF
    ensures Live(next.instances[i].o)
  {
    next := Lead(start, st, s, DeviceAdded(i, UPLOADED_FILE, false));
  }

  lemma SwitchRecovers(start: State, st: State, s: string, i: nat) returns (next: State)
    requires Leads(start, st, s) && Ready(st, i, s) && ObjectOk(st.instances[i].o)
    requires st.instances[i].o.aboutSwitch > 0
    ensures Leads(start, next, s) && s in Free(next.db)
  {
    ReflashOk(st.instances[i].o);
    next := Lead(start, st, s, SwitchToFlash(i));
    next := CycleRecovers(start, next, s, i);
  }

  lemma WriteRecovers(start: State, st: State, s: string, i: nat) returns (next: State)
    requires Leads(start, st, s) && Ready(st, i, s) && ObjectOk(st.instances[i].o)
    requires st.instances[i].o.aboutWrite > 0
    ensures Leads(start, next, s) && s in Free(next.db)
  {
    var o := st.instances[i].o;
    AboutOk(o, o.aboutWrite - 1, o.aboutSwitch + 1);
    next := Lead(start, st, s, WriteFlashing(i, false));
    next := SwitchRecovers(start, next, s, i);
  }

  lemma UnreserveRecovers(start: State, st: State, s: string, i: nat) returns (next: State)
    requires Leads(start, st, s) && Ready(st, i, s) && ObjectOk(st.instances[i].o)
    requires Running(st, i) && st.instances[i].worker in Unreserves(st, s)
    ensures Leads(start, next, s) && s in Free(next.db)
  {
    var o := st.instances[i].o;
    AboutOk(o, o.aboutWrite + 1, o.aboutSwitch);
    next := Lead(start, st, s, DeliverUnreserve(i));
    next := WriteRecovers(start, next, s, i);
  }

  lemma ReservationRecovers(start: State, st: State, s: string, i: nat) returns (next: State)
    requires Leads(start, st, s) && Ready(st, i, s) && ObjectOk(st.instances[i].o)
    requires Running(st, i) && s in st.db.reservations && st.instances[i].worker == st.db.devices[s].worker
    ensures Leads(start, next, s) && s in Free(next.db)
  {
    next := Lead(start, st, s, End({s}, {s}));
    next := UnreserveRecovers(start, next, s, i);
  }

  lemma ObjectRecovers(st: State, s: string) returns (next: State)
    requires Inv(st) && Recoverable(st, s) && Tokens(st.instances, s) > 0
    ensures Leads(st, next, s) && s in Free(next.db)
  {
    LeadsItself(st, s);
    var i := TokenHolder(st.instances, s);
    var o := st.instances[i].o;
    if o.aboutWrite > 0 {
      next := WriteRecovers(st, st, s, i);
    } else if o.aboutSwitch > 0 {
      next := SwitchRecovers(st, st, s, i);
    } else {
      assert InCycleOf(st, i, s);
      next := CycleRecovers(st, st, s, i);
    }
  }

  lemma Recovers(st: State, s: string) returns (next: State)
    requires Inv(st) && Recoverable(st, s)
    ensures Leads(st, next, s) && s in Free(next.db)
  {
    LeadsItself(st, s);
    if Tokens(st.instances, s) > 0 {
      next := ObjectRecovers(st, s);
    } else if Unreserves(st, s) != multiset{} {
      var worker :| worker in Unreserves(st, s);
      var i: nat :| Running(st, i) && st.instances[i].serial == s && st.instances[i].worker == worker;
      next := UnreserveRecovers(st, st, s, i);
    } else if s in st.db.reservations {
      var i: nat :| Running(st, i) && st.instances[i].serial == s && st.instances[i].worker == st.db.devices[s].worker;
      next := ReservationRecovers(st, st, s, i);
    } else {
      next := st;
    }
  }

  lemma FreeIsRecoverable(st: State, s: string)
    requires Inv(st) && s in Free(st.db)
    ensures Recoverable(st, s)
  {
    assert Token(st, s) <= 1;
    assert |Unreserves(st, s)| == 0;
    forall i: nat | i < |st.instances| ensures !InCycleOf(st, i, s) {
      TokensAt(st.instances, i, s);
    }
  }

  // Exactly when a device can be offered again without being created anew.
  lemma OfferedAgainExactly(states: seq<State>, steps: seq<Step>, i: nat, s: string)
    requires Run(states, steps) && i < |states|
    ensures (exists next :: Leads(states[i], next, s) && s in Free(next.db)) <==> Recoverable(states[i], s)
  {
    var st := states[i];
    TokenInvariant(states, steps, i);
    if Recoverable(st, s) {
      var next := Recovers(st, s);
    } else if next :| Leads(st, next, s) && s in Free(next.db) {
      var path, taken :| Continues(path, taken, st, s) && path[|taken|] == next;
      InvAlong(path, taken, st, s, |taken|);
      FreeIsRecoverable(next, s);
      RecoverableBefore(path, taken, st, s, |taken|);
    }
  }

  // ----- one switch for each state object -----

  // Over its whole life a state object causes at most one switch.
  lemma OneSwitchPerState(states: seq<State>, steps: seq<Step>, i: nat, d: nat, j: nat, k: nat)
    requires AnyRun(states, steps) && i < |states| && d < |states[i].instances|
    requires j < k < |states[i].instances[d].o.causes|
    ensures states[i].instances[d].o.causes[j].actor != states[i].instances[d].o.causes[k].actor
  {
    TidyInvariant(states, steps, i);
  }

  // ----- no stale switch -----

  ghost predicate AllAttentive(st: State) {
    forall i :: 0 <= i < |st.instances| ==> Attentive(st.instances[i].o)
  }

  // No /reserve is accepted while a timer is armed.
  ghost predicate Gentle(st: State, step: Step) {
    step.DeliverReserve? && step.accepted && step.i < |st.instances| ==> Unarmed(st.instances[step.i].o)
  }

  // A caller of __flashDefault finds no armed timer, because its token is the only one.
  lemma ReflashFindsNoTimer(st: State, i: nat)
    requires Inv(st) && i < |st.instances| && Attentive(st.instances[i].o) && st.instances[i].o.aboutSwitch > 0
    ensures Unarmed(st.instances[i].o)
  {
    var d := st.instances[i];
    TokensAt(st.instances, i, d.serial);
    assert Token(st, d.serial) <= 1;
    forall id: nat ensures !Armed(d.o, id) {
      if Armed(d.o, id) {
        ArmedInCycle(d.o, id);
      }
    }
  }

  lemma StepKeepsAttentive(st: State, step: Step, i: nat)
    requires CanStep(st, step) && Inv(st) && AllAttentive(st)
    requires i < |st.instances| && OfInstance(step, i)
    ensures i < |Next(st, step).instances| && (Attentive(Next(st, step).instances[i].o) <==> Gentle(st, step))
  {
    var o := st.instances[i].o;
    match step
    case WorkerEnds(_) =>
    case DeliverReserve(_, accepted) => AcceptAttentive(o);
    case DeliverUnreserve(_) => AboutOk(o, o.aboutWrite + 1, o.aboutSwitch);
    case WriteFlashing(_, _) => AboutOk(o, o.aboutWrite - 1, o.aboutSwitch + 1);
    case SwitchToFlash(_) =>
      ReflashFindsNoTimer(st, i);
      ReflashOk(o);
    case TimerFires(_, id) => FireTimerOk(o, id);
    case TimerSwitches(_, id, _) => TimerSwitchOk(o, id);
    case DeviceAdded(_, file, _) => AddEventOk(o, file);
  }

  // One step keeps every armed timer and every switch with the current state if and only if it is no /reserve that is
  // accepted while a timer is armed.
  lemma StepKeepsAllAttentive(st: State, step: Step)
    requires CanStep(st, step) && Inv(st) && AllAttentive(st)
    ensures AllAttentive(Next(st, step)) <==> Gentle(st, step)
  {
    var next := Next(st, step);
    forall i: nat | i < |next.instances|
      ensures Attentive(next.instances[i].o) <==> (OfInstance(step, i) ==> Gentle(st, step))
    {
      if OfInstance(step, i) {
        StepKeepsAttentive(st, step, i);
      } else {
        StepOfOther(st, step, i);
      }
    }
    if !Gentle(st, step) {
      assert OfInstance(step, step.i) && step.i < |next.instances|;
    }
  }

  ghost predicate GentleUntil(states: seq<State>, steps: seq<Step>, i: nat)
    requires i <= |steps| < |states|
  {
    forall k {:trigger steps[k]} :: 0 <= k < i ==> Gentle(states[k], steps[k])
  }

  lemma AttentiveStep(states: seq<State>, steps: seq<Step>, i: nat)
    requires Run(states, steps) && i < |steps| && AllAttentive(states[i])
    ensures AllAttentive(states[i + 1]) <==> Gentle(states[i], steps[i])
  {
    TokenInvariant(states, steps, i);
    assert StepTo(states[i], steps[i], states[i + 1]);
    StepKeepsAllAttentive(states[i], steps[i]);
  }

  lemma {:induction false} AttentiveInvariant(states: seq<State>, steps: seq<Step>, i: nat)
    requires Run(states, steps) && i < |states| && GentleUntil(states, steps, i)
    ensures AllAttentive(states[i])
  {
    if i > 0 {
      AttentiveInvariant(states, steps, i - 1);
      AttentiveStep(states, steps, i - 1);
    }
  }

  // Exactly when, over a whole run and whatever races of timers, add events and commands happen, every armed timer and
  // every switch made on behalf of a state object belong to the current state.
  lemma AttentiveExactly(states: seq<State>, steps: seq<Step>)
    requires Run(states, steps)
    ensures (forall i :: 0 <= i < |states| ==> AllAttentive(states[i])) <==> GentleUntil(states, steps, |steps|)
  {
    if GentleUntil(states, steps, |steps|) {
      forall i | 0 <= i < |states| ensures AllAttentive(states[i]) {
        AttentiveInvariant(states, steps, i);
      }
    } else if forall i :: 0 <= i < |states| ==> AllAttentive(states[i]) {
      forall k {:trigger steps[k]} | 0 <= k < |steps| ensures Gentle(states[k], steps[k]) {
        assert AllAttentive(states[k]) && AllAttentive(states[k + 1]);
        AttentiveStep(states, steps, k);
      }
    }
  }

  // No /reserve outlives the reservation it was sent for.
  ghost predicate ReservesFresh(st: State) {
    forall r :: r in st.reserves ==> r.serial in st.db.reservations
  }

  // Then a /reserve finds no armed timer, because the reservation is the only token.
  lemma FreshIsGentle(st: State, step: Step)
    requires CanStep(st, step) && Inv(st) && AllAttentive(st) && ReservesFresh(st)
    ensures Gentle(st, step)
  {
    if step.DeliverReserve? {
      var d := st.instances[step.i];
      assert Request(d.serial, d.worker) in st.reserves;
      TokensAt(st.instances, step.i, d.serial);
      assert Token(st, d.serial) <= 1;
      forall id: nat ensures !Armed(d.o, id) {
        if Armed(d.o, id) {
          ArmedInCycle(d.o, id);
        }
      }
    }
  }

  lemma {:induction false} FreshRunIsAttentive(states: seq<State>, steps: seq<Step>, i: nat)
    requires Run(states, steps) && i < |states|
    requires forall k :: 0 <= k < i ==> ReservesFresh(states[k])
    ensures AllAttentive(states[i])
  {
    if i > 0 {
      FreshRunIsAttentive(states, steps, i - 1);
      FreshStep(states, steps, i - 1);
      AttentiveStep(states, steps, i - 1);
    }
  }

  lemma FreshStep(states: seq<State>, steps: seq<Step>, i: nat)
    requires Run(states, steps) && i < |steps| && AllAttentive(states[i]) && ReservesFresh(states[i])
    ensures Gentle(states[i], steps[i])
  {
    TokenInvariant(states, steps, i);
    assert StepTo(states[i], steps[i], states[i + 1]);
    FreshIsGentle(states[i], steps[i]);
  }

  // If every /reserve is delivered or lost before its reservation ends, a switch on behalf of a state object is made
  // while that object is current.
  lemma NoStaleSwitch(states: seq<State>, steps: seq<Step>, i: nat, d: nat, k: nat)
    requires Run(states, steps) && i < |states|
    requires forall j :: 0 <= j < i ==> ReservesFresh(states[j])
    requires d < |states[i].instances| && k < |states[i].instances[d].o.causes|
    ensures states[i].instances[d].o.causes[k].actor == states[i].instances[d].o.causes[k].current
  {
    FreshRunIsAttentive(states, steps, i);
  }

  // ----- what the row shows -----

  // No status write is lost.
  predicate Lossless(step: Step) {
    match step
    case WriteFlashing(_, written) => written
    case TimerSwitches(_, _, written) => written
    case DeviceAdded(_, _, written) => written
    case _ => true
  }

  // No other object of the device is left.
  predicate Alone(st: State, i: nat) {
    i < |st.instances| ==>
      forall j :: 0 <= j < |st.instances| && j != i && st.instances[j].serial == st.instances[i].serial ==>
                    st.instances[j].o == GONE
  }

  /** The status of the row, if there is one, by the current state of the object. While a caller of __flashDefault is
      about to switch, and in the reflash it starts, the status can be broken instead of flashing: a failed upload of
      the pulse firmware may have come in between. */
  predicate Shown(status: DeviceState, o: Object) {
    if o.aboutSwitch > 0 then status == FlashingDefault || status == Broken
    else if !o.Started() then true
    else
      match o.kinds[o.Current()]
      case FlashF(next, _) => next.TestF? ==> status == FlashingDefault || status == Broken
      case TestF => status == Testing
      case ReadyF => status == Available || status == Reserved || status == AwaitFlashDefault
      case BrokenF => status == Broken || status == AwaitFlashDefault
      case _ => true
  }

  predicate Shows(st: State, i: nat) {
    i < |st.instances| && st.instances[i].serial in st.db.devices ==>
      Shown(st.db.devices[st.instances[i].serial].status, st.instances[i].o)
  }

  // A write that is not lost puts exactly that status into the row.
  lemma WrittenStatus(db: Tables, s: string, status: DeviceState)
    ensures var u := Write(db, s, Some(status), true);
            && u.devices.Keys == db.devices.Keys
            && (s in db.devices ==> u.devices[s] == DeviceRow(db.devices[s].worker, status))
            && forall x :: x in db.devices && x != s ==> u.devices[x] == db.devices[x]
  {
  }

  // A flash state that may still switch breaks the device when an upload fails, and the row shows it; a successful
  // upload of the default firmware shows testing, and a successful check available.
  lemma EventWrites(st: State, i: nat, file: DevFile)
    requires Running(st, i) && st.instances[i].serial in st.db.devices
    requires var o := st.instances[i].o; o.Current() !in o.switched && o.Current() !in o.exiting
    ensures var o, row := st.instances[i].o, Next(st, DeviceAdded(i, file, true)).db.devices[st.instances[i].serial];
            var before := st.db.devices[st.instances[i].serial];
            match o.kinds[o.Current()] {
              case FlashF(next, _) =>
                if file.named && !file.tty && file.partition
                then row.status == if !file.uploads then Broken else if next.TestF? then Testing else
                                   if next.BrokenF? then Broken else if next.ReadyF? then Available else before.status
                else row == before
              case TestF => row.status == if file.named && file.runsDefault then Available else before.status
              case _ => row == before
            }
  {
    var d := st.instances[i];
    var after := AddEvent(d.o, file);
    if |after.kinds| > |d.o.kinds| && StatusOf(after.kinds[|after.kinds| - 1]).Some? {
      WrittenStatus(st.db, d.serial, StatusOf(after.kinds[|after.kinds| - 1]).value);
    }
  }

  // A timer that switches shows broken, and a caller of __flashDefault flashing.
  lemma TimerAndFlashWrite(st: State, i: nat, id: nat)
    requires i < |st.instances| && st.instances[i].serial in st.db.devices
    ensures CanStep(st, TimerSwitches(i, id, true)) ==>
              Next(st, TimerSwitches(i, id, true)).db.devices[st.instances[i].serial].status == Broken
    ensures CanStep(st, WriteFlashing(i, true)) ==>
              Next(st, WriteFlashing(i, true)).db.devices[st.instances[i].serial].status == FlashingDefault
  {
    WrittenStatus(st.db, st.instances[i].serial, Broken);
    WrittenStatus(st.db, st.instances[i].serial, FlashingDefault);
  }

  // The status that a lossless write of a handler leaves.
  function StatusAfter(status: DeviceState, before: Object, after: Object): DeviceState {
    if |after.kinds| > |before.kinds| && StatusOf(after.kinds[|after.kinds| - 1]).Some?
    then StatusOf(after.kinds[|after.kinds| - 1]).value else status
  }

  lemma AddedStatus(o: Object, file: DevFile, status: DeviceState)
    requires ObjectOk(o) && o.Started() && Shown(status, o) && (o.InCycle() ==> o.aboutSwitch == 0)
    ensures Shown(StatusAfter(status, o, AddEvent(o, file)), AddEvent(o, file))
  {
    AddEventIsHandleAdd(o, file, (_: nat) => []);
  }

  // Handling an add event: what is constructed, and what is written for it.
  lemma AddedShows(st: State, i: nat, file: DevFile)
    requires Inv(st) && Running(st, i) && Shows(st, i)
    ensures Shows(Next(st, DeviceAdded(i, file, true)), i)
  {
    var d := st.instances[i];
    TokensAt(st.instances, i, d.serial);
    assert Token(st, d.serial) <= 1;
    if d.serial in st.db.devices {
      AddedStatus(d.o, file, st.db.devices[d.serial].status);
      AddedRow(st, i, file);
    }
  }

  lemma AddedRow(st: State, i: nat, file: DevFile)
    requires Running(st, i) && st.instances[i].serial in st.db.devices
    ensures var s, o, next := st.instances[i].serial, st.instances[i].o, Next(st, DeviceAdded(i, file, true));
            && s in next.db.devices && next.instances[i] == st.instances[i].(o := AddEvent(o, file))
            && next.db.devices[s].status == StatusAfter(st.db.devices[s].status, o, AddEvent(o, file))
  {
    var d := st.instances[i];
    var after := AddEvent(d.o, file);
    if |after.kinds| > |d.o.kinds| && StatusOf(after.kinds[|after.kinds| - 1]).Some? {
      WrittenStatus(st.db, d.serial, StatusOf(after.kinds[|after.kinds| - 1]).value);
    }
  }

  lemma BrokenShows(st: State, i: nat, id: nat)
    requires Inv(st) && CanStep(st, TimerSwitches(i, id, true)) && Attentive(st.instances[i].o)
    ensures Shows(Next(st, TimerSwitches(i, id, true)), i)
  {
    var d := st.instances[i];
    WrittenStatus(st.db, d.serial, Broken);
    ArmedInCycle(d.o, id);
    TokensAt(st.instances, i, d.serial);
    assert Token(st, d.serial) <= 1;
  }

  lemma FlashingShows(st: State, i: nat)
    requires CanStep(st, WriteFlashing(i, true))
    ensures Shows(Next(st, WriteFlashing(i, true)), i)
  {
    WrittenStatus(st.db, st.instances[i].serial, FlashingDefault);
  }

  lemma OwnStepShows(st: State, step: Step, i: nat)
    requires CanStep(st, step) && Inv(st) && AllAttentive(st) && Lossless(step)
    requires i < |st.instances| && OfInstance(step, i) && Shows(st, i)
    ensures Shows(Next(st, step), i)
  {
    match step
    case WriteFlashing(_, _) => FlashingShows(st, i);
    case TimerSwitches(_, id, _) => BrokenShows(st, i, id);
    case DeviceAdded(_, file, _) => AddedShows(st, i, file);
    case _ =>
  }

  // What control does to the row of the device.
  lemma ControlShows(st: State, step: Step, i: nat)
    requires CanStep(st, step) && Inv(st) && i < |st.instances| && Shows(st, i)
    requires step.Administer? || step.Reserve? || step.End?
    ensures Shows(Next(st, step), i)
  {
    var d := st.instances[i];
    TokensAt(st.instances, i, d.serial);
    assert Token(st, d.serial) <= 1;
    match step
    case Administer(tx) =>
      if d.serial in Commit(st.db, tx).devices { AdminKeepsStatus(st.db, tx, d.serial); }
    case Reserve(serials, client, until, _) => GrantedRows(st.db, serials, client, until, d.serial);
    case End(ended, _) => EndedRows(st.db, ended, d.serial);
  }

  lemma AdminKeepsStatus(db: Tables, tx: Tx, s: string)
    requires Database.Enabled(db, tx) && (tx.AddWorkerTx? || tx.DeleteWorkersTx? || tx.HeartbeatTx? || tx.ExtendTx?)
    requires s in Commit(db, tx).devices
    ensures s in db.devices && Commit(db, tx).devices[s] == db.devices[s]
  {
  }

  // A step of another object, or of none.
  lemma OtherStepShows(st: State, step: Step, i: nat)
    requires CanStep(st, step) && Inv(st) && i < |st.instances| && !OfInstance(step, i) && Shows(st, i)
    requires Alone(st, i) && Alone(Next(st, step), i)
    ensures Shows(Next(st, step), i)
  {
    if step.Administer? || step.Reserve? || step.End? {
      ControlShows(st, step, i);
    } else {
      var next, s := Next(st, step), st.instances[i].serial;
      StepOfOther(st, step, i);
      if s in next.db.devices && next.instances[i].o != GONE {
        RowOfOther(st, step, i);
      }
    }
  }

  lemma RowOfOther(st: State, step: Step, i: nat)
    requires CanStep(st, step) && i < |st.instances| && !OfInstance(step, i)
    requires !step.Administer? && !step.Reserve? && !step.End?
    requires Alone(st, i) && Alone(Next(st, step), i)
    requires st.instances[i].serial in Next(st, step).db.devices
    ensures st.instances[i].serial in st.db.devices
    ensures Next(st, step).db.devices[st.instances[i].serial] == st.db.devices[st.instances[i].serial]
  {
    var s := st.instances[i].serial;
    if step.CreateDevice? {
      assert Next(st, step).instances[|st.instances|] == Instance(step.s, step.worker, FRESH);
    } else if step.WriteFlashing? || step.TimerSwitches? || step.DeviceAdded? {
      assert st.instances[step.i].serial != s;
    }
  }

  ghost predicate Quiet(states: seq<State>, steps: seq<Step>, i: nat, k: nat)
    requires k <= |steps| < |states|
  {
    && (forall j {:trigger steps[j]} :: 0 <= j < k ==> Lossless(steps[j]))
    && (forall j :: 0 <= j <= k ==> Alone(states[j], i))
  }

  // Over every run in which no status write is lost, no /reserve is accepted while a timer is armed, and no other
  // object of the device is left, the row shows the current state of its object.
  lemma {:induction false} RowShowsState(states: seq<State>, steps: seq<Step>, i: nat, k: nat)
    requires Run(states, steps) && k <= |steps| && GentleUntil(states, steps, k) && Quiet(states, steps, i, k)
    ensures Shows(states[k], i)
  {
    if k > 0 {
      RowShowsState(states, steps, i, k - 1);
      ShowsStep(states, steps, i, k - 1);
    }
  }

  lemma ShowsStep(states: seq<State>, steps: seq<Step>, i: nat, k: nat)
    requires Run(states, steps) && k < |steps| && GentleUntil(states, steps, k + 1) && Quiet(states, steps, i, k + 1)
    requires Shows(states[k], i)
    ensures Shows(states[k + 1], i)
  {
    AttentiveInvariant(states, steps, k);
    TokenInvariant(states, steps, k);
    assert StepTo(states[k], steps[k], states[k + 1]) && Lossless(steps[k]);
    assert Alone(states[k], i) && Alone(states[k + 1], i);
    if i < |states[k].instances| {
      if OfInstance(steps[k], i) {
        OwnStepShows(states[k], steps[k], i);
      } else {
        OtherStepShows(states[k], steps[k], i);
      }
    } else if i < |states[k + 1].instances| {
      if !OfInstance(steps[k], i) {
        StepOfOther(states[k], steps[k], i);
      }
    }
  }

  // ----- runs that go wrong -----

  ghost predicate Reachable(st: State) {
    exists states: seq<State>, steps :: Run(states, steps) && states[|steps|] == st
  }

  lemma Take(st: State, step: Step) returns (next: State)
    requires Reachable(st) && CanStep(st, step) && CleanCreation(st, step)
    ensures Reachable(next) && next == Next(st, step)
  {
    next := Next(st, step);
    var states, steps :| Run(states, steps) && states[|steps|] == st;
    PathExtends(states, steps, step, next);
    assert Run(states + [next], steps + [step]);
  }

  lemma ReachableInv(st: State)
    requires Reachable(st)
    ensures Inv(st)
  {
    var states, steps :| Run(states, steps) && states[|steps|] == st;
    TokenInvariant(states, steps, |steps|);
  }

  const UPLOADED_FILE := DevFile(true, false, true, true, false)
  const DEFAULT_FILE := DevFile(true, true, false, false, true)
  const FLASHING := Object([DEFAULT_CYCLE], {}, {}, {0}, {}, 0, 0, [])
  const TESTING := Object([DEFAULT_CYCLE, TestF], {0}, {}, {1}, {}, 0, 0, [Cause(0, 0)])
  const READY := Object([DEFAULT_CYCLE, TestF, ReadyF], {0, 1}, {1}, {}, {}, 0, 0, [Cause(0, 0), Cause(1, 1)])
  const REFLASHING := READY.(kinds := READY.kinds + [DEFAULT_CYCLE], timers := {3})
  const LATE := Object([DEFAULT_CYCLE, TestF, ReadyF, DEFAULT_CYCLE, PulseFlasherF, PULSE_FLASH],
                       {0, 1, 4}, {1}, {3}, {}, 0, 0, [Cause(0, 0), Cause(1, 1), Cause(4, 4)])

  // The only device object is of the device "d" on the worker "w".
  predicate Has(st: State, o: Object) {
    st.instances == [Instance("d", "w", o)]
  }

  lemma BootedObject()
    ensures Construct(FRESH.(aboutWrite := 0), DEFAULT_CYCLE) == FLASHING
    ensures AddEvent(FLASHING, UPLOADED_FILE) == TESTING
    ensures AddEvent(TESTING, DEFAULT_FILE) == READY
  {
    assert {0} - {0} == {} && {1} - {1} == {} && {0} + {1} == {0, 1};
  }

  lemma InterruptedObject()
    ensures Construct(READY, DEFAULT_CYCLE) == REFLASHING
    ensures Accept(REFLASHING) == LATE
    ensures TimerSwitch(FireTimer(LATE, 3), 3).causes == LATE.causes + [Cause(3, 5)]
  {
    assert {0, 1} + {4} == {0, 1, 4};
  }

  lemma Booting() returns (st: State)
    ensures Reachable(st) && Has(st, FRESH)
    ensures InDb(st.db, "d") && "d" !in st.db.reservations && st.db.devices["d"].worker == "w"
  {
    var none: seq<Step> := [];
    assert Run([INITIAL], none) && [INITIAL][|none|] == INITIAL;
    st := Take(INITIAL, Administer(AddWorkerTx("w", WorkerRow("h", 1, 0))));
    st := Take(st, CreateDevice("d", "w", true));
  }

  lemma Reflashed(st: State, o: Object, after: Object) returns (next: State)
    requires Reachable(st) && Has(st, o) && o.aboutWrite == 1 && o.aboutSwitch == 0
    requires after == Construct(o.(aboutWrite := 0), DEFAULT_CYCLE)
    ensures Reachable(next) && Has(next, after) && next.db == st.db && next.reserves == st.reserves
  {
    next := Take(st, WriteFlashing(0, false));
    assert Has(next, o.(aboutWrite := 0, aboutSwitch := 1));
    next := Take(next, SwitchToFlash(0));
  }

  lemma DeviceBecomesAvailable() returns (st: State)
    ensures Reachable(st) && Has(st, READY)
    ensures "d" in Free(st.db) && "d" !in st.db.reservations && st.db.devices["d"].worker == "w"
  {
    st := Booting();
    st := Reflashed(st, FRESH, FLASHING) by { BootedObject(); }
    st := Uploaded(st);
    st := Tested(st);
  }

  lemma Uploaded(st: State) returns (next: State)
    requires Reachable(st) && Has(st, FLASHING)
    ensures Reachable(next) && Has(next, TESTING) && next.db == st.db
  {
    BootedObject();
    next := Take(st, DeviceAdded(0, UPLOADED_FILE, false));
  }

  lemma Tested(st: State) returns (next: State)
    requires Reachable(st) && Has(st, TESTING)
    requires InDb(st.db, "d") && "d" !in st.db.reservations && st.db.devices["d"].worker == "w"
    ensures Reachable(next) && Has(next, READY)
    ensures "d" in Free(next.db) && "d" !in next.db.reservations && next.db.devices["d"].worker == "w"
  {
    BootedObject();
    next := Take(st, DeviceAdded(0, DEFAULT_FILE, true));
  }

  // A /reserve that arrives after its reservation ended interrupts the reflash, and the timer of the interrupted flash
  // state later breaks the device.
  lemma LateReserveCausesStaleSwitch() returns (st: State)
    ensures Reachable(st) && |st.instances| == 1
    ensures exists k :: 0 <= k < |st.instances[0].o.causes| &&
                        st.instances[0].o.causes[k].actor != st.instances[0].o.causes[k].current
  {
    st := DeviceBecomesAvailable();
    st := LateReserve(st);
    InterruptedObject();
    st := Take(st, TimerFires(0, 3));
    st := Take(st, TimerSwitches(0, 3, false));
    assert st.instances[0].o.causes[3] == Cause(3, 5);
  }

  lemma Granted(st: State) returns (next: State)
    requires Reachable(st) && Has(st, READY)
    requires "d" in Free(st.db) && "d" !in st.db.reservations && st.db.devices["d"].worker == "w"
    ensures Reachable(next) && Has(next, READY) && Request("d", "w") in next.reserves
    ensures "d" in next.db.devices && "d" in next.db.reservations && next.db.devices["d"].worker == "w"
  {
    next := Take(st, Reserve({"d"}, "c", 0, multiset{Request("d", "w")}));
  }

  lemma Ended(st: State) returns (next: State)
    requires Reachable(st) && "d" in st.db.devices && "d" in st.db.reservations && st.db.devices["d"].worker == "w"
    ensures Reachable(next) && next.instances == st.instances && next.reserves == st.reserves
    ensures "w" in Unreserves(next, "d")
  {
    next := Take(st, End({"d"}, {"d"}));
  }

  lemma LateReserve(st: State) returns (next: State)
    requires Reachable(st) && Has(st, READY)
    requires "d" in Free(st.db) && "d" !in st.db.reservations && st.db.devices["d"].worker == "w"
    ensures Reachable(next) && Has(next, LATE)
  {
    next := Granted(st);
    next := Ended(next);
    next := Take(next, DeliverUnreserve(0));
    var o := READY.(aboutWrite := 1);
    assert o.(aboutWrite := 0) == READY;
    next := Reflashed(next, o, REFLASHING) by { InterruptedObject(); }
    InterruptedObject();
    next := Take(next, DeliverReserve(0, true));
  }

  // A board that is plugged into another worker while its row is available: the new worker is about to reflash it
  // although it has just been reserved.
  lemma MovedDeviceBreaksInvariant() returns (st: State, moved: State, reserved: State)
    ensures Reachable(st) && CanStep(st, CreateDevice("d", "w2", false))
    ensures moved == Next(st, CreateDevice("d", "w2", false)) && Token(moved, "d") == 2
    ensures CanStep(moved, Reserve({"d"}, "c", 0, multiset{}))
    ensures reserved == Next(moved, Reserve({"d"}, "c", 0, multiset{}))
    ensures "d" in reserved.db.reservations
    ensures |reserved.instances| == 2 && reserved.instances[1] == Instance("d", "w2", FRESH)
  {
    st := DeviceBecomesAvailable();
    ReachableInv(st);
    moved, reserved := Moved(st);
  }

  lemma Moved(st: State) returns (moved: State, reserved: State)
    requires Inv(st) && "d" in Free(st.db) && "d" !in st.db.reservations && |st.instances| == 1
    ensures moved == Next(st, CreateDevice("d", "w2", false)) && Token(moved, "d") == 2
    ensures CanStep(moved, Reserve({"d"}, "c", 0, multiset{}))
    ensures reserved == Next(moved, Reserve({"d"}, "c", 0, multiset{}))
    ensures "d" in reserved.db.reservations
    ensures |reserved.instances| == 2 && reserved.instances[1] == Instance("d", "w2", FRESH)
  {
    assert Token(st, "d") <= 1;
    StepToken(st, CreateDevice("d", "w2", false), "d");
    moved := Next(st, CreateDevice("d", "w2", false));
    reserved := Next(moved, Reserve({"d"}, "c", 0, multiset{}));
  }
}
