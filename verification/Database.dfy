/** The control database: three tables with their keys and cascades, and the stored procedures.

    A committed transaction is a value of `Tx`. `Commit` is its effect on the tables, `Enabled` is the
    condition under which it does not raise. The class `ControlDatabase` holds the tables as fields that the
    procedures update; each procedure is proved against one `Tx`, so that what is proved about `Commit` over
    all sequences of transactions holds of the procedures. */
module Database {
  datatype DeviceState = Available | Reserved | AwaitFlashDefault | FlashingDefault | Testing | Broken

  datatype WorkerRow = WorkerRow(host: string, port: int, lastHeartbeat: int)
  datatype DeviceRow = DeviceRow(worker: string, status: DeviceState)
  datatype ReservationRow = ReservationRow(client: string, until: int)

  // Primary keys are the keys of the maps.
  datatype Tables = Tables(
    workers: map<string, WorkerRow>,
    devices: map<string, DeviceRow>,
    reservations: map<string, ReservationRow>)

  datatype Address = Address(host: string, port: int)
  datatype Result<T> = Ok(value: T) | Raised

  const HOUR := 3600

  // The foreign keys, and the rule that no row declares: a device marked reserved has a reservation.
  ghost predicate ReferencesValid(t: Tables) {
    && (forall s :: s in t.devices ==> t.devices[s].worker in t.workers)
    && t.reservations.Keys <= t.devices.Keys
  }

  ghost predicate Consistent(t: Tables) {
    && ReferencesValid(t)
    && (forall s :: s in t.devices && t.devices[s].status == Reserved ==> s in t.reservations)
  }

  // The devices makeReservations may select.
  function Free(t: Tables): set<string> {
    set s | s in t.devices && t.devices[s].status == Available && t.devices[s].worker in t.workers
  }

  function OwnedBy(t: Tables, client: string): set<string> {
    set s | s in t.reservations && t.reservations[s].client == client
  }

  function WithStatus(devices: map<string, DeviceRow>, serials: set<string>, status: DeviceState)
    : map<string, DeviceRow>
  {
    map s | s in devices :: if s in serials then devices[s].(status := status) else devices[s]
  }

  // The inner join of a set of serials with Device and Worker.
  function Located(t: Tables, serials: set<string>): map<string, Address> {
    map s | s in serials && s in t.devices && t.devices[s].worker in t.workers ::
      Address(t.workers[t.devices[s].worker].host, t.workers[t.devices[s].worker].port)
  }

  datatype Tx =
    | AddWorkerTx(name: string, row: WorkerRow)
    | DeleteWorkersTx(names: set<string>)
    | HeartbeatTx(name: string, now: int)
    | AddDeviceTx(serial: string, worker: string)
    | StatusTx(serial: string, status: DeviceState)
    | ReserveTx(serials: set<string>, client: string, until: int)
    | ExtendTx(serials: set<string>, until: int)
    | EndTx(serials: set<string>)

  predicate Enabled(t: Tables, tx: Tx) {
    match tx
    case AddWorkerTx(name, _) => name !in t.workers
    case DeleteWorkersTx(names) => names <= t.workers.Keys
    case HeartbeatTx(name, _) => name in t.workers
    case AddDeviceTx(serial, worker) => worker in t.workers && serial !in t.devices
    case StatusTx(serial, _) => serial in t.devices
    case ReserveTx(serials, _, _) => serials <= Free(t) && serials !! t.reservations.Keys
    case ExtendTx(serials, _) => serials <= t.reservations.Keys
    case EndTx(serials) => serials <= t.reservations.Keys
  }

  function Commit(t: Tables, tx: Tx): Tables
    requires Enabled(t, tx)
  {
    match tx
    case AddWorkerTx(name, row) => t.(workers := t.workers[name := row])
    case DeleteWorkersTx(names) => DeleteWorkers(t, names)
    case HeartbeatTx(name, now) => t.(workers := t.workers[name := t.workers[name].(lastHeartbeat := now)])
    case AddDeviceTx(serial, worker) => t.(devices := t.devices[serial := DeviceRow(worker, AwaitFlashDefault)])
    case StatusTx(serial, status) => t.(devices := t.devices[serial := t.devices[serial].(status := status)])
    case ReserveTx(serials, client, until) =>
      t.(devices := WithStatus(t.devices, serials, Reserved),
         reservations := map s | s in t.reservations.Keys + serials ::
                           if s in serials then ReservationRow(client, until) else t.reservations[s])
    case ExtendTx(serials, until) =>
      t.(reservations := map s | s in t.reservations ::
                           if s in serials then t.reservations[s].(until := until) else t.reservations[s])
    case EndTx(serials) =>
      t.(devices := WithStatus(t.devices, serials, AwaitFlashDefault),
         reservations := t.reservations - serials)
  }

  // DELETE FROM Worker, with ON DELETE CASCADE on Device(Worker) and Reservations(Device).
  function DeleteWorkers(t: Tables, names: set<string>): Tables {
    var gone := set s | s in t.devices && t.devices[s].worker in names;
    Tables(t.workers - names, t.devices - gone, t.reservations - gone)
  }

  // What handleWorkerTimeouts reports: the reservations on the devices of the given workers.
  function LostReservations(t: Tables, names: set<string>): map<string, (string, string)> {
    map s | s in t.reservations && s in t.devices && t.devices[s].worker in names ::
      (t.reservations[s].client, t.devices[s].worker)
  }

  // The workers without a heartbeat since then.
  function Late(workers: map<string, WorkerRow>, since: int): set<string> {
    set w | w in workers && workers[w].lastHeartbeat < since
  }

  // Exactly the reservations that the cascade removes are reported.
  lemma LostReservationsExact(t: Tables, names: set<string>)
    requires ReferencesValid(t)
    ensures LostReservations(t, names).Keys == t.reservations.Keys - DeleteWorkers(t, names).reservations.Keys
  {
  }

  // ----- what every transaction keeps -----

  lemma CommitKeepsConsistent(t: Tables, tx: Tx)
    requires Enabled(t, tx) && Consistent(t)
    ensures ReferencesValid(Commit(t, tx))
    ensures Consistent(Commit(t, tx)) <==>
            (tx.StatusTx? && tx.status == Reserved ==> tx.serial in t.reservations)
  {
  }

  // No transaction moves a reservation from one client to another: it has to end in between.
  lemma CommitKeepsOwner(t: Tables, tx: Tx, s: string)
    requires Enabled(t, tx) && s in t.reservations && s in Commit(t, tx).reservations
    ensures Commit(t, tx).reservations[s].client == t.reservations[s].client
  {
  }

  // A grant changes exactly the granted devices, and gives exactly them a row.
  lemma ReserveIsExact(t: Tables, serials: set<string>, client: string, until: int)
    requires Enabled(t, ReserveTx(serials, client, until))
    ensures var u := Commit(t, ReserveTx(serials, client, until));
            && u.reservations.Keys - t.reservations.Keys == serials
            && t.reservations.Keys <= u.reservations.Keys && u.devices.Keys == t.devices.Keys
            && (forall s :: s in t.devices ==> (u.devices[s] != t.devices[s] <==> s in serials))
            && (forall s :: s in t.reservations ==> u.reservations[s] == t.reservations[s])
  {
  }

  // ----- what every transaction does, in the tables -----

  // A grant: status, client and end of the granted devices, and nothing of the others.
  lemma GrantedRows(t: Tables, serials: set<string>, client: string, until: int, s: string)
    requires Enabled(t, ReserveTx(serials, client, until))
    ensures var u := Commit(t, ReserveTx(serials, client, until));
            && u.workers == t.workers && u.devices.Keys == t.devices.Keys
            && (s in serials ==>
                  && s in t.devices && u.devices[s] == DeviceRow(t.devices[s].worker, Reserved)
                  && s in u.reservations && u.reservations[s] == ReservationRow(client, until))
            && (s !in serials && s in t.devices ==> u.devices[s] == t.devices[s])
            && (s !in serials ==> (s in u.reservations <==> s in t.reservations))
            && (s !in serials && s in t.reservations ==> u.reservations[s] == t.reservations[s])
  {
  }

  // An end: the rows are gone and their devices wait for the default flash.
  lemma EndedRows(t: Tables, serials: set<string>, s: string)
    requires Enabled(t, EndTx(serials))
    ensures var u := Commit(t, EndTx(serials));
            && u.workers == t.workers && u.devices.Keys == t.devices.Keys
            && (s in u.reservations <==> s in t.reservations && s !in serials)
            && (s in u.reservations ==> u.reservations[s] == t.reservations[s])
            && (s in t.devices ==>
                  u.devices[s] ==
                  if s in serials then DeviceRow(t.devices[s].worker, AwaitFlashDefault) else t.devices[s])
  {
  }

  // The deletion of the workers without a heartbeat for so many seconds, with what hangs on them.
  lemma LateRows(t: Tables, seconds: int, now: int, w: string, s: string)
    requires ReferencesValid(t)
    ensures var late := Late(t.workers, now - seconds);
            var u := DeleteWorkers(t, late);
            && (w in u.workers <==> w in t.workers && now - t.workers[w].lastHeartbeat <= seconds)
            && (w in u.workers ==> u.workers[w] == t.workers[w])
            && (s in u.devices <==> s in t.devices && t.devices[s].worker in u.workers)
            && (s in u.devices ==> u.devices[s] == t.devices[s])
            && (s in u.reservations <==> s in t.reservations && s in u.devices)
            && (s in u.reservations ==> u.reservations[s] == t.reservations[s])
            && var lost := LostReservations(t, late);
               && (s in lost <==> s in t.reservations && s !in u.reservations)
               && (s in lost ==> lost[s] == (t.reservations[s].client, t.devices[s].worker))
  {
  }

  // Rows imply the status reserved, too: the two sides of the tables say the same.
  ghost predicate Matched(t: Tables) {
    Consistent(t) && forall s :: s in t.reservations ==> t.devices[s].status == Reserved
  }

  lemma CommitKeepsMatched(t: Tables, tx: Tx)
    requires Enabled(t, tx) && Matched(t) && !tx.StatusTx?
    ensures Matched(Commit(t, tx))
  {
    CommitKeepsConsistent(t, tx);
  }

  // Over every sequence of transactions without status writes of workers, a device has a reservation row if and only if
  // its status is reserved.
  lemma {:induction false} ReservedExactly(ts: seq<Tables>, txs: seq<Tx>, i: nat)
    requires Committed(ts, txs) && i < |ts| && Matched(ts[0])
    requires forall k :: 0 <= k < |txs| ==> !txs[k].StatusTx?
    ensures Matched(ts[i])
    ensures forall s :: s in ts[i].devices ==> (s in ts[i].reservations <==> ts[i].devices[s].status == Reserved)
  {
    if i > 0 {
      ReservedExactly(ts, txs, i - 1);
      CommitKeepsMatched(ts[i - 1], txs[i - 1]);
    }
  }

  ghost predicate Committed(ts: seq<Tables>, txs: seq<Tx>) {
    && |ts| == |txs| + 1
    && forall i {:trigger txs[i]} :: 0 <= i < |txs| ==> Enabled(ts[i], txs[i]) && ts[i + 1] == Commit(ts[i], txs[i])
  }

  // Nobody but makeReservations writes the status reserved.
  lemma {:induction false} ConsistentOverAllSequences(ts: seq<Tables>, txs: seq<Tx>, i: nat)
    requires Committed(ts, txs) && i < |ts|
    requires Consistent(ts[0])
    requires forall k :: 0 <= k < |txs| ==> !(txs[k].StatusTx? && txs[k].status == Reserved)
    ensures Consistent(ts[i])
  {
    if i > 0 {
      ConsistentOverAllSequences(ts, txs, i - 1);
      CommitKeepsConsistent(ts[i - 1], txs[i - 1]);
    }
  }

  // While a reservation lasts it stays with one client, over any sequence of transactions.
  lemma {:induction false} OwnerStableOverAllSequences(ts: seq<Tables>, txs: seq<Tx>, i: nat, j: nat, s: string)
    requires Committed(ts, txs) && i <= j < |ts|
    requires forall k :: i <= k <= j ==> s in ts[k].reservations
    ensures ts[j].reservations[s].client == ts[i].reservations[s].client
  {
    if i < j {
      OwnerStableOverAllSequences(ts, txs, i, j - 1, s);
      assert ts[j] == Commit(ts[j - 1], txs[j - 1]);
      CommitKeepsOwner(ts[j - 1], txs[j - 1], s);
    }
  }

  // Two grants of one device are separated by the end of the first: the devices granted to two clients are
  // disjoint while both reservations last.
  lemma GrantsAreSeparated(ts: seq<Tables>, txs: seq<Tx>, i: nat, j: nat, s: string) returns (k: nat)
    requires Committed(ts, txs) && i < j < |txs|
    requires txs[i].ReserveTx? && txs[j].ReserveTx? && s in txs[i].serials && s in txs[j].serials
    ensures i + 1 < k <= j && s !in ts[k].reservations && s in ts[i + 1].reservations
    ensures ts[i + 1].reservations[s].client == txs[i].client
  {
    k := j;
    assert ts[i + 1] == Commit(ts[i], txs[i]);
  }

  lemma SubsetIsAll(a: set<string>, b: set<string>)
    requires a <= b && |a| == |b|
    ensures a == b
  {
    assert |b - a| == |b| - |a|;
  }

  // LIMIT: any rows, as many as asked for if there are that many.
  method Limit(rows: set<string>, amount: nat) returns (chosen: set<string>)
    ensures chosen <= rows
    ensures |chosen| == (if amount < |rows| then amount else |rows|)
  {
    chosen := {};
    var rest := rows;
    while |chosen| < amount && rest != {}
      invariant rest <= rows && chosen <= rows && chosen !! rest
      invariant |chosen| <= amount && |chosen| + |rest| == |rows|
      decreases rest
    {
      var s :| s in rest;
      chosen := chosen + {s};
      rest := rest - {s};
    }
  }

  class ControlDatabase {
    var workers: map<string, WorkerRow>
    var devices: map<string, DeviceRow>
    var reservations: map<string, ReservationRow>

    function Now(): Tables
      reads this
    {
      Tables(workers, devices, reservations)
    }

    constructor ()
      ensures Now() == Tables(map[], map[], map[])
    {
      workers, devices, reservations := map[], map[], map[];
    }

    method AddWorker(name: string, host: string, port: int, now: int) returns (r: Result<()>)
      modifies this
      ensures r.Ok? <==> Enabled(old(Now()), AddWorkerTx(name, WorkerRow(host, port, now)))
      ensures r.Ok? ==> Now() == Commit(old(Now()), AddWorkerTx(name, WorkerRow(host, port, now)))
      ensures r.Ok? ==> workers == old(workers)[name := WorkerRow(host, port, now)] && name !in old(workers)
      ensures r.Raised? ==> Now() == old(Now())
    {
      if name in workers {
        return Raised;
      }
      workers := workers[name := WorkerRow(host, port, now)];
      return Ok(());
    }

    // The query selects a column NotificationUrl that neither joined table has, so it raises before the delete.
    method RemoveWorker(name: string) returns (r: Result<()>)
      ensures r == Raised
    {
      if name !in workers {
        return Raised;
      }
      return Raised;
    }

    method HeartbeatWorker(name: string, now: int) returns (r: Result<()>)
      modifies this
      ensures r.Ok? <==> Enabled(old(Now()), HeartbeatTx(name, now))
      ensures r.Ok? ==> Now() == Commit(old(Now()), HeartbeatTx(name, now))
      ensures r.Ok? ==>
                name in old(workers) && workers == old(workers)[name := old(workers)[name].(lastHeartbeat := now)]
      ensures r.Raised? ==> Now() == old(Now())
    {
      if name !in workers {
        return Raised;
      }
      workers := workers[name := workers[name].(lastHeartbeat := now)];
      return Ok(());
    }

    method HandleWorkerTimeouts(seconds: int, now: int) returns (lost: map<string, (string, string)>)
      modifies this
      ensures var late := Late(old(workers), now - seconds);
              && Enabled(old(Now()), DeleteWorkersTx(late))
              && Now() == Commit(old(Now()), DeleteWorkersTx(late))
              && lost == LostReservations(old(Now()), late)
      ensures forall w :: w in workers <==> w in old(workers) && now - old(workers)[w].lastHeartbeat <= seconds
      ensures forall w :: w in workers ==> workers[w] == old(workers)[w]
    {
      var t := now - seconds;
      var late := Late(workers, t);
      lost := LostReservations(Now(), late);
      var gone := set s | s in devices && devices[s].worker in late;
      workers := workers - late;
      devices := devices - gone;
      reservations := reservations - gone;
      assert Now() == DeleteWorkers(old(Now()), late);
    }

    method AddDevice(serial: string, worker: string) returns (r: Result<()>)
      modifies this
      ensures r.Ok? <==> Enabled(old(Now()), AddDeviceTx(serial, worker))
      ensures r.Ok? ==> Now() == Commit(old(Now()), AddDeviceTx(serial, worker))
      ensures r.Ok? ==>
                serial !in old(devices) && devices == old(devices)[serial := DeviceRow(worker, AwaitFlashDefault)]
      ensures r.Raised? ==> Now() == old(Now())
    {
      if worker !in workers {
        return Raised;
      }
      if serial in devices {
        return Raised;
      }
      devices := devices[serial := DeviceRow(worker, AwaitFlashDefault)];
      return Ok(());
    }

    method UpdateDeviceStatus(serial: string, status: DeviceState) returns (r: Result<()>)
      modifies this
      ensures r.Ok? <==> Enabled(old(Now()), StatusTx(serial, status))
      ensures r.Ok? ==> Now() == Commit(old(Now()), StatusTx(serial, status))
      ensures r.Ok? ==>
                && serial in old(devices)
                && devices == old(devices)[serial := DeviceRow(old(devices)[serial].worker, status)]
      ensures r.Raised? ==> Now() == old(Now())
    {
      if serial !in devices {
        return Raised;
      }
      devices := devices[serial := devices[serial].(status := status)];
      return Ok(());
    }

    // The SELECT ... LIMIT of makeReservations: the order of the rows is not specified.
    method SelectAvailable(amount: nat) returns (res: map<string, Address>)
      ensures var free := Free(Now());
              && res.Keys <= free
              && |res.Keys| == (if amount < |free| then amount else |free|)
              && res == Located(Now(), res.Keys)
      ensures forall s :: s in res.Keys ==>
                && s in devices && devices[s].status == Available && devices[s].worker in workers
                && res[s] == Address(workers[devices[s].worker].host, workers[devices[s].worker].port)
      ensures |res.Keys| < amount ==>
                forall s :: s in devices && devices[s].status == Available && devices[s].worker in workers ==>
                  s in res.Keys
    {
      var free := Free(Now());
      var chosen := Limit(free, amount);
      res := Located(Now(), chosen);
      assert res.Keys == chosen;
      if |chosen| < amount {
        SubsetIsAll(chosen, free);
      }
    }

    // The UPDATE and the INSERT of makeReservations.
    method Grant(serials: set<string>, client: string, until: int)
      requires Enabled(Now(), ReserveTx(serials, client, until))
      modifies this
      ensures Now() == Commit(old(Now()), ReserveTx(serials, client, until))
      ensures forall s :: s in serials ==>
                && s in devices && devices[s].status == Reserved
                && s in reservations && reservations[s] == ReservationRow(client, until)
      ensures workers == old(workers) && devices.Keys == old(devices).Keys
      ensures reservations.Keys == old(reservations).Keys + serials
      ensures forall s :: s in devices && s !in serials ==> devices[s] == old(devices)[s]
      ensures forall s :: s in old(reservations) && s !in serials ==> reservations[s] == old(reservations)[s]
    {
      devices := WithStatus(devices, serials, Reserved);
      reservations := map s | s in reservations.Keys + serials ::
        if s in serials then ReservationRow(client, until) else reservations[s];
    }

    method MakeReservations(amount: int, client: string, now: int) returns (r: Result<map<string, Address>>)
      modifies this
      // It raises only on a negative amount or on a primary key conflict, and then changes nothing.
      ensures r.Raised? ==> Now() == old(Now())
      ensures amount >= 0 && Free(old(Now())) !! old(reservations).Keys ==> r.Ok?
      ensures amount < 0 ==> r.Raised?
      // Otherwise as many devices as asked for and available, each with the address of its worker.
      ensures r.Ok? ==>
                var free := Free(old(Now()));
                && r.value.Keys <= free
                && |r.value.Keys| == (if amount < |free| then amount else |free|)
                && r.value == Located(old(Now()), r.value.Keys)
                && Enabled(old(Now()), ReserveTx(r.value.Keys, client, now + HOUR))
                && Now() == Commit(old(Now()), ReserveTx(r.value.Keys, client, now + HOUR))
      // They are reserved by the client for an hour, and every other row is as before.
      ensures r.Ok? ==>
                forall s :: s in r.value.Keys ==>
                  && s in devices && devices[s].status == Reserved
                  && s in reservations && reservations[s] == ReservationRow(client, now + 3600)
      ensures r.Ok? ==>
                && workers == old(workers) && devices.Keys == old(devices).Keys
                && reservations.Keys == old(reservations).Keys + r.value.Keys
                && (forall s :: s in devices && s !in r.value.Keys ==> devices[s] == old(devices)[s])
                && (forall s :: s in old(reservations) && s !in r.value.Keys ==>
                      reservations[s] == old(reservations)[s])
    {
      if amount < 0 {
        return Raised;
      }
      var res := SelectAvailable(amount);
      if exists s :: s in res.Keys && s in reservations {
        return Raised;
      }
      Grant(res.Keys, client, now + HOUR);
      return Ok(res);
    }

    method ExtendReservations(client: string, serials: seq<string>, now: int) returns (extended: set<string>)
      modifies this
      ensures forall s :: s in extended <==>
                s in serials && s in old(reservations) && old(reservations)[s].client == client
      ensures Enabled(old(Now()), ExtendTx(extended, now + HOUR))
      ensures Now() == Commit(old(Now()), ExtendTx(extended, now + HOUR))
      ensures forall s :: s in old(reservations) && old(reservations)[s].client != client ==>
                s in reservations && reservations[s] == old(reservations)[s]
      ensures reservations.Keys == old(reservations).Keys && devices == old(devices) && workers == old(workers)
      ensures forall s :: s in reservations ==>
                && reservations[s].client == old(reservations)[s].client
                && reservations[s].until == if s in extended then now + 3600 else old(reservations)[s].until
    {
      extended := set s | s in serials && s in reservations && reservations[s].client == client;
      reservations := map s | s in reservations ::
        if s in extended then reservations[s].(until := now + HOUR) else reservations[s];
    }

    method ExtendAllReservations(client: string, now: int) returns (extended: set<string>)
      modifies this
      ensures forall s :: s in extended <==> s in old(reservations) && old(reservations)[s].client == client
      ensures Enabled(old(Now()), ExtendTx(extended, now + HOUR))
      ensures Now() == Commit(old(Now()), ExtendTx(extended, now + HOUR))
      ensures forall s :: s in old(reservations) && old(reservations)[s].client != client ==>
                s in reservations && reservations[s] == old(reservations)[s]
      ensures reservations.Keys == old(reservations).Keys && devices == old(devices) && workers == old(workers)
      ensures forall s :: s in reservations ==>
                && reservations[s].client == old(reservations)[s].client
                && reservations[s].until == if s in extended then now + 3600 else old(reservations)[s].until
    {
      extended := set s | s in reservations && reservations[s].client == client;
      reservations := map s | s in reservations ::
        if s in extended then reservations[s].(until := now + HOUR) else reservations[s];
    }

    method EndReservations(client: string, serials: seq<string>) returns (ended: map<string, Address>)
      modifies this
      ensures forall s :: s in reservations <==>
                s in old(reservations) && !(s in serials && old(reservations)[s].client == client)
      ensures var mine := set s | s in serials && s in OwnedBy(old(Now()), client);
              && Enabled(old(Now()), EndTx(mine))
              && Now() == Commit(old(Now()), EndTx(mine))
              // Every ended reservation is notified to the worker of its device, and no other.
              && (ReferencesValid(old(Now())) ==> ended.Keys == mine)
              && ended == Located(old(Now()), ended.Keys)
      // Other clients keep their rows and the status of their devices.
      ensures forall s :: s in old(reservations) && old(reservations)[s].client != client ==>
                && s in reservations && reservations[s] == old(reservations)[s]
                && (s in old(devices) ==> devices[s] == old(devices)[s])
      ensures forall s :: s in ended.Keys ==>
                && s in old(reservations) && s !in reservations
                && s in devices && devices[s].status == AwaitFlashDefault
                && devices[s].worker in workers
                && ended[s] == Address(workers[devices[s].worker].host, workers[devices[s].worker].port)
    {
      var res := set s | s in serials && s in reservations && reservations[s].client == client;
      ended := map s | s in res && s in devices && devices[s].worker in workers ::
        Address(workers[devices[s].worker].host, workers[devices[s].worker].port);
      reservations := reservations - res;
      devices := WithStatus(devices, res, AwaitFlashDefault);
      ghost var mine := set s | s in serials && s in OwnedBy(old(Now()), client);
      assert res == mine;
    }

    method EndAllReservations(client: string) returns (ended: map<string, Address>)
      modifies this
      ensures forall s :: s in reservations <==> s in old(reservations) && old(reservations)[s].client != client
      ensures var mine := OwnedBy(old(Now()), client);
              && Enabled(old(Now()), EndTx(mine))
              && Now() == Commit(old(Now()), EndTx(mine))
              && (ReferencesValid(old(Now())) ==> ended.Keys == mine)
              && ended == Located(old(Now()), ended.Keys)
      ensures forall s :: s in old(reservations) && old(reservations)[s].client != client ==>
                && s in reservations && reservations[s] == old(reservations)[s]
                && (s in old(devices) ==> devices[s] == old(devices)[s])
      ensures forall s :: s in ended.Keys ==>
                && s in old(reservations) && s !in reservations
                && s in devices && devices[s].status == AwaitFlashDefault
                && devices[s].worker in workers
                && ended[s] == Address(workers[devices[s].worker].host, workers[devices[s].worker].port)
    {
      var res := set s | s in reservations && reservations[s].client == client;
      ended := map s | s in res && s in devices && devices[s].worker in workers ::
        Address(workers[devices[s].worker].host, workers[devices[s].worker].port);
      reservations := reservations - res;
      devices := WithStatus(devices, res, AwaitFlashDefault);
      assert res == OwnedBy(old(Now()), client);
    }
  }
}
