# Verification of the iCE FPGA resource manager

A Dafny model of the parts of the resource manager whose correctness depends on several programs agreeing with each
other, with proofs about every run of them.

| file | models |
|---|---|
| `Database.dfy` | the tables of the control server with their keys and cascades, and the stored procedures |
| `Lifecycle.dfy` | reservations across database, control, network and workers, as a machine whose steps interleave |
| `DeviceObject.dfy` | a Device object as the rest of the system sees it, and that it is what `DeviceSwitch.dfy` builds |
| `DeviceSwitch.dfy` | the re-entrant switching of a device between its states |
| `LockOrder.dfy` | the locks of the worker, for any number of threads |
| `Firmware.dfy` | the pulse count firmware: its state machine, receive buffer and watchdog |
| `PulseHost.dfy` | the worker's evaluation thread and serial reader |
| `BitstreamProtocol.dfy` | worker and board together, joined by a byte channel and a message channel |
| `Session.dfy` | the event queue of a client and its overlapping flushes |
| `Dispatch.dfy` | event dispatch over the classes of a client's event handler |
| `Divider.dfy` | the clock divider that is generated for a requested rate |
| `TimeoutLimiter.dfy` | the timeout limiter of the usbip client |
| `Wrappers.dfy` | the option type |

`dafny verify dfyconfig.toml` verifies everything.

Code that updates fields is a class whose methods are proved against a function of the old state. The same functions
are the steps of the state machines (`Next`, `Commit`, `Pass`), about whose runs the theorems are. The steps of a Device
object in the life cycle are functions of their own, because timers and commands interleave with them;
`DeviceObject.AddEventIsHandleAdd`, `ReflashIsSwitch` and `AcceptIsSwitch` prove that they build the states that the
methods of `DeviceSwitch.Device` build. A run is a sequence of states and the steps between them; time, the network,
udev, the serial line and failures are steps or step parameters that may take any value.

## Assumptions

- A stored procedure is one atomic transaction.
- An /unreserve is delivered at most once and only control sends it; a /reserve may be delayed, lost, overtaken and
  duplicated.
- A Device object is created when its device has no token (`Lifecycle.CleanCreation`; `Lifecycle.TokenInvariantExactly`
  shows that this is exactly what the invariant needs). Several objects of one device may exist.
- A request is delivered to a Device object of the worker it was sent to; the name of a worker stands for its address.
- When a worker ends, its Device objects, with their timers and pending writes, are gone.
- Deleting any set of workers with the cascade, and ending any set of reservations, are steps that may happen at any
  time. They cover worker timeouts, the manual clean-up the documentation recommends, `end`, `endAll`, and reservation
  timeouts as they are meant.
- An exception in a flush comes from the emit, and the message was then not delivered.
- The pulse count firmware's messages are read whole, any number at a time; bytes arrive in fragments of any size.
- No file that is longer than 104090 bytes can be taken (`BitstreamProtocol.QueueSafeExactly` shows that this is exactly
  what attribution needs).
- The polling thread of the timeout limiter holds at most one object of a device at a time, and asks it before it goes on.
- Float quotients of the clock and a rate are real quotients.
- The clock of the timeout limiter does not go back.

## Where code and intention differ

- `removeWorker` (V1.1__WorkerProc.sql) selects a column `NotificationUrl` that neither table has, so every call
  raises; `Database.ControlDatabase.RemoveWorker` follows the code.
- `handleReservationTimeouts` (V1.3__ReservationProc.sql) declares two result columns and selects four, so every call
  raises. The life cycle allows the intended effect as a step.
- "A state object's switch happens while it is current": every switch and every armed timer belongs to the current state
  throughout a run if and only if no /reserve is accepted while a timer is armed (`Lifecycle.AttentiveExactly`). That is
  so if no /reserve outlives its reservation (`Lifecycle.NoStaleSwitch`); `Lifecycle.LateReserveCausesStaleSwitch` gives
  a run with a stale switch.
- A board that is plugged into another worker while its row is available or reserved has two tokens
  (`Lifecycle.MovedDeviceBreaksInvariant`): addDevice raises, and the new worker goes on all the same.
- `__flashDefault` writes the status outside the device lock. If the upload of the pulse firmware fails between that write
  and the switch, the row shows broken while the default reflash runs (`Lifecycle.Shown`).
- A lost /unreserve strands the device (`Lifecycle.LostUnreserveStrandsDevice`); `Lifecycle.OfferedAgainExactly` tells
  exactly from which states a device can be offered again.
- A watchdog timeout is harmless outside a transfer, and when it gives up a file that is too short and has been taken
  completely. Any other timeout leaves bytes of the file behind, or flashes the file that the host has given up, and
  some later file is credited with the wrong count: `BitstreamProtocol.TimeoutSafeExactly`, with a run in
  `BitstreamProtocol.WatchdogBreaksAttribution`.
- A file longer than a bitstream is credited with the count of its first 104090 bytes, unless a file that is too short
  was queued after it and blocks the queue (`BitstreamProtocol.QueueSafeExactly`); a shorter one is never evaluated
  (`BitstreamProtocol.WholeQueueEvaluated`).
- Two timeouts of a device can be closer than the limit if the polling thread asks an object late that has been removed
  and made anew (`TimeoutLimiter.StaleAskExactly`, with a run in `TimeoutLimiter.StaleAskBreaksLimit`). Under CPython
  removing and re-adding the key during the iteration usually raises in the polling thread and ends it, which is not part
  of the model; the run needs a table that the insertion compacts, as with several other devices exported before.
- Events reach a client in the order of sending only if a flush does not overlap another one, or all messages are the
  same: `Session.OrderExactly`, with a run where a new socket's flush overlaps the sender's in `Session.OverlapReorders`.
- The generated divider divides by `incr + 1`, so the reported rate, based on `clk / incr`, is always too high
  (`Divider.TrueRate`). For rates above half the clock `incr` is zero (`Divider.Increment`) and the report divides by it.

## Model

| member | source | states |
|---|---|---|
| `Database.CommitKeepsConsistent` | src/usbipice/control/flyway/migrations/V1__Tables.sql:12-22 | Every transaction keeps the foreign keys valid; it keeps "status reserved implies a reservation row" if and only if it is not a status update to reserved of a device without a row |
| `Database.CommitKeepsOwner` | src/usbipice/control/flyway/migrations/V1.3__ReservationProc.sql:28-30 | No transaction changes the client of an existing reservation row |
| `Database.ReserveIsExact` | src/usbipice/control/flyway/migrations/V1.3__ReservationProc.sql:24-30 | A grant changes exactly the granted devices and gives exactly them a row; all other rows and devices stay |
| `Database.GrantedRows` | src/usbipice/control/flyway/migrations/V1.3__ReservationProc.sql:24-30 | Every granted device gets the status reserved and a row of the client with the end asked for; no other device or row changes |
| `Database.EndedRows` | src/usbipice/control/flyway/migrations/V1.3__ReservationProc.sql:98-103 | Exactly the ended rows are gone and their devices wait for the default flash; no other device or row changes |
| `Database.LateRows` | src/usbipice/control/flyway/migrations/V1.1__WorkerProc.sql:70-78 | A worker is deleted exactly when its last heartbeat is more than the given seconds ago; exactly its devices and their reservations go, and each of these is reported with its client and worker |
| `Database.ConsistentOverAllSequences` | src/usbipice/control/flyway/migrations/V1__Tables.sql:1-22 | Over every sequence of committed transactions that never writes the status reserved from outside, the foreign keys and "reserved implies a row" hold in every state |
| `Database.ReservedExactly` | src/usbipice/control/flyway/migrations/V1.3__ReservationProc.sql:24-30 | Over every sequence of transactions without status writes of workers a device has a reservation row if and only if its status is reserved |
| `Database.OwnerStableOverAllSequences` | src/usbipice/control/flyway/migrations/V1__Tables.sql:18-22 | Over every sequence of transactions a reservation that lasts stays with one client |
| `Database.GrantsAreSeparated` | src/usbipice/control/flyway/migrations/V1.3__ReservationProc.sql:17-30 | Two grants of one device are separated by a state in which the first reservation has ended, so grants to two clients are disjoint while both last |
| `Database.LostReservationsExact` | src/usbipice/control/flyway/migrations/V1.1__WorkerProc.sql:70-78 | What handleWorkerTimeouts reports is exactly the set of reservations its cascade removes |
| `Database.Limit` | src/usbipice/control/flyway/migrations/V1.3__ReservationProc.sql:22 | LIMIT: some rows of the table, as many as asked for if there are that many |
| `Database.ControlDatabase.AddWorker` | src/usbipice/control/flyway/migrations/V1.1__WorkerProc.sql:5-18 | Raises exactly when the worker exists; otherwise commits the insertion |
| `Database.ControlDatabase.RemoveWorker` | src/usbipice/control/flyway/migrations/V1.1__WorkerProc.sql:20-41 | Raises on every call and changes nothing, because the query selects a column that does not exist |
| `Database.ControlDatabase.HeartbeatWorker` | src/usbipice/control/flyway/migrations/V1.1__WorkerProc.sql:43-56 | Raises exactly when the worker does not exist; otherwise sets its heartbeat |
| `Database.ControlDatabase.HandleWorkerTimeouts` | src/usbipice/control/flyway/migrations/V1.1__WorkerProc.sql:58-80 | Deletes exactly the workers whose heartbeat is too old, with the cascade, and reports the reservations lost by it |
| `Database.ControlDatabase.AddDevice` | src/usbipice/control/flyway/migrations/V1.2__DeviceProc.sql:1-17 | Raises exactly when the worker is missing or the serial exists; otherwise inserts the device awaiting its default flash |
| `Database.ControlDatabase.UpdateDeviceStatus` | src/usbipice/control/flyway/migrations/V1.2__DeviceProc.sql:19-32 | Raises exactly when the serial does not exist; otherwise writes the status of that device only |
| `Database.ControlDatabase.SelectAvailable` | src/usbipice/control/flyway/migrations/V1.3__ReservationProc.sql:17-22 | Selects min(amount, number available) available devices, all of them if there are fewer than asked for, with the addresses of their workers |
| `Database.ControlDatabase.MakeReservations` | src/usbipice/control/flyway/migrations/V1.3__ReservationProc.sql:1-34 | Returns min(amount, number available) devices; these are reserved, with a row of the client for an hour, and every other row is as before; raises, changing nothing, only on a negative amount or a primary key conflict |
| `Database.ControlDatabase.Grant` | src/usbipice/control/flyway/migrations/V1.3__ReservationProc.sql:24-30 | The update and the insert: status reserved and a row for exactly the given devices |
| `Database.ControlDatabase.ExtendReservations` | src/usbipice/control/flyway/migrations/V1.3__ReservationProc.sql:36-51 | Sets the end of exactly the rows of the client among the serials to an hour from now, returns them, and leaves everything else unchanged |
| `Database.ControlDatabase.ExtendAllReservations` | src/usbipice/control/flyway/migrations/V1.3__ReservationProc.sql:53-67 | Sets the end of exactly the rows of the client to an hour from now, returns them, and leaves everything else unchanged |
| `Database.ControlDatabase.EndReservations` | src/usbipice/control/flyway/migrations/V1.3__ReservationProc.sql:69-105 | Ends exactly the rows of the client among the serials and returns each with the address of its worker; other clients keep their rows and device statuses |
| `Database.ControlDatabase.EndAllReservations` | src/usbipice/control/flyway/migrations/V1.3__ReservationProc.sql:107-140 | Ends exactly the rows of the client and returns each with the address of its worker; other clients keep their rows and device statuses |
| `Lifecycle.StepToken` | src/usbipice/worker/device/Device.py:44-77 | No step of database, control, network or workers adds a token to a device; creating a Device object adds exactly one, whatever is left of earlier ones |
| `Lifecycle.TokenInvariant` | src/usbipice/control/flyway/migrations/V1.3__ReservationProc.sql:17-30 | In every reachable state each device has at most one of: reservation row, status available, unreserve in flight, default reflash about to start or running in any Device object of any worker; the database is consistent and the state objects are in order |
| `Lifecycle.TidyInvariant` | src/usbipice/worker/device/Device.py:44-77 | In any run at all the database is consistent and the flags and timers of all Device objects are in order |
| `Lifecycle.CreationSafeExactly` | src/usbipice/worker/device/DeviceManager.py:75-81 | The exact condition for creating a Device object, on the same worker or another: the token invariant survives it if and only if the device has no token |
| `Lifecycle.TokenInvariantExactly` | src/usbipice/worker/device/DeviceManager.py:75-81 | In any run at all, with devices created at any time, the token invariant holds in every state if and only if every creation meets that condition |
| `Lifecycle.MovedDeviceBreaksInvariant` | src/usbipice/worker/device/DeviceManager.py:78-81 | A reachable state in which a board whose row is available appears on another worker: it then has two tokens, is reserved, and is about to be reflashed |
| `Lifecycle.ReservationNeverUndercut` | src/usbipice/worker/device/Device.py:44-46 | While a reservation row exists no unreserve is in flight, no Device object runs a default reflash or is about to, the device is not available, and the next step does not start a reflash |
| `Lifecycle.NoReservationConflict` | src/usbipice/control/flyway/migrations/V1.3__ReservationProc.sql:28-30 | In every reachable state no available device has a reservation row, so the grant never meets the primary key |
| `Lifecycle.LostTokenStaysLost` | src/usbipice/control/Control.py:25-43 | Over any part of any run that does not create the device anew, its number of tokens never grows |
| `Lifecycle.LostTokenStrandsDevice` | src/usbipice/control/Control.py:25-43 | Once a device has no token, as after a lost unreserve or a breakdown, it is neither reserved nor offered again until it is created anew |
| `Lifecycle.LostUnreserveStrandsDevice` | src/usbipice/control/Control.py:25-43 | In every run, from the loss of an unreserve on the device is neither reserved nor offered until it is created anew |
| `Lifecycle.OfferedAgainExactly` | src/usbipice/worker/device/state/core/AbstractState.py:83-94 | The exact condition for a device to be offered again in some continuation that does not create it anew: it has its row and a token; a reservation or an unreserve needs a started Device object on its worker; a running reflash has spent neither its once-only switch nor its one check |
| `Lifecycle.DeadCycle` | src/usbipice/worker/device/state/core/TestState.py:24-32 | A reflash state that has spent its switch or its check stays so until it is left without a token |
| `Lifecycle.OneSwitchPerState` | src/usbipice/worker/device/state/core/AbstractState.py:83-94 | In any run at all, stale timers and unclean creations included, a state object causes at most one switch |
| `Lifecycle.NoStaleSwitch` | src/usbipice/worker/device/state/core/AbstractState.py:83-94 | If every reserve is delivered or lost before its reservation ends, every switch on behalf of a state object happens while that object is current |
| `Lifecycle.AttentiveExactly` | src/usbipice/worker/device/Device.py:66-73 | The exact condition over whole runs: every armed timer and every switch made on behalf of a state object belong to the current state throughout if and only if no reserve is accepted while a timer is armed |
| `Lifecycle.FreshIsGentle` | src/usbipice/control/Control.py:57-76 | A reserve that is delivered before its reservation ends finds no armed timer |
| `Lifecycle.RowShowsState` | src/usbipice/worker/device/state/core/TestState.py:12-14 | Over every run in which no status write is lost, no reserve is accepted while a timer is armed, and no other object of the device is left, the row shows the current state: testing while testing, available or reserved or ended while ready, broken or ended while broken, flashing (or broken, after a late failure) while reflashing |
| `Lifecycle.EventWrites` | src/usbipice/worker/device/state/core/FlashState.py:47-61 | In file fields: a failed upload shows broken, a successful upload of the default firmware testing, a successful check available, and other files leave the row as it is |
| `Lifecycle.TimerAndFlashWrite` | src/usbipice/worker/device/state/core/BrokenState.py:3-6 | The switch of a timer shows broken and the start of the default flash shows flashing |
| `Lifecycle.LateReserveCausesStaleSwitch` | src/usbipice/control/Control.py:57-76 | A reachable state in which a reserve that outlived its reservation has led to a switch by a state that was no longer current |
| `DeviceObject.CommandSafeExactly` | src/usbipice/worker/device/Device.py:66-94 | The exact condition for a command: its switch leaves no timer that can switch out of turn if and only if the state it interrupts has no armed timer |
| `DeviceObject.AddEventOk` | src/usbipice/worker/device/state/core/FlashState.py:35-61 | Handling an add event keeps the bookkeeping of flags and timers, and keeps every armed timer with the current state |
| `DeviceObject.AddEventToken` | src/usbipice/worker/device/state/core/ReadyState.py:4-6 | An add event never enters the default reflash cycle from outside, and constructs the ready state only by leaving the cycle |
| `DeviceObject.ConstructOk` | src/usbipice/worker/device/Device.py:88-94 | A switch by a command keeps the bookkeeping of flags and timers |
| `DeviceObject.ConstructAttentive` | src/usbipice/worker/device/Device.py:88-94 | A switch by a command keeps armed timers with the current state if and only if it interrupts a state without an armed timer |
| `DeviceObject.AcceptAttentive` | src/usbipice/worker/device/Device.py:66-73 | So does an accepted reservation, with the switch of its flasher |
| `DeviceObject.FireTimerOk` | src/usbipice/worker/device/state/core/FlashState.py:14-22 | A firing timer keeps the bookkeeping and leaves no armed timer behind a newer state |
| `DeviceObject.TimerSwitchOk` | src/usbipice/worker/device/state/core/FlashState.py:14-22 | The switch of a timer keeps the bookkeeping and leaves no armed timer behind a newer state |
| `DeviceObject.AddEventIsHandleAdd` | src/usbipice/worker/device/state/core/FlashState.py:35-61 | The add event of the life cycle builds the states that the contract of DeviceSwitch.Device.HandleAdd names and leaves flag, check and timer as that contract says |
| `DeviceObject.ReflashIsSwitch` | src/usbipice/worker/device/Device.py:44-46 | Constructing the flash state and some add events build exactly the states of DeviceSwitch.Device.Switch for the default reflash, nested switches included |
| `DeviceObject.AcceptIsSwitch` | src/usbipice/worker/device/Device.py:66-73 | An accepted reservation and some add events build exactly the states of DeviceSwitch.Device.Switch for it |
| `DeviceObject.UnusableFiles` | src/usbipice/worker/device/state/core/FlashState.py:35-48 | Over any files that are unnamed, ttys or no partition a flash state keeps its history, its flag and its timer |
| `DeviceObject.UsableFile` | src/usbipice/worker/device/state/core/FlashState.py:50-61 | The first named partition that is no tty makes it switch and cancels its timer |
| `DeviceObject.ExpireIsTimerExpires` | src/usbipice/worker/device/state/core/FlashState.py:14-22 | A timer that expires breaks the device unless its state has switched |
| `Lifecycle.WriteToken` | src/usbipice/worker/WorkerDatabase.py:52-61 | A status write, delivered or lost, touches one device, leaves the reservations alone, and adds a token only when it writes available |
| `Lifecycle.CommitToken` | src/usbipice/control/flyway/migrations/V1.3__ReservationProc.sql:98-103 | No transaction other than a status write adds a token to a device; ending a reservation removes its token from the database |
| `DeviceSwitch.Reaction` | src/usbipice/worker/device/state/core/FlashState.py:35-61 | The switch an add event asks for goes to a factory of lower rank |
| `DeviceSwitch.FlashReacts` | src/usbipice/worker/device/state/core/FlashState.py:35-61 | A flash state acts exactly on a named partition that is no tty, and goes on to its successor exactly if the upload succeeds |
| `DeviceSwitch.TestReacts` | src/usbipice/worker/device/state/core/TestState.py:17-32 | A test state acts exactly on a named file on which the check succeeds |
| `DeviceSwitch.Chain` | src/usbipice/worker/device/Device.py:88-94 | The states built by one call of switch, nested switches included, start with the requested one; the recursion ends by rank |
| `DeviceSwitch.LogAlternates` | src/usbipice/worker/device/Device.py:88-94 | Constructions and exits strictly alternate: state i is constructed at position 2i of the log and exited at 2i+1 |
| `DeviceSwitch.ExitedExactlyOnce` | src/usbipice/worker/device/Device.py:88-94 | Every replaced state is exited exactly once and the current one never |
| `DeviceSwitch.DefaultCycleOutcome` | src/usbipice/worker/device/state/core/FlashState.py:24-61 | Left alone, the default reflash ends flashing, testing or broken, decided by the first named partition that is no tty |
| `DeviceSwitch.PulseReservationOutcome` | src/usbipice/worker/device/state/reservable/PulseCountState.py:31-35 | A pulse count reservation passes its flasher at once and ends flashing, counting or broken, decided by the first named partition that is no tty |
| `DeviceSwitch.StateObject.constructor` | src/usbipice/worker/device/state/core/AbstractState.py:40-52 | A new state object has not switched, and has a timer exactly when it is a timed flash or a test |
| `DeviceSwitch.Device.constructor` | src/usbipice/worker/device/Device.py:27-46 | A new device has run the default reflash and has an installed state that has not switched |
| `DeviceSwitch.Device.Switch` | src/usbipice/worker/device/Device.py:88-94 | Appends exactly the chain of states to the history, keeps the log well bracketed, and installs the innermost state |
| `DeviceSwitch.Device.Start` | src/usbipice/worker/device/state/core/AbstractState.py:54-57 | start() replaces the last state of the history by its full chain |
| `DeviceSwitch.Device.StartFlash` | src/usbipice/worker/device/state/core/FlashState.py:24-33 | The start loop performs the first switch its files ask for and no other |
| `DeviceSwitch.Device.SelfSwitch` | src/usbipice/worker/device/state/core/AbstractState.py:83-94 | The first call from a state object switches, later ones change nothing |
| `DeviceSwitch.Device.HandleAdd` | src/usbipice/worker/device/state/core/FlashState.py:35-61 | A flash state switches exactly on a named partition that is no tty, to its successor exactly if the upload succeeds; a test state that has its check switches exactly on a named file on which it succeeds; the timer is cancelled then, and nothing is switched if it has taken the right to |
| `DeviceSwitch.Device.HandleDeviceEvent` | src/usbipice/worker/device/Device.py:48-64 | Only add events on an installed state have an effect, and it is that of the current state; nothing is switched if its timer has taken the right to switch |
| `DeviceSwitch.Device.HandleUnreserve` | src/usbipice/worker/device/Device.py:75-77 | Appends the chain of the default reflash |
| `DeviceSwitch.Device.HandleReserve` | src/usbipice/worker/device/Device.py:66-73 | Appends the chain of the reservation state for the known kind, and otherwise refuses without effect |
| `DeviceSwitch.Device.TimerExpires` | src/usbipice/worker/device/state/core/FlashState.py:15-22 | The timer of any state object breaks the device unless that object has switched already |
| `LockOrder.ProgramBracket` | src/usbipice/worker/device/DeviceManager.py:75-84 | Every thread of the worker, with test events that are ignored, acquires its locks in increasing rank or re-entrantly, never re-enters a plain lock, and ends holding none |
| `LockOrder.SwitchOpsBracket` | src/usbipice/worker/device/Device.py:88-94 | A call of switch, with all nested switches, keeps the lock order from any position in which it may be called |
| `LockOrder.AskOpsBracket` | src/usbipice/worker/device/state/core/AbstractState.py:88-94 | A switch by a state releases the switching lock before it takes the device lock, and keeps the lock order |
| `LockOrder.TestEventBracket` | src/usbipice/worker/device/state/core/TestState.py:24-32 | The test state switches under its own lock without leaving the lock order |
| `LockOrder.ExecutionInvariant` | src/usbipice/worker/device/Device.py:48-64 | In every reachable state of any number of threads no lock is held by two of them |
| `LockOrder.WaitsForAcyclic` | src/usbipice/worker/device/Device.py:48-64 | In every reachable state of any number of threads the waits-for relation has no cycle |
| `LockOrder.SomeThreadCanRun` | src/usbipice/worker/device/Device.py:48-64 | In every reachable state with an unfinished thread some thread can take its next step |
| `LockOrder.NoRace` | src/usbipice/worker/device/Device.py:48-64 | In every reachable state a thread that uses the device table, an installed state, a switching flag or a test check holds its lock, and no two threads use the same one at once |
| `Firmware.ReadStaysInBuffer` | src/usbipice/worker/firmware/pulse_count/main.cpp:302-312 | The read never leaves the buffer or the available bytes, and makes progress when there are bytes and room |
| `Firmware.Pass` | src/usbipice/worker/firmware/pulse_count/main.cpp:178-405 | Every pass of the state machine keeps the received count within the buffer |
| `Firmware.WaitPass` | src/usbipice/worker/firmware/pulse_count/main.cpp:229-253 | Waiting keeps the received count within the buffer |
| `Firmware.TransferPass` | src/usbipice/worker/firmware/pulse_count/main.cpp:254-325 | Receiving keeps the received count within the buffer, also when the watchdog fires in the same pass |
| `Firmware.PassEffect` | src/usbipice/worker/firmware/pulse_count/main.cpp:254-325 | Every pass keeps the received bytes or forgets them, and then appends what it reads; flashing starts only with a full buffer |
| `Firmware.FlashedContents` | src/usbipice/worker/firmware/pulse_count/main.cpp:254-348 | In every run, with any watchdog timeouts and disconnects, the FPGA is configured with exactly the last 104090 bytes taken from the serial line |
| `Firmware.DisconnectForgets` | src/usbipice/worker/firmware/pulse_count/main.cpp:270-277 | In every run no byte taken before a disconnect is flashed with later ones: a flash after it programs 104090 bytes that were all taken since, and a disconnect in a transfer ends it with nothing received |
| `Firmware.DisconnectPass` | src/usbipice/worker/firmware/pulse_count/main.cpp:248-252 | A disconnect while waiting or receiving is noticed in the same pass and leaves nothing of the bitstream |
| `Firmware.Reconnects` | src/usbipice/worker/firmware/pulse_count/main.cpp:199-227 | A board that is connected again comes back to an announced wait in three passes |
| `Firmware.RoundNeedsConnection` | src/usbipice/worker/firmware/pulse_count/main.cpp:157-169 | After a flash a new round begins only with a pass that finds the board connected and says so |
| `Firmware.CleanPass` | src/usbipice/worker/firmware/pulse_count/main.cpp:254-325 | Without watchdog and disconnect a pass only extends the pending bitstream, and flashes exactly a complete one |
| `Firmware.BlockAlignment` | src/usbipice/worker/firmware/pulse_count/main.cpp:157-405 | Without watchdog and disconnect, for all fragment sizes, the k-th configuration is the k-th block of 104090 bytes of the incoming stream |
| `Firmware.Program.constructor` | src/usbipice/worker/firmware/pulse_count/main.cpp:32-66 | The program starts in its initial state with nothing received |
| `Firmware.Program.Read` | src/usbipice/worker/firmware/pulse_count/main.cpp:310-311 | The bytes read are stored behind those received before, and nothing else in the buffer changes |
| `Firmware.Program.Fill` | src/usbipice/worker/firmware/pulse_count/main.cpp:302-312 | The pass reads as many bytes as its 32-bit comparison allows, into the free part of the buffer |
| `Firmware.Program.Transfer` | src/usbipice/worker/firmware/pulse_count/main.cpp:254-325 | The transfer case as executed on the fields and the array is the transfer pass of the state machine |
| `Firmware.Program.Iterate` | src/usbipice/worker/firmware/pulse_count/main.cpp:178-405 | One pass of the loops as executed on the fields and the array is the pass of the state machine |
| `PulseHost.StepKeepsPartitioned` | src/usbipice/worker/device/state/reservable/PulseCountState.py:69-138 | Every step keeps each queued name in exactly one of: pending, in hand, unreported results, reports |
| `PulseHost.NothingLostOrDuplicated` | src/usbipice/worker/device/state/reservable/PulseCountState.py:69-138 | With distinct names, through any number of watchdog retries, that partition holds in every state of every run |
| `PulseHost.OneReportPerBatch` | src/usbipice/worker/device/state/reservable/PulseCountState.py:126-138 | A non-empty batch queued on an idle device, with nothing queued later, is either still being evaluated or has produced exactly one results event with exactly its names; the thread does not come to rest before |
| `PulseHost.TakePulseHeld` | src/usbipice/worker/device/state/reservable/PulseCountState.py:121-131 | A result moves its name to the results and a timeout moves it back to the queue; a name is lost exactly when a result takes the place of an unreported one of the same name |
| `PulseHost.Reader.constructor` | src/usbipice/worker/device/state/reservable/PulseCountState.py:149-157 | The reader starts with ready set |
| `PulseHost.Reader.Read` | src/usbipice/worker/device/state/reservable/PulseCountState.py:159-182 | After one read, ready is set if the board said that it waits; the last pulse is a timeout if there was one, else the first count, else what it was |
| `PulseHost.Reader.Search` | src/usbipice/worker/device/state/reservable/PulseCountState.py:166-170 | Finds the first count in what was read, and none only if there is none |
| `PulseHost.Reader.WaitUntilReady` | src/usbipice/worker/device/state/reservable/PulseCountState.py:184-187 | Uses up the ready flag |
| `PulseHost.Reader.WaitUntilPulse` | src/usbipice/worker/device/state/reservable/PulseCountState.py:189-194 | Returns and uses up the last pulse |
| `PulseHost.PulseCountState.constructor` | src/usbipice/worker/device/state/reservable/PulseCountState.py:37-65 | The evaluation starts idle |
| `PulseHost.PulseCountState.QueueFiles` | src/usbipice/worker/device/state/reservable/PulseCountState.py:70-87 | Appends the files to the queue in order |
| `PulseHost.PulseCountState.PopNext` | src/usbipice/worker/device/state/reservable/PulseCountState.py:96-100 | Takes the bitstream queued last |
| `PulseHost.PulseCountState.Upload` | src/usbipice/worker/device/state/reservable/PulseCountState.py:111-117 | The chunks written are, put together, the file; all but the last have 512 bytes, and none is empty or longer |
| `PulseHost.PulseCountState.TakeResult` | src/usbipice/worker/device/state/reservable/PulseCountState.py:119-138 | A timeout puts the bitstream back at the end of the queue; a count is stored under its name, and all results are reported and cleared exactly when the queue is empty |
| `BitstreamProtocol.CompleteBitstream` | src/usbipice/worker/firmware/pulse_count/main.cpp:313-324 | When the buffer is full the host has sent its whole bitstream and the buffer holds exactly that |
| `BitstreamProtocol.StepKeepsInv` | src/usbipice/worker/device/state/reservable/PulseCountState.py:89-138 | Every step of either program without watchdog timeout keeps the joint invariant on bytes, counts, announcements and queue, as long as no file that is too long can be taken |
| `BitstreamProtocol.Invariant` | src/usbipice/worker/device/state/reservable/PulseCountState.py:89-194 | The joint invariant holds in every reachable state without watchdog timeouts, for any interleaving and fragmentation |
| `BitstreamProtocol.StepKeepsSound` | src/usbipice/worker/firmware/pulse_count/main.cpp:285-301 | Every step keeps the joint invariant or the one of a retry, if timeouts are benign: outside a transfer, or when all of a file that is too short has been taken |
| `BitstreamProtocol.RetryEnds` | src/usbipice/worker/device/state/reservable/PulseCountState.py:121-124 | When the host acts on a benign timeout, everything is as if the file had never been sent |
| `BitstreamProtocol.Attribution` | src/usbipice/worker/device/state/reservable/PulseCountState.py:119-127 | In every run with benign timeouts only, in which no file that is too long can be taken, the k-th stored result is the count of the k-th flash, which programmed exactly the bytes of the bitstream it is stored for, and the results table holds only such counts |
| `BitstreamProtocol.TimeoutSafeExactly` | src/usbipice/worker/firmware/pulse_count/main.cpp:285-324 | The exact condition for a watchdog timeout in any state reached so far: every continuation without timeouts and within the buffers is attributed correctly if and only if the timeout is benign |
| `BitstreamProtocol.HarmfulTimeout` | src/usbipice/worker/firmware/pulse_count/main.cpp:285-324 | After any other timeout there is a continuation, with never more than a 512-byte FIFO unread, in which a file is credited with the count of other bytes |
| `BitstreamProtocol.QueueSafeExactly` | src/usbipice/worker/device/state/reservable/PulseCountState.py:69-87 | The exact condition for queueing any files in any state reached so far: every continuation without timeouts is attributed correctly if and only if the file in hand is too short, or every file that is too long has a too short one queued after it |
| `BitstreamProtocol.ProgressDecreases` | src/usbipice/worker/device/state/reservable/PulseCountState.py:92-138 | Every step that changes something, other than queueing, decreases a measure on files, bytes, messages and phases |
| `BitstreamProtocol.NeverStuck` | src/usbipice/worker/device/state/reservable/PulseCountState.py:184-194 | While work is pending, in hand or unreported, and the file in hand has the size of a bitstream, one of the two programs can make progress within the buffers |
| `BitstreamProtocol.WholeQueueEvaluated` | src/usbipice/worker/device/state/reservable/PulseCountState.py:89-138 | From every state reachable without timeouts the number of steps of progress is bounded; when none is left, every bitstream ever queued has been stored if and only if all of them have the size of a bitstream |
| `BitstreamProtocol.WatchdogBreaksAttribution` | src/usbipice/worker/firmware/pulse_count/main.cpp:285-324 | A run in which the watchdog fires after the first chunk of a transfer, and a file is credited with the count of a mixture of two files |
| `Session.EveryMessageAccounted` | src/usbipice/utils/EventSender.py:57-99 | For any interleaving every message sent is emitted, held by a flush, queued or dropped, as often as it was sent |
| `Session.NothingEmittedTwice` | src/usbipice/utils/EventSender.py:77-91 | No message is emitted more often than it was sent |
| `Session.NothingDropped` | src/usbipice/utils/EventSender.py:93-97 | Without failed emits nothing is dropped |
| `Session.NothingLost` | src/usbipice/utils/EventSender.py:77-99 | Without failed emits, once the queue and the flushes are empty everything sent has been emitted |
| `Session.FlushGoesToLastSet` | src/usbipice/utils/EventSender.py:62-87 | A flush begins exactly when something is queued and a socket was set and not removed since; it takes the whole queue and goes to the socket set last |
| `Session.FirstInFirstOut` | src/usbipice/utils/EventSender.py:57-99 | Without failed emits, if every flush begins when it has nothing to emit, no other flush is running, or all messages are the same, what is emitted is a prefix of what was sent |
| `Session.OverlapReorders` | src/usbipice/utils/EventSender.py:62-68 | A run without failed emits in which a flush by a new socket overlaps the flush of the sender and two messages are emitted in the wrong order |
| `Session.SafeExactly` | src/usbipice/utils/EventSender.py:77-99 | The exact condition for one flush: when it begins with something to emit, all ways to emit what the flushes hold keep the order of sending if and only if no other flush is running or all messages held and queued are the same |
| `Session.OrderExactly` | src/usbipice/utils/EventSender.py:57-99 | The exact condition over whole runs without failed emits: the order of sending is safe in every state if and only if every flush begins under that condition |
| `Session.EmittedIsSteps` | src/usbipice/utils/EventSender.py:89-91 | The state after a number of emitted messages is reached by as many emit steps |
| `Session.Session.constructor` | src/usbipice/utils/EventSender.py:27-37 | A session shows the initial state: an empty queue and no socket |
| `Session.Session.Append` | src/usbipice/utils/EventSender.py:57-59 | What send does under the lock is the append step |
| `Session.Session.SetSocket` | src/usbipice/utils/EventSender.py:62-64 | The assignment is the step that sets the socket |
| `Session.Session.RemoveSocket` | src/usbipice/utils/EventSender.py:70-72 | The assignment is the step that clears the socket |
| `Session.Session.Take` | src/usbipice/utils/EventSender.py:77-87 | The locked part of flush is the step that begins a flush: with a socket it takes the whole queue and the socket, without one nothing changes |
| `Session.Session.Flush` | src/usbipice/utils/EventSender.py:77-99 | Exactly the messages before the first failed emit go to the socket, the failed one is queued again and exactly those after it are dropped; these are the steps of a flush |
| `Dispatch.HandleEvent` | src/usbipice/client/lib/AbstractEventHandler.py:52-75 | The worklist ends with the handler of the first class in order: a class goes before its bases and a base before those to its right; it finds none only if no class with a table on the way knows the event |
| `Dispatch.FoundIsFirst` | src/usbipice/client/lib/AbstractEventHandler.py:57-70 | The recursive pre-order search finds the handler of such a first chain |
| `Dispatch.FirstIsUnique` | src/usbipice/client/lib/AbstractEventHandler.py:57-70 | There is no more than one such chain, so the handler is determined |
| `Dispatch.FoundExactly` | src/usbipice/client/lib/AbstractEventHandler.py:57-70 | A handler is found if and only if a class that knows the event is reachable through classes with a non-empty table only |
| `Dispatch.FoundHasChain` | src/usbipice/client/lib/AbstractEventHandler.py:57-70 | The handler found is the one registered at the end of such a chain of classes |
| `Dispatch.FindFirstConcat` | src/usbipice/client/lib/AbstractEventHandler.py:69-70 | Putting the bases in front of the worklist searches them before the rest |
| `Divider.Increment` | src/usbipice/utils/utils.py:120 | The parameter is never negative, and positive exactly for rates up to half the clock |
| `Divider.IncrementExact` | src/usbipice/utils/utils.py:120 | The parameter is exact: hz * (incr + 1) <= 48000000 < hz * (incr + 2) |
| `Divider.RatesInRange` | src/usbipice/utils/utils.py:128-139 | From zero, n clock edges produce exactly n / (incr + 1) rising edges of the output |
| `Divider.DividesExactly` | src/usbipice/utils/utils.py:128-139 | The circuit divides the clock by incr + 1 if and only if 1 <= incr < 2^23 |
| `Divider.TrueRate` | src/usbipice/utils/utils.py:151 | The true rate is at least the rate asked for and strictly below clk / incr, on which the reported value is based |
| `Divider.Simulate` | src/usbipice/utils/utils.py:128-139 | Stepping the circuit for n clock edges counts n / (incr + 1) rising edges |
| `TimeoutLimiter.TimeoutsApart` | src/usbipice/client/drivers/usbip/UsbipHandler.py:27-52 | Over every run of exports, removals, events and polls in which no removed object does harm, two timeouts of one device are more than the timeout apart |
| `TimeoutLimiter.TriggersExactly` | src/usbipice/client/drivers/usbip/UsbipHandler.py:38-52 | The exact condition for a timeout, from the history of the entry: more than the limit has passed since the poll itself, if usbip lists the bus of the last export under the server, and since the last sign of life otherwise |
| `TimeoutLimiter.AliveNeverTimesOut` | src/usbipice/client/drivers/usbip/UsbipHandler.py:27-45 | Over every run in which each poll finds the bus listed, or comes within the limit after an export or event, no timeout is ever triggered |
| `TimeoutLimiter.EntryIs` | src/usbipice/client/drivers/usbip/UsbipHandler.py:27-52 | The entry holds the bus of the last export and the last sign of life |
| `TimeoutLimiter.UndisturbedTimeoutsFurtherApart` | src/usbipice/client/drivers/usbip/UsbipHandler.py:47-52 | The next timeout comes more than timeout + delay later if no poll in between saw the bus connected and the entry was not made anew |
| `TimeoutLimiter.LimitedInvariant` | src/usbipice/client/drivers/usbip/UsbipHandler.py:38-52 | A pending decision to time out is always later than the last timeout by more than the limit |
| `TimeoutLimiter.StaleAskExactly` | src/usbipice/client/drivers/usbip/UsbipHandler.py:107-115 | The exact condition for asking an object that was just removed: the limit is kept unless the object triggers a timeout while an entry made anew was last seen before; then the next timeout can follow within the limit |
| `TimeoutLimiter.StaleAskBreaksLimit` | src/usbipice/client/drivers/usbip/UsbipHandler.py:107-115 | A run in which a removed object is asked late and two timeouts follow within two seconds, at a limit of 15 |
| `TimeoutLimiter.DeviceStatus.constructor` | src/usbipice/client/drivers/usbip/UsbipHandler.py:16-25 | A new entry counts from its creation and has not timed out |
| `TimeoutLimiter.DeviceStatus.UpdateBus` | src/usbipice/client/drivers/usbip/UsbipHandler.py:27-31 | Sets the bus and never moves the last event back |
| `TimeoutLimiter.DeviceStatus.DeviceEvent` | src/usbipice/client/drivers/usbip/UsbipHandler.py:33-36 | Never moves the last event back |
| `TimeoutLimiter.DeviceStatus.CheckTimeout` | src/usbipice/client/drivers/usbip/UsbipHandler.py:38-45 | If the bus is listed under the server the last event becomes the time of the poll; then the device has timed out exactly if more than the limit has passed since the last event |
| `TimeoutLimiter.DeviceStatus.HadTimeout` | src/usbipice/client/drivers/usbip/UsbipHandler.py:47-52 | A timeout moves the last event past the delay |

## Left out

- DeviceSwitch.Device.HandleReserve: does not model the kind `usbip`, whose state calls getters that do not exist and
  raises in its constructor, after the old state was exited.
- TimeoutLimiter.StaleAskExactly: the exception that a table changed during iteration raises.
- Divider.Increment: a rate of zero, on which the code divides by zero, rates that are no integers, and the rounding of
  float division.
- Divider.TrueRate: rates above half the clock, for which the reported rate divides by zero and raises.
- Database.ControlDatabase.RemoveWorker: columns are not modelled, so that the query names a missing one is built in.
- The locks inside `PulseCountState`, `EventSender` and `Session`. They come after the locks of the model and are taken
  in this order (`PulseCountState.run` holds its own lock while it sends, `EventSender.startSession` constructs a
  session under its lock); no lock of the model is taken under them.
- `PulseCountState.handleExit` joining a thread that may wait for the board, and `PulseCountState.__init__` switching when
  the port is missing.
- Counts split across two serial reads: the search would then see only a part of the message.
- Sessions that end: the messages still queued in them are gone.
- Flask and socketio routing, HTTP calls, files, mounting, flashing tools, logging and configuration.
- LEDs, blinking and flash time measurements of the firmware.
- Argument lists of event handlers and the type checks of requests.
- Isolation of transactions below whole procedures, and reading of reservations that end soon.
