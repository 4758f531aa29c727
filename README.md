# VonSim8 micro-architecture core in Dafny

This project models the component state machines of VonSim8, a simulator of one
fetch/execute cycle of an 8-bit von Neumann CPU written as discrete-event (DEVS) atomic
models. Every component reacts through three hooks:
- `deltext`, the external transition, consumes the values present on its input ports;
- `deltint`, the internal transition, fires when its scheduled delay expires;
- `lambdaf`, the output function, computes what the component emits just before `deltint`.

Each component is a Dafny `class` with the source's fields. Its `External` and `Internal`
methods update those fields step by step, as the source does. Each method is proved against
a pure function over a state record (`CellState`, `PointerState`, `AddressState`,
`MemoryState`, `BusState`), and `lambdaf` is modelled as a pure function of that record
(`CellOutput`, `PointerOutput`, `AddressOutput`, `MemoryOutput`, `BusOutputOf`, `Signals`).
The properties are lemmas over those functions: single steps, pairs of steps, and arbitrary
runs of deliveries and internal transitions.

An input port is an `Option`: `Some(v)` when it holds a value in this delivery. The
scheduling request a transition leaves is the `Delay` datatype:
- `Hold(n)` for `hold_in(phase, n)`;
- `Passive` for `passivate()`;
- `Active` for `activate()`.
A `deltext` that calls none of these keeps the request it had. That is the `continuef(e)`
case; the elapsed time `e` itself is not modelled. `x & 0xFF` is `Mask`, the residue modulo
256, which agrees with Python's `&` for negative integers too.

Modules:
- `Common`: `Option`, `Byte`, `Mask`, `Delay`.
- `Registers`: `Register` (AL, BL, CL, DL, with name-matched enables) and `SimpleRegister`
  (MBR and IR, with boolean enables).
- `AddressPath`: `InstructionPointer`, `MemoryAddressRegister`, `Memory`.
- `Bus`: the `SharedBus` arbiter, which the source defines but never wires in.
- `Control`: the `ControlUnit` sequencer, its decode table, its transition table and its
  output table.
- `Bank`: the `RegisterBank`'s four registers, their initial values and its static coupling list.

Where the code and its design description differ, the model follows the code:
- The hold of 2 time units is requested when leaving FETCH3, FETCH5 and EXEC3. In time,
  it is therefore FETCH4, FETCH6 and EXEC4 that last two units.
- The control unit starts in IDLE when constructed and enters FETCH1 only in `initialize`.
- `SimpleRegister` arms a write from data alone when `enable_in` carries no value in that
  delivery. It does not depend on whether the port is wired.
- The cycle counters end at fetch 8, execute 6, total 14. The holds the sequencer requests,
  from `initialize` until it passivates, add up to 15 time units (`RunInstructionCycle`).
  The hold requested when leaving FETCH1 is never counted; the source's comment says its
  cycle was already counted by `initialize`.
- `initialize` does not reset `execute_cycles`. So `total == fetch + execute` holds after
  `initialize` only when the execute counter was 0, as it is after construction.
- A request and a True release delivered together to a free bus lock it and unlock it again
  in the same transition. The grant is still armed.

## Model

| member | source | states |
|---|---|---|
| Common.Mask | vonsim8.py:114 | the result is a byte congruent to the input modulo 256, and a byte is left unchanged |
| Registers.Register.constructor | vonsim8.py:86-104 | a register starts with its name, its initial value, nothing armed, passive |
| Registers.Register.Initialize | vonsim8.py:106-107 | initialization only passivates |
| Registers.Register.External | vonsim8.py:109-129 | the new state is `NamedExternal` of the old: data captured masked, write/read armed only by an enable carrying this register's name |
| Registers.Register.Internal | vonsim8.py:131-141 | the new state is `CellInternal` of the old: armed write committed, both flags cleared, passive |
| Registers.NamedEnableFilter | vonsim8.py:113-129 | pending write (read) is set iff it was set or `enable_in` (`enable_out`) names this register; any data overwrites the pending byte, masked; the stored value is untouched |
| Registers.OtherNameIgnored | vonsim8.py:117-129 | enables naming another register change nothing but the captured byte |
| Registers.DeliveriesArmByName | vonsim8.py:109-129 | over any run of deliveries, a write (read) is armed iff some delivery named this register on `enable_in` (`enable_out`); the value stays; with no data the pending byte stays |
| Registers.InternalCommits | vonsim8.py:131-146 | the internal transition stores the pending byte iff a write was armed, clears both flags, passivates, emits nothing afterwards and is idempotent |
| Registers.NamedWriteStores | vonsim8.py:113-133 | a named write followed by the internal transition stores the delivered byte masked |
| Registers.CoincidingReadIsStale | vonsim8.py:109-146 | with read and write armed together the output is the pre-write value and the new value is the written byte |
| Registers.ReadKeepsValue | vonsim8.py:124-146 | a read with no write armed emits the stored value and leaves it unchanged |
| Registers.CellOutput | vonsim8.py:143-146 | a byte is emitted iff a read is armed; it is the stored value, which the internal transition keeps when no write is armed (the same `lambdaf` as lines 212-215) |
| Registers.SimpleRegister.constructor | vonsim8.py:155-172 | a simple register starts with its initial value, nothing armed, passive |
| Registers.SimpleRegister.Initialize | vonsim8.py:174-175 | initialization only passivates |
| Registers.SimpleRegister.External | vonsim8.py:177-198 | the new state is `BoolExternal` of the old |
| Registers.SimpleRegister.Internal | vonsim8.py:200-210 | the new state is `CellInternal` of the old |
| Registers.BoolWriteRule | vonsim8.py:181-198 | a write is armed iff data arrives and `enable_in` is True or empty; `enable_in` False drops the data; a read is armed iff `enable_out` is True |
| AddressPath.Increment | vonsim8.py:257 | the successor of a byte below 255, and 0 after 255 |
| AddressPath.InstructionPointer.constructor | vonsim8.py:224-236 | the IP starts at 0x00 with nothing armed, passive |
| AddressPath.InstructionPointer.Initialize | vonsim8.py:238-239 | initialization only passivates |
| AddressPath.InstructionPointer.External | vonsim8.py:241-252 | the new state is `PointerExternal` of the old: a True read request arms the read-out, a truthy `ip_write` arms the increment |
| AddressPath.InstructionPointer.Internal | vonsim8.py:254-264 | the new state is `PointerInternal` of the old: armed increment applied with wrap-around, both flags cleared, passive |
| AddressPath.PointerOutput | vonsim8.py:266-269 | an address is emitted iff a read-out is armed; it is the current address, and an armed increment then moves the IP to its successor |
| AddressPath.PointerArmRule | vonsim8.py:241-252 | for every delivery, the read-out is armed iff it was or `read_request` carries True, the increment iff it was or `ip_write` carries a non-zero value; the address is kept; arming activates, and a delivery that arms nothing changes nothing |
| AddressPath.ReadOutPrecedesIncrement | vonsim8.py:241-269 | with read-out and increment armed together the old address is emitted, the new one is `(old + 1) % 256`, and nothing remains armed |
| AddressPath.NoIncrementKeepsAddress | vonsim8.py:254-264 | without an armed increment the address is unchanged |
| AddressPath.AdvanceAdds | vonsim8.py:255-257 | k increments add k modulo 256 |
| AddressPath.FullTurn | vonsim8.py:255-257 | increments return the IP to its start exactly when their number is a multiple of 256 |
| AddressPath.MemoryAddressRegister.constructor | vonsim8.py:278-287 | the MAR starts at 0x00 with no address pending, passive |
| AddressPath.MemoryAddressRegister.Initialize | vonsim8.py:289-290 | initialization only passivates |
| AddressPath.MemoryAddressRegister.External | vonsim8.py:292-296 | the new state is `AddressExternal` of the old: any address is masked and armed |
| AddressPath.MemoryAddressRegister.Internal | vonsim8.py:298-303 | the new state is `AddressInternal` of the old: the pending address is stored and cleared |
| AddressPath.AddressOutput | vonsim8.py:305-308 | an address is emitted iff one is pending, and it is the address the internal transition then stores; with nothing pending the stored address stays |
| AddressPath.ForwardOnce | vonsim8.py:292-308 | an address received is emitted masked, the internal transition stores that same byte, and afterwards nothing is emitted |
| AddressPath.Lookup | vonsim8.py:362 | an unset address reads 0x00, a set one reads its stored byte |
| AddressPath.Memory.constructor | vonsim8.py:317-333 | memory starts empty, with nothing buffered, no operation, passive |
| AddressPath.Memory.Initialize | vonsim8.py:335-338 | initialization stores opcode 0x01 at address 0x00 and passivates |
| AddressPath.Memory.External | vonsim8.py:340-357 | the new state is `MemoryExternal` of the old |
| AddressPath.Memory.Internal | vonsim8.py:359-365 | the new state is `MemoryInternal` of the old: the operation is dropped and memory passivates |
| AddressPath.MemoryOutput | vonsim8.py:367-372 | a byte is emitted iff a read is committed; it is the stored byte at the read's address, or 0x00 when that address was never set |
| AddressPath.CommitRule | vonsim8.py:340-357 | a read commits (hold 1, both buffers cleared) iff after the delivery an address is buffered and the read signal is True; otherwise only the buffers change; the store never does |
| AddressPath.SeparateDeliveriesCommit | vonsim8.py:340-372 | address and read signal delivered separately, in either order, commit a read of that address, and the output is the stored byte or 0x00 |
| AddressPath.StoreIsReadOnly | vonsim8.py:340-372 | no run of deliveries and internal transitions changes the store, and every output is the store's byte at the address read |
| Bus.SharedBus.constructor | vonsim8.py:15-38 | the bus starts unlocked, without requester, value 0x00, nothing armed, passive |
| Bus.SharedBus.Initialize | vonsim8.py:40-41 | initialization only passivates |
| Bus.SharedBus.External | vonsim8.py:43-64 | the new state is `BusExternal` of the old |
| Bus.SharedBus.Internal | vonsim8.py:66-71 | the new state is `BusInternal` of the old: both armed outputs cleared, passive, lock unchanged |
| Bus.BusOutputOf | vonsim8.py:73-77 | `grant` carries True iff a grant is armed and never carries False; the current byte is relayed iff data is armed |
| Bus.RequestWhileLockedIgnored | vonsim8.py:47-52 | a request on a held line changes nothing |
| Bus.RequestWhileFreeGranted | vonsim8.py:47-75 | a request on a free line locks it for the requester and arms the grant after one time unit |
| Bus.OnlyTrueReleaseUnlocks | vonsim8.py:55-58 | a held line becomes free iff the release carries True, and then the requester is cleared |
| Bus.RelayAndInternal | vonsim8.py:61-77 | data is relayed masked; the internal transition keeps the lock and disarms both outputs |
| Bus.HeldUntilReleased | vonsim8.py:43-71 | a held line stays held by the same requester through any run without a True release |
| Control.Decode | vonsim8.py:497 | the record is MOV AL, BL exactly for opcode 0x01 and the NOP record otherwise |
| Control.ProgramDecodesToMov | vonsim8.py:419-421 | the byte loaded at address 0x00 decodes to MOV AL, BL |
| Control.Transition | vonsim8.py:431-556 | each cycle phase moves to the next one in order; DONE and IDLE stay put and passivate; the hold is 2 exactly on leaving FETCH3, FETCH5 and EXEC3 and 1 on leaving the other cycle phases; the cycles counted equal the hold requested, except on leaving FETCH1 where nothing is counted; fetch cycles only from fetch phases and execute cycles only from execute phases |
| Control.AfterWalksCycle | vonsim8.py:431-556 | repeated internal transitions walk FETCH1..EXEC5 in order and then remain in DONE forever |
| Control.CycleTally | vonsim8.py:437-549 | over the cycle the fetch phases add 7, the execute phases 6, and the holds requested 14 |
| Control.Signals | vonsim8.py:563-588 | `ip_read` only in FETCH1, `mem_read` and `ip_inc` only in FETCH3, `mbr_enable` only in FETCH4, `ir_enable` only in FETCH5, `ir_read` only in FETCH6, all True; the MOV entry's source name only in EXEC2 and its destination name only in EXEC4; nothing in other phases |
| Control.ControlUnit.constructor | vonsim8.py:381-421 | the unit starts in IDLE, opcode 0x00, counters 0, passive |
| Control.ControlUnit.Initialize | vonsim8.py:423-429 | enters FETCH1 with hold 1, total and fetch counters 1, execute counter unchanged; the counter invariant holds if the execute counter was 0 |
| Control.ControlUnit.External | vonsim8.py:558-561 | latches the masked opcode from `ir_in`, changes nothing else |
| Control.ControlUnit.Internal | vonsim8.py:431-556 | phase, hold and counters change as `Transition` says; the opcode is kept; at EXEC1 the decode record is returned; `total == fetch + execute` is preserved |
| Control.RunInstructionCycle | vonsim8.py:423-556 | from construction and `initialize`, internal transitions alone take 12 steps to passivate, ending in DONE with fetch 8, execute 6, total 14, while the holds requested end at time unit 15 |
| Bank.BuildCouplings | vonsim8.py:626-643 | the list holds exactly the eight enable-broadcast wires and one wire from each register's output to each other register's input, each once, 20 in all, with no self-loop |
| Bank.BroadcastArmsOnlyTarget | vonsim8.py:626-636 | an enable broadcast to all four registers newly arms at most one of them, the one it names |
| Bank.RegisterBank.constructor | vonsim8.py:605-643 | AL = 0x01, BL = 0x0A, CL = DL = 0x00, all passive and unarmed, and the couplings are exactly the broadcast and mesh wires |

## Left out

- The discrete-event kernel (`Atomic`, `Coupled`, `Port`, `Coordinator`, `hold_in`,
  `passivate`, `activate`, `continuef`). It is a third-party library whose timing and
  delivery order are not visible here. The model keeps only the scheduling request
  (`Delay`) each transition leaves, and drops the elapsed time `e` of `deltext`.
- The phase label written by the kernel. In the program, `passivate()` and `hold_in` are
  library methods that assign the same `phase` attribute the control unit uses. So the
  internal transition out of DONE (vonsim8.py:553) or out of IDLE (vonsim8.py:556) leaves
  `phase` equal to the library's passive label, not DONE or IDLE. The model deliberately keeps
  DONE and IDLE there (`Control.Transition`, `Control.AfterWalksCycle`,
  `Control.RunInstructionCycle`), because the library's label is not part of this model.
  Every other transition passes its own new phase to `hold_in`, so its label is unaffected.
- The whole-system wiring of `VonSim8System` and `CPUSystem` (vonsim8.py:650-720) and the
  outcome of its run (AL = 0x0A, IP = 0x01). That outcome depends on how the coordinator
  routes and orders messages. Only the register bank's static coupling list is modelled.
- The value propagation along the bank's couplings during a run, for the same reason.
- All `print` logging, the `exit` hooks, and the `__main__` block: event counting, wall-clock
  timing and the report.
- The components' `name` arguments, which only the kernel and the logging use. `Register`'s
  `reg_name` is modelled.
- `ControlUnit.micro_step` (vonsim8.py:411, 425): it is set to 0 and never read.
- `Memory.data_in` (vonsim8.py:327): the port is declared but never read, so memory has no
  write path.
- Registers.Register.constructor: the initial value is typed as a byte. The source stores
  whatever integer it is given unmasked, and every caller passes a byte literal.
- Registers.SimpleRegister.constructor: the initial value is typed as a byte, for the same
  reason.
- AddressPath.Memory.Initialize: the store is typed as a map from bytes to bytes, not the
  source's `dict[int, int]`. The only write to it stores 0x01 at 0x00, and every read uses a
  masked address.
