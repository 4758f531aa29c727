/** The address path of the fetch cycle: the instruction pointer (IP), the memory address
    register (MAR) and the 256-byte memory. */
module AddressPath {
  import opened Common

  // =============================================================================================
  // Instruction pointer

  /** The IP's state: the address of the next fetch, the two armed requests, the scheduling request. */
  datatype PointerState = PointerState(value: Byte, pendingOutput: bool, pendingIncrement: bool, delay: Delay)

  /** `InstructionPointer.deltext`: `read_request` carrying True arms the read-out; `ip_write`
      carrying a truthy (non-zero) value arms the increment. */
  function PointerExternal(s: PointerState, readRequest: Option<bool>, ipWrite: Option<int>): PointerState
  {
    var read := if readRequest == Some(true) then s.(pendingOutput := true, delay := Active) else s;
    if ipWrite.Some? && ipWrite.value != 0 then read.(pendingIncrement := true, delay := Active) else read
  }

  /** The wrap-around increment `(value + 1) & 0xFF`. */
  function Increment(v: Byte): (r: Byte)
    ensures v < 255 ==> r == v + 1
    ensures v == 255 ==> r == 0
  {
    Mask(v + 1)
  }

  /** `InstructionPointer.deltint`: apply an armed increment, disarm both requests, passivate. */
  function PointerInternal(s: PointerState): PointerState
  {
    s.(value := if s.pendingIncrement then Increment(s.value) else s.value,
       pendingIncrement := false, pendingOutput := false, delay := Passive)
  }

  /** `InstructionPointer.lambdaf`: the current address on `addr_out` when a read-out is armed. */
  function PointerOutput(s: PointerState): (r: Option<Byte>)
    ensures r.Some? <==> s.pendingOutput
    ensures r.Some? ==> r.value == s.value
    ensures r.Some? && s.pendingIncrement ==> PointerInternal(s).value == Increment(r.value)
  {
    if s.pendingOutput then Some(s.value) else None
  }

  /** Whatever is delivered, the read-out is armed iff it was or `read_request` carries True, the
      increment iff it was or `ip_write` carries a non-zero value, and the address is kept. */
  lemma PointerArmRule(s: PointerState, r: Option<bool>, w: Option<int>)
    ensures var t := PointerExternal(s, r, w);
      && (t.pendingOutput <==> s.pendingOutput || r == Some(true))
      && (t.pendingIncrement <==> s.pendingIncrement || (w.Some? && w.value != 0))
      && t.value == s.value
      && (r == Some(true) || (w.Some? && w.value != 0) ==> t.delay == Active)
      && (r != Some(true) && (w.None? || w.value == 0) ==> t == s)
  {
  }

  /** A read-out and an increment requested together: the old address is emitted and the new
      one is its successor modulo 256; afterwards nothing is armed. */
  lemma ReadOutPrecedesIncrement(s: PointerState)
    ensures var t := PointerExternal(s, Some(true), Some(1));
      && PointerOutput(t) == Some(s.value)
      && PointerInternal(t).value == (s.value + 1) % 256
      && !PointerInternal(t).pendingOutput && !PointerInternal(t).pendingIncrement
      && PointerInternal(t).delay == Passive
  {
  }

  /** An internal transition with no increment armed leaves the address unchanged. */
  lemma NoIncrementKeepsAddress(s: PointerState)
    requires !s.pendingIncrement
    ensures PointerInternal(s).value == s.value
  {
  }

  /** The address after `k` increments. */
  function Advance(v: Byte, k: nat): Byte
    decreases k
  {
    if k == 0 then v else Advance(Increment(v), k - 1)
  }

  /** `k` increments add `k` modulo 256. */
  lemma {:induction false} AdvanceAdds(v: Byte, k: nat)
    ensures Advance(v, k) == (v + k) % 256
    decreases k
  {
    if k > 0 {
      AdvanceAdds(Increment(v), k - 1);
      if v == 255 {
        AddTurns(k - 1, 1);
        assert v + k == (k - 1) + 256 * 1;
      }
    }
  }

  /** Adding whole turns of 256 does not change a residue. */
  lemma {:induction false} AddTurns(x: int, q: nat)
    ensures (x + 256 * q) % 256 == x % 256
    decreases q
  {
    if q > 0 {
      AddTurns(x, q - 1);
      assert x + 256 * q == (x + 256 * (q - 1)) + 256;
    }
  }

  /** Only the remainder of an offset modulo 256 matters. */
  lemma {:induction false} OffsetResidue(v: Byte, k: nat)
    ensures (v + k) % 256 == (v + k % 256) % 256
    decreases k
  {
    if k >= 256 {
      OffsetResidue(v, k - 256);
      AddTurns(v + (k - 256), 1);
      AddTurns(k - 256, 1);
    }
  }

  /** Increments bring the pointer back to where it started exactly when their number is a
      multiple of 256. */
  lemma FullTurn(v: Byte, k: nat)
    ensures Advance(v, k) == v <==> k % 256 == 0
  {
    AdvanceAdds(v, k);
    OffsetResidue(v, k);
    var r := k % 256;
    assert Advance(v, k) == (v + r) % 256;
    if v + r < 256 {
      assert (v + r) % 256 == v + r;
    } else {
      AddTurns(v + r - 256, 1);
      assert (v + r) % 256 == v + r - 256;
    }
  }

  class InstructionPointer {
    var value: Byte
    var pendingOutput: bool
    var pendingIncrement: bool
    var delay: Delay

    function State(): PointerState
      reads this
    {
      PointerState(value, pendingOutput, pendingIncrement, delay)
    }

    constructor ()
      ensures State() == PointerState(0x00, false, false, Passive)
    {
      value := 0x00;
      pendingOutput, pendingIncrement := false, false;
      delay := Passive;
    }

    method Initialize()
      modifies this
      ensures State() == old(State()).(delay := Passive)
    {
      delay := Passive;
    }

    method External(readRequest: Option<bool>, ipWrite: Option<int>)
      modifies this
      ensures State() == PointerExternal(old(State()), readRequest, ipWrite)
    {
      if readRequest.Some? && readRequest.value {
        pendingOutput := true;
        delay := Active;
      }
      if ipWrite.Some? {
        var increment := ipWrite.value;
        if increment != 0 {
          pendingIncrement := true;
          delay := Active;
        }
      }
    }

    method Internal()
      modifies this
      ensures State() == PointerInternal(old(State()))
    {
      if pendingIncrement {
        value := (value + 1) % 256;
        pendingIncrement := false;
      }
      if pendingOutput {
        pendingOutput := false;
      }
      delay := Passive;
    }
  }

  // =============================================================================================
  // Memory address register

  /** The MAR's state: the stored address, the address waiting to be forwarded, the scheduling request. */
  datatype AddressState = AddressState(address: Byte, pendingAddr: Option<Byte>, delay: Delay)

  /** `MemoryAddressRegister.deltext`: any address on `addr_in` is masked and armed for forwarding. */
  function AddressExternal(s: AddressState, addrIn: Option<int>): AddressState
  {
    if addrIn.Some? then s.(pendingAddr := Some(Mask(addrIn.value)), delay := Active) else s
  }

  /** `MemoryAddressRegister.deltint`: store the armed address, disarm, passivate. */
  function AddressInternal(s: AddressState): AddressState
  {
    var stored := if s.pendingAddr.Some? then s.(address := s.pendingAddr.value, pendingAddr := None) else s;
    stored.(delay := Passive)
  }

  /** `MemoryAddressRegister.lambdaf`: the armed address, on its way to memory. */
  function AddressOutput(s: AddressState): (r: Option<Byte>)
    ensures r.Some? <==> s.pendingAddr.Some?
    ensures r.Some? ==> AddressInternal(s).address == r.value
    ensures r.None? ==> AddressInternal(s).address == s.address
  {
    s.pendingAddr
  }

  /** Every address received is forwarded exactly once: the next output is that address, masked,
      the internal transition stores the same byte, and after it nothing more is emitted. */
  lemma ForwardOnce(s: AddressState, a: int)
    ensures var t := AddressExternal(s, Some(a));
      && AddressOutput(t) == Some(Mask(a))
      && AddressInternal(t).address == Mask(a)
      && AddressOutput(AddressInternal(t)) == None
      && AddressInternal(t).delay == Passive
  {
  }

  class MemoryAddressRegister {
    var address: Byte
    var pendingAddr: Option<Byte>
    var delay: Delay

    function State(): AddressState
      reads this
    {
      AddressState(address, pendingAddr, delay)
    }

    constructor ()
      ensures State() == AddressState(0x00, None, Passive)
    {
      address := 0x00;
      pendingAddr := None;
      delay := Passive;
    }

    method Initialize()
      modifies this
      ensures State() == old(State()).(delay := Passive)
    {
      delay := Passive;
    }

    method External(addrIn: Option<int>)
      modifies this
      ensures State() == AddressExternal(old(State()), addrIn)
    {
      if addrIn.Some? {
        pendingAddr := Some(Mask(addrIn.value));
        delay := Active;
      }
    }

    method Internal()
      modifies this
      ensures State() == AddressInternal(old(State()))
    {
      if pendingAddr.Some? {
        address := pendingAddr.value;
        pendingAddr := None;
      }
      delay := Passive;
    }
  }

  // =============================================================================================
  // Memory

  /** The one kind of operation memory commits to. */
  datatype Operation = Read(address: Byte)

  /** The memory's state: the sparse store, the buffered address and read signal, the committed
      operation and the scheduling request. */
  datatype MemoryState = MemoryState(storage: map<Byte, Byte>, pendingAddr: Option<Byte>, pendingRead: bool,
                                     pendingOperation: Option<Operation>, delay: Delay)

  /** `storage.get(address, 0x00)`. */
  function Lookup(storage: map<Byte, Byte>, address: Byte): (d: Byte)
    ensures address !in storage ==> d == 0x00
    ensures address in storage ==> d == storage[address]
  {
    if address in storage then storage[address] else 0x00
  }

  /** `Memory.deltext`: buffer the address (masked) and the read signal, each when present; once
      an address is buffered and the signal is True, commit a read, hold for one time unit and
      clear both buffers. A False signal clears a buffered True. */
  function MemoryExternal(s: MemoryState, addr: Option<int>, rw: Option<bool>): MemoryState
  {
    var withAddr := if addr.Some? then s.(pendingAddr := Some(Mask(addr.value))) else s;
    var withRw := if rw.Some? then withAddr.(pendingRead := rw.value) else withAddr;
    if withRw.pendingAddr.Some? && withRw.pendingRead
    then withRw.(pendingOperation := Some(Read(withRw.pendingAddr.value)), delay := Hold(1),
                 pendingAddr := None, pendingRead := false)
    else withRw
  }

  /** `Memory.deltint`: drop the committed operation and passivate. */
  function MemoryInternal(s: MemoryState): MemoryState
  {
    s.(pendingOperation := None, delay := Passive)
  }

  /** `Memory.lambdaf`: the byte stored at a committed read's address. */
  function MemoryOutput(s: MemoryState): (r: Option<Byte>)
    ensures r.Some? <==> s.pendingOperation.Some?
    ensures r.Some? && s.pendingOperation.value.address in s.storage ==>
      r.value == s.storage[s.pendingOperation.value.address]
    ensures r.Some? && s.pendingOperation.value.address !in s.storage ==> r.value == 0x00
  {
    if s.pendingOperation.Some? then Some(Lookup(s.storage, s.pendingOperation.value.address)) else None
  }

  /** A read commits exactly when, after the delivery, an address is buffered and the read signal
      is True; it never changes the store and leaves both buffers empty once it commits. */
  lemma CommitRule(s: MemoryState, addr: Option<int>, rw: Option<bool>)
    ensures var t := MemoryExternal(s, addr, rw);
      var a := if addr.Some? then Some(Mask(addr.value)) else s.pendingAddr;
      var r := if rw.Some? then rw.value else s.pendingRead;
      && t.storage == s.storage
      && (a.Some? && r ==> t.pendingOperation == Some(Read(a.value)) && t.delay == Hold(1)
                           && t.pendingAddr.None? && !t.pendingRead)
      && (!(a.Some? && r) ==> t.pendingOperation == s.pendingOperation && t.delay == s.delay
                              && t.pendingAddr == a && t.pendingRead == r)
  {
  }

  /** Address and read signal delivered separately, in either order, commit a read of that
      address; memory then emits the stored byte, or 0x00 for an address never written. */
  lemma SeparateDeliveriesCommit(s: MemoryState, a: int, addressFirst: bool)
    requires s.pendingAddr.None? && !s.pendingRead
    ensures var t := if addressFirst then MemoryExternal(MemoryExternal(s, Some(a), None), None, Some(true))
                     else MemoryExternal(MemoryExternal(s, None, Some(true)), Some(a), None);
      && t.pendingOperation == Some(Read(Mask(a)))
      && MemoryOutput(t) == Some(Lookup(s.storage, Mask(a)))
      && (Mask(a) !in s.storage ==> MemoryOutput(t) == Some(0x00))
      && t.pendingAddr.None? && !t.pendingRead
  {
  }

  /** The steps memory can take: a delivery on `addr` and `rw`, or an internal transition. */
  datatype MemoryEvent = Deliver(addr: Option<int>, rw: Option<bool>) | Fire

  function Replay(s: MemoryState, es: seq<MemoryEvent>): MemoryState
    decreases |es|
  {
    if es == [] then s
    else
      var next := match es[0]
        case Deliver(addr, rw) => MemoryExternal(s, addr, rw)
        case Fire => MemoryInternal(s);
      Replay(next, es[1..])
  }

  /** No sequence of deliveries and internal transitions ever changes the store, and whatever
      memory emits on the way is what the store holds at the address read. */
  lemma {:induction false} StoreIsReadOnly(s: MemoryState, es: seq<MemoryEvent>)
    ensures Replay(s, es).storage == s.storage
    ensures MemoryOutput(Replay(s, es)) == None ||
            MemoryOutput(Replay(s, es)) == Some(Lookup(s.storage, Replay(s, es).pendingOperation.value.address))
    decreases |es|
  {
    if es != [] {
      var next := match es[0]
        case Deliver(addr, rw) => MemoryExternal(s, addr, rw)
        case Fire => MemoryInternal(s);
      StoreIsReadOnly(next, es[1..]);
    }
  }

  /** The program image loaded by `initialize`: opcode 0x01 at address 0x00. */
  const Program: map<Byte, Byte> := map[0x00 := 0x01]

  class Memory {
    var storage: map<Byte, Byte>
    var pendingAddr: Option<Byte>
    var pendingRead: bool
    var pendingOperation: Option<Operation>
    var delay: Delay

    function State(): MemoryState
      reads this
    {
      MemoryState(storage, pendingAddr, pendingRead, pendingOperation, delay)
    }

    constructor ()
      ensures State() == MemoryState(map[], None, false, None, Passive)
    {
      storage := map[];
      pendingAddr, pendingRead, pendingOperation := None, false, None;
      delay := Passive;
    }

    /** Loads the program byte and passivates. */
    method Initialize()
      modifies this
      ensures State() == old(State()).(storage := old(storage)[0x00 := 0x01], delay := Passive)
      ensures old(storage) == map[] ==> storage == Program
    {
      storage := storage[0x00 := 0x01];
      delay := Passive;
    }

    method External(addr: Option<int>, rw: Option<bool>)
      modifies this
      ensures State() == MemoryExternal(old(State()), addr, rw)
    {
      if addr.Some? {
        pendingAddr := Some(Mask(addr.value));
      }
      if rw.Some? {
        pendingRead := rw.value;
      }
      if pendingAddr.Some? && pendingRead {
        pendingOperation := Some(Read(pendingAddr.value));
        delay := Hold(1);
        pendingAddr := None;
        pendingRead := false;
      }
    }

    method Internal()
      modifies this
      ensures State() == MemoryInternal(old(State()))
    {
      pendingOperation := None;
      delay := Passive;
    }
  }
}
