/** The two 8-bit storage cells: `Register` (the general-purpose AL, BL, CL, DL, whose enables
    carry a register name) and `SimpleRegister` (MBR and IR, whose enables carry a boolean).
    Both keep the same state and share the same internal transition and output. */
module Registers {
  import opened Common

  /** The state of either kind of register: the stored byte, the two armed operations, the byte
      captured for a pending write, and the scheduling request. */
  datatype CellState = CellState(value: Byte, pendingWrite: bool, pendingRead: bool, pendingValue: Byte, delay: Delay)

  /** `Register.deltext`: data on `data_in` is always captured (masked); an enable arms its
      operation only when it carries this register's name. */
  function NamedExternal(s: CellState, regName: string, dataIn: Option<int>,
                         enableIn: Option<string>, enableOut: Option<string>): CellState
  {
    var captured := if dataIn.Some? then s.(pendingValue := Mask(dataIn.value)) else s;
    var written := if enableIn == Some(regName) then captured.(pendingWrite := true, delay := Active) else captured;
    if enableOut == Some(regName) then written.(pendingRead := true, delay := Active) else written
  }

  /** `SimpleRegister.deltext`: a write is armed when `enable_in` carries True together with data,
      or when data arrives while `enable_in` carries nothing; `enable_out` carrying True arms a read. */
  function BoolExternal(s: CellState, dataIn: Option<int>, enableIn: Option<bool>, enableOut: Option<bool>): CellState
  {
    var enabled := if enableIn == Some(true) && dataIn.Some?
      then s.(pendingValue := Mask(dataIn.value), pendingWrite := true, delay := Active) else s;
    var read := if enableOut == Some(true) then enabled.(pendingRead := true, delay := Active) else enabled;
    if enableIn.None? && dataIn.Some?
    then read.(pendingValue := Mask(dataIn.value), pendingWrite := true, delay := Active)
    else read
  }

  /** `deltint` of both kinds: commit an armed write, disarm both operations, passivate. */
  function CellInternal(s: CellState): CellState
  {
    s.(value := if s.pendingWrite then s.pendingValue else s.value,
       pendingWrite := false, pendingRead := false, delay := Passive)
  }

  /** `lambdaf` of both kinds: the stored byte, emitted on `data_out` only when a read is armed. */
  function CellOutput(s: CellState): (r: Option<Byte>)
    ensures r.Some? <==> s.pendingRead
    ensures r.Some? ==> r.value == s.value
    ensures r.Some? && !s.pendingWrite ==> CellInternal(s).value == r.value
  {
    if s.pendingRead then Some(s.value) else None
  }

  // ---------------------------------------------------------------------------------------------
  // Properties of the transitions

  /** A named enable arms exactly when it names this register; captured data is always masked,
      and the stored value is never touched by an external transition. */
  lemma NamedEnableFilter(s: CellState, regName: string, dataIn: Option<int>,
                          enableIn: Option<string>, enableOut: Option<string>)
    ensures var t := NamedExternal(s, regName, dataIn, enableIn, enableOut);
      && (t.pendingWrite <==> s.pendingWrite || enableIn == Some(regName))
      && (t.pendingRead <==> s.pendingRead || enableOut == Some(regName))
      && t.pendingValue == (if dataIn.Some? then Mask(dataIn.value) else s.pendingValue)
      && t.value == s.value
  {
  }

  /** Enables naming another register change nothing but the captured byte. */
  lemma OtherNameIgnored(s: CellState, regName: string, dataIn: Option<int>, other: string, other': string)
    requires other != regName && other' != regName
    ensures NamedExternal(s, regName, dataIn, Some(other), Some(other')) ==
            if dataIn.Some? then s.(pendingValue := Mask(dataIn.value)) else s
  {
  }

  /** A simple register arms a write exactly when True comes with data on `enable_in`, or data
      comes with nothing on `enable_in`; `enable_in` carrying False drops the data. */
  lemma BoolWriteRule(s: CellState, dataIn: Option<int>, enableIn: Option<bool>, enableOut: Option<bool>)
    ensures var t := BoolExternal(s, dataIn, enableIn, enableOut);
      && (t.pendingWrite <==> s.pendingWrite || (dataIn.Some? && enableIn != Some(false)))
      && (t.pendingRead <==> s.pendingRead || enableOut == Some(true))
      && t.pendingValue == (if dataIn.Some? && enableIn != Some(false) then Mask(dataIn.value) else s.pendingValue)
      && t.value == s.value
  {
    match enableIn
    case None =>
    case Some(b) => assert enableIn == Some(b);
  }

  /** The internal transition stores the pending byte iff a write is armed, and leaves the
      register disarmed and passive, so a second internal transition changes nothing. */
  lemma InternalCommits(s: CellState)
    ensures var t := CellInternal(s);
      && (s.pendingWrite ==> t.value == s.pendingValue)
      && (!s.pendingWrite ==> t.value == s.value)
      && !t.pendingWrite && !t.pendingRead && t.delay == Passive
      && CellOutput(t) == None
      && CellInternal(t) == t
  {
  }

  /** A named write followed by the internal transition stores the delivered byte, masked. */
  lemma NamedWriteStores(s: CellState, regName: string, data: int)
    ensures CellInternal(NamedExternal(s, regName, Some(data), Some(regName), None)).value == Mask(data)
  {
  }

  /** A read and a write armed together emit the value from before the write. */
  lemma CoincidingReadIsStale(s: CellState, regName: string, data: int)
    ensures var t := NamedExternal(s, regName, Some(data), Some(regName), Some(regName));
      && CellOutput(t) == Some(s.value)
      && CellInternal(t).value == Mask(data)
  {
  }

  /** A read with no write armed emits the stored value and leaves it in place. */
  lemma ReadKeepsValue(s: CellState, regName: string)
    requires !s.pendingWrite
    ensures var t := NamedExternal(s, regName, None, None, Some(regName));
      && CellOutput(t) == Some(s.value)
      && CellInternal(t).value == s.value
  {
  }

  /** One delivery to a named register: the three input ports. */
  datatype Delivery = Delivery(dataIn: Option<int>, enableIn: Option<string>, enableOut: Option<string>)

  /** A register's state after several deliveries with no internal transition between them. */
  function Deliver(s: CellState, regName: string, ds: seq<Delivery>): CellState
    decreases |ds|
  {
    if ds == [] then s
    else Deliver(NamedExternal(s, regName, ds[0].dataIn, ds[0].enableIn, ds[0].enableOut), regName, ds[1..])
  }

  /** Across any run of deliveries, a write is armed iff one of them named this register for
      writing, a read iff one named it for reading; the stored value stays put and the byte
      captured is the last one delivered. */
  lemma {:induction false} DeliveriesArmByName(s: CellState, regName: string, ds: seq<Delivery>)
    ensures var t := Deliver(s, regName, ds);
      && (t.pendingWrite <==> s.pendingWrite || exists i :: 0 <= i < |ds| && ds[i].enableIn == Some(regName))
      && (t.pendingRead <==> s.pendingRead || exists i :: 0 <= i < |ds| && ds[i].enableOut == Some(regName))
      && t.value == s.value
      && ((forall i :: 0 <= i < |ds| ==> ds[i].dataIn.None?) ==> t.pendingValue == s.pendingValue)
    decreases |ds|
  {
    if ds != [] {
      var s' := NamedExternal(s, regName, ds[0].dataIn, ds[0].enableIn, ds[0].enableOut);
      DeliveriesArmByName(s', regName, ds[1..]);
      assert forall i :: 0 < i < |ds| ==> ds[i] == ds[1..][i - 1];
      assert forall i :: 0 <= i < |ds| - 1 ==> ds[1..][i] == ds[i + 1];
    }
  }

  // ---------------------------------------------------------------------------------------------
  // The components

  /** A general-purpose register (AL, BL, CL or DL). */
  class Register {
    const regName: string
    var value: Byte
    var pendingWrite: bool
    var pendingRead: bool
    var pendingValue: Byte
    var delay: Delay

    function State(): CellState
      reads this
    {
      CellState(value, pendingWrite, pendingRead, pendingValue, delay)
    }

    constructor (name: string, initialValue: Byte)
      ensures regName == name
      ensures State() == CellState(initialValue, false, false, 0, Passive)
    {
      regName := name;
      value := initialValue;
      pendingWrite, pendingRead, pendingValue := false, false, 0;
      delay := Passive;
    }

    method Initialize()
      modifies this
      ensures State() == old(State()).(delay := Passive)
    {
      delay := Passive;
    }

    method External(dataIn: Option<int>, enableIn: Option<string>, enableOut: Option<string>)
      modifies this
      ensures State() == NamedExternal(old(State()), regName, dataIn, enableIn, enableOut)
    {
      if dataIn.Some? {
        pendingValue := Mask(dataIn.value);
      }
      if enableIn.Some? {
        var target := enableIn.value;
        if target == regName {
          pendingWrite := true;
          delay := Active;
        }
      }
      if enableOut.Some? {
        var target := enableOut.value;
        if target == regName {
          pendingRead := true;
          delay := Active;
        }
      }
    }

    method Internal()
      modifies this
      ensures State() == CellInternal(old(State()))
    {
      if pendingWrite {
        value := pendingValue;
        pendingWrite := false;
      }
      if pendingRead {
        pendingRead := false;
      }
      delay := Passive;
    }
  }

  /** A register with boolean enables: the memory buffer (MBR) and the instruction register (IR). */
  class SimpleRegister {
    var value: Byte
    var pendingWrite: bool
    var pendingRead: bool
    var pendingValue: Byte
    var delay: Delay

    function State(): CellState
      reads this
    {
      CellState(value, pendingWrite, pendingRead, pendingValue, delay)
    }

    constructor (initialValue: Byte)
      ensures State() == CellState(initialValue, false, false, 0, Passive)
    {
      value := initialValue;
      pendingWrite, pendingRead, pendingValue := false, false, 0;
      delay := Passive;
    }

    method Initialize()
      modifies this
      ensures State() == old(State()).(delay := Passive)
    {
      delay := Passive;
    }

    method External(dataIn: Option<int>, enableIn: Option<bool>, enableOut: Option<bool>)
      modifies this
      ensures State() == BoolExternal(old(State()), dataIn, enableIn, enableOut)
    {
      if enableIn.Some? {
        var enabled := enableIn.value;
        if enabled && dataIn.Some? {
          pendingValue := Mask(dataIn.value);
          pendingWrite := true;
          delay := Active;
        }
      }
      if enableOut.Some? {
        var enabled := enableOut.value;
        if enabled {
          pendingRead := true;
          delay := Active;
        }
      }
      if enableIn.None? && dataIn.Some? {
        pendingValue := Mask(dataIn.value);
        pendingWrite := true;
        delay := Active;
      }
    }

    method Internal()
      modifies this
      ensures State() == CellInternal(old(State()))
    {
      if pendingWrite {
        value := pendingValue;
        pendingWrite := false;
      }
      if pendingRead {
        pendingRead := false;
      }
      delay := Passive;
    }
  }
}
