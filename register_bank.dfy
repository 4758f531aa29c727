/** The register bank: the four general-purpose registers, the broadcast of the two indexed
    enable lines to all of them, and the all-to-all data mesh between them. Only the static
    wiring and the initial contents are modelled; delivering values along the wires is the
    scheduling kernel's work. */
module Bank {
  import opened Common
  import opened Registers

  /** The register names, in the order the bank creates them. */
  const Names: seq<string> := ["AL", "BL", "CL", "DL"]

  lemma NamesDistinct()
    ensures forall i, j :: 0 <= i < j < |Names| ==> Names[i] != Names[j]
  {
    assert Names[0][0] == 'A' && Names[1][0] == 'B' && Names[2][0] == 'C' && Names[3][0] == 'D';
  }

  /** The ports a coupling of the bank can join: the bank's two enable inputs, and each
      register's enable inputs and data ports. */
  datatype Endpoint = BankEnableIn | BankEnableOut
                    | EnableIn(reg: string) | EnableOut(reg: string)
                    | DataIn(reg: string) | DataOut(reg: string)

  /** A wire from a producer port to a consumer port. */
  datatype Coupling = Coupling(from: Endpoint, to: Endpoint)

  /** A wire of the enable broadcast: a bank enable line to the same line of one register. */
  predicate IsBroadcast(c: Coupling)
  {
    || (c.from == BankEnableIn && c.to.EnableIn? && c.to.reg in Names)
    || (c.from == BankEnableOut && c.to.EnableOut? && c.to.reg in Names)
  }

  /** A wire of the data mesh: one register's output to another register's input. */
  predicate IsMesh(c: Coupling)
  {
    c.from.DataOut? && c.to.DataIn? && c.from.reg in Names && c.to.reg in Names && c.from.reg != c.to.reg
  }

  /** The position of a register name in `Names`, 4 for any other string. */
  function Position(name: string): nat
  {
    if name == "AL" then 0 else if name == "BL" then 1 else if name == "CL" then 2 else if name == "DL" then 3 else 4
  }

  lemma PositionOfNames()
    ensures forall k :: 0 <= k < |Names| ==> Position(Names[k]) == k
    ensures forall n :: n in Names <==> Position(n) < |Names|
  {
  }

  /** The order in which the bank's loops produce mesh wires. */
  function Rank(c: Coupling): nat
    requires IsMesh(c)
  {
    4 * Position(c.from.reg) + Position(c.to.reg)
  }

  /** The coupling list the bank registers: the eight broadcast wires, then, for every ordered
      pair of distinct registers, a wire from the first one's output to the second one's input.
      Every wire is broadcast or mesh, every such wire is there once, no register feeds itself. */
  method BuildCouplings() returns (cs: seq<Coupling>)
    ensures forall c :: c in cs <==> IsBroadcast(c) || IsMesh(c)
    ensures forall i, j :: 0 <= i < j < |cs| ==> cs[i] != cs[j]
    ensures |cs| == 20
  {
    cs := [Coupling(BankEnableIn, EnableIn("AL")), Coupling(BankEnableIn, EnableIn("BL")),
           Coupling(BankEnableIn, EnableIn("CL")), Coupling(BankEnableIn, EnableIn("DL")),
           Coupling(BankEnableOut, EnableOut("AL")), Coupling(BankEnableOut, EnableOut("BL")),
           Coupling(BankEnableOut, EnableOut("CL")), Coupling(BankEnableOut, EnableOut("DL"))];
    PositionOfNames();
    for a := 0 to |Names|
      invariant |cs| == 8 + 3 * a
      invariant forall c :: c in cs <==> IsBroadcast(c) || (IsMesh(c) && Rank(c) < 4 * a)
      invariant forall i, j :: 0 <= i < j < |cs| ==> cs[i] != cs[j]
    {
      for b := 0 to |Names|
        invariant |cs| == 8 + 3 * a + (if b <= a then b else b - 1)
        invariant forall c :: c in cs <==> IsBroadcast(c) || (IsMesh(c) && Rank(c) < 4 * a + b)
        invariant forall i, j :: 0 <= i < j < |cs| ==> cs[i] != cs[j]
      {
        if a != b {
          var wire := Coupling(DataOut(Names[a]), DataIn(Names[b]));
          assert Rank(wire) == 4 * a + b;
          cs := cs + [wire];
        }
      }
    }
  }

  /** The enable broadcast delivers the same name to all four registers, and each arms only when
      it is named: so one enable arms at most one register, the one whose name it carries. */
  lemma BroadcastArmsOnlyTarget(ss: seq<CellState>, target: string, i: int, j: int)
    requires |ss| == |Names| && 0 <= i < |Names| && 0 <= j < |Names|
    requires !ss[i].pendingWrite && !ss[j].pendingWrite
    requires NamedExternal(ss[i], Names[i], None, Some(target), None).pendingWrite
    requires NamedExternal(ss[j], Names[j], None, Some(target), None).pendingWrite
    ensures i == j && Names[i] == target
  {
    NamedEnableFilter(ss[i], Names[i], None, Some(target), None);
    NamedEnableFilter(ss[j], Names[j], None, Some(target), None);
    NamesDistinct();
  }

  class RegisterBank {
    const al: Register
    const bl: Register
    const cl: Register
    const dl: Register
    const couplings: seq<Coupling>

    /** Creates AL = 0x01, BL = 0x0A, CL = DL = 0x00, all passive, and registers the wiring. */
    constructor ()
      ensures fresh(al) && fresh(bl) && fresh(cl) && fresh(dl)
      ensures al.regName == "AL" && al.State() == CellState(0x01, false, false, 0, Passive)
      ensures bl.regName == "BL" && bl.State() == CellState(0x0A, false, false, 0, Passive)
      ensures cl.regName == "CL" && cl.State() == CellState(0x00, false, false, 0, Passive)
      ensures dl.regName == "DL" && dl.State() == CellState(0x00, false, false, 0, Passive)
      ensures forall c :: c in couplings <==> IsBroadcast(c) || IsMesh(c)
      ensures |couplings| == 20
    {
      al := new Register("AL", 0x01);
      bl := new Register("BL", 0x0A);
      cl := new Register("CL", 0x00);
      dl := new Register("DL", 0x00);
      var wiring := BuildCouplings();
      couplings := wiring;
    }
  }
}
