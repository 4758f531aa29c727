/** The control unit: the sequencer that drives one fetch/execute cycle by holding each phase
    for a fixed delay and asserting a fixed control signal before leaving it. */
module Control {
  import opened Common
  import AddressPath

  /** The sequencer's phases: the pre-start phase, the six fetch phases, the five execute
      phases and the terminal one. */
  datatype Phase = Idle | Fetch1 | Fetch2 | Fetch3 | Fetch4 | Fetch5 | Fetch6
                 | Exec1 | Exec2 | Exec3 | Exec4 | Exec5 | Done

  /** The instruction cycle, in the order the phases are meant to follow one another. */
  const Cycle: seq<Phase> := [Fetch1, Fetch2, Fetch3, Fetch4, Fetch5, Fetch6,
                              Exec1, Exec2, Exec3, Exec4, Exec5, Done]

  predicate IsFetch(p: Phase)
  {
    p.Fetch1? || p.Fetch2? || p.Fetch3? || p.Fetch4? || p.Fetch5? || p.Fetch6?
  }

  predicate IsExecute(p: Phase)
  {
    p.Exec1? || p.Exec2? || p.Exec3? || p.Exec4? || p.Exec5?
  }

  /** The position of a phase in `Cycle`; the pre-start phase has none. */
  function Index(p: Phase): int
  {
    match p
    case Idle => -1
    case Fetch1 => 0
    case Fetch2 => 1
    case Fetch3 => 2
    case Fetch4 => 3
    case Fetch5 => 4
    case Fetch6 => 5
    case Exec1 => 6
    case Exec2 => 7
    case Exec3 => 8
    case Exec4 => 9
    case Exec5 => 10
    case Done => 11
  }

  lemma CycleIndexed()
    ensures forall i :: 0 <= i < |Cycle| ==> Index(Cycle[i]) == i
    ensures forall p :: p != Idle ==> 0 <= Index(p) < |Cycle| && Cycle[Index(p)] == p
  {
  }

  // ---------------------------------------------------------------------------------------------
  // Decode table

  /** A decode record: mnemonic, destination register name, source register name. */
  datatype Instruction = Instruction(opcode: string, dst: string, src: string)

  /** The decode table: the one wired opcode. */
  const InstructionSet: map<Byte, Instruction> := map[0x01 := Instruction("MOV", "AL", "BL")]

  /** The lookup made at EXEC1, falling back to a no-operation record on a miss. */
  function Decode(code: Byte): (d: Instruction)
    ensures d.opcode == "MOV" <==> code == 0x01
    ensures code == 0x01 ==> d.dst == "AL" && d.src == "BL"
    ensures code != 0x01 ==> d == Instruction("NOP", "", "")
  {
    if code in InstructionSet then InstructionSet[code] else Instruction("NOP", "", "")
  }

  /** The byte the program image holds at the instruction pointer's initial address decodes to
      MOV AL, BL. */
  lemma ProgramDecodesToMov()
    ensures Decode(AddressPath.Lookup(AddressPath.Program, 0x00)) == Instruction("MOV", "AL", "BL")
  {
  }

  // ---------------------------------------------------------------------------------------------
  // Internal transition

  /** What the internal transition does on leaving a phase: the next phase, the hold it asks
      for, and the cycles it adds to the fetch and execute counters. */
  datatype Step = Step(next: Phase, hold: Delay, fetch: nat, execute: nat)

  /** The internal transition's table. Leaving FETCH1 adds nothing: initialization already
      counted one cycle. */
  function Transition(p: Phase): (t: Step)
    ensures p != Idle && p != Done ==> Index(t.next) == Index(p) + 1
    ensures p == Idle || p == Done ==> t == Step(p, Passive, 0, 0)
    ensures t.hold == Hold(2) <==> p == Fetch3 || p == Fetch5 || p == Exec3
    ensures t.hold == Hold(1) <==> p != Idle && p != Done && p != Fetch3 && p != Fetch5 && p != Exec3
    ensures t.fetch > 0 ==> IsFetch(p)
    ensures t.execute > 0 ==> IsExecute(p)
    ensures p != Fetch1 && t.hold.Hold? ==> t.fetch + t.execute == t.hold.n
    ensures p == Fetch1 ==> t.fetch + t.execute == 0
  {
    match p
    case Fetch1 => Step(Fetch2, Hold(1), 0, 0)
    case Fetch2 => Step(Fetch3, Hold(1), 1, 0)
    case Fetch3 => Step(Fetch4, Hold(2), 2, 0)
    case Fetch4 => Step(Fetch5, Hold(1), 1, 0)
    case Fetch5 => Step(Fetch6, Hold(2), 2, 0)
    case Fetch6 => Step(Exec1, Hold(1), 1, 0)
    case Exec1 => Step(Exec2, Hold(1), 0, 1)
    case Exec2 => Step(Exec3, Hold(1), 0, 1)
    case Exec3 => Step(Exec4, Hold(2), 0, 2)
    case Exec4 => Step(Exec5, Hold(1), 0, 1)
    case Exec5 => Step(Done, Hold(1), 0, 1)
    case Done => Step(Done, Passive, 0, 0)
    case Idle => Step(Idle, Passive, 0, 0)
  }

  /** The phase reached after `k` internal transitions. */
  function After(p: Phase, k: nat): Phase
    decreases k
  {
    if k == 0 then p else After(Transition(p).next, k - 1)
  }

  /** From any phase of the cycle, internal transitions walk the cycle in order and then stay
      in DONE for good. */
  lemma {:induction false} AfterWalksCycle(i: nat, k: nat)
    requires i < |Cycle|
    ensures After(Cycle[i], k) == Cycle[if i + k < |Cycle| then i + k else |Cycle| - 1]
    decreases k
  {
    if k > 0 {
      CycleIndexed();
      var next := if i + 1 < |Cycle| then i + 1 else |Cycle| - 1;
      assert Transition(Cycle[i]).next == Cycle[next];
      AfterWalksCycle(next, k - 1);
    }
  }

  /** The hold length a request stands for; passivating or activating adds no delay. */
  function HoldLength(d: Delay): nat
  {
    if d.Hold? then d.n else 0
  }

  /** Cycles added to the fetch counter by leaving each of `ps` in turn. */
  function FetchSum(ps: seq<Phase>): nat
  {
    if ps == [] then 0 else FetchSum(ps[..|ps| - 1]) + Transition(ps[|ps| - 1]).fetch
  }

  /** Cycles added to the execute counter by leaving each of `ps` in turn. */
  function ExecuteSum(ps: seq<Phase>): nat
  {
    if ps == [] then 0 else ExecuteSum(ps[..|ps| - 1]) + Transition(ps[|ps| - 1]).execute
  }

  /** The holds requested by leaving each of `ps` in turn. */
  function HoldSum(ps: seq<Phase>): nat
  {
    if ps == [] then 0 else HoldSum(ps[..|ps| - 1]) + HoldLength(Transition(ps[|ps| - 1]).hold)
  }

  /** Over the whole cycle the fetch phases add 7 cycles, the execute phases 6, and the holds
      requested add up to 14 time units. */
  lemma CycleTally()
    ensures FetchSum(Cycle) == 7
    ensures ExecuteSum(Cycle) == 6
    ensures HoldSum(Cycle) == 14
  {
    assert Cycle[..0] == [];
    SumsExtend(Cycle, 0);
    SumsExtend(Cycle, 1);
    SumsExtend(Cycle, 2);
    SumsExtend(Cycle, 3);
    SumsExtend(Cycle, 4);
    SumsExtend(Cycle, 5);
    SumsExtend(Cycle, 6);
    SumsExtend(Cycle, 7);
    SumsExtend(Cycle, 8);
    SumsExtend(Cycle, 9);
    SumsExtend(Cycle, 10);
    SumsExtend(Cycle, 11);
    assert Cycle[..|Cycle|] == Cycle;
  }

  /** Leaving one more phase adds that phase's share to each sum. */
  lemma SumsExtend(ps: seq<Phase>, k: nat)
    requires k < |ps|
    ensures FetchSum(ps[..k + 1]) == FetchSum(ps[..k]) + Transition(ps[k]).fetch
    ensures ExecuteSum(ps[..k + 1]) == ExecuteSum(ps[..k]) + Transition(ps[k]).execute
    ensures HoldSum(ps[..k + 1]) == HoldSum(ps[..k]) + HoldLength(Transition(ps[k]).hold)
  {
    assert ps[..k + 1][..k] == ps[..k];
  }

  // ---------------------------------------------------------------------------------------------
  // Output

  /** The control lines `lambdaf` can drive: six boolean lines of the fetch phase and the two
      register-name lines of the execute phase. */
  datatype ControlSignals = ControlSignals(ipRead: Option<bool>, ipInc: Option<bool>, memRead: Option<bool>,
                                           mbrEnable: Option<bool>, irEnable: Option<bool>, irRead: Option<bool>,
                                           regEnableOut: Option<string>, regEnableIn: Option<string>)

  const Silent: ControlSignals := ControlSignals(None, None, None, None, None, None, None, None)

  /** `ControlUnit.lambdaf`: the one signal set each phase asserts before it is left. */
  function Signals(p: Phase): (o: ControlSignals)
    ensures o.ipRead != None <==> p == Fetch1
    ensures o.memRead != None <==> p == Fetch3
    ensures o.ipInc != None <==> p == Fetch3
    ensures o.mbrEnable != None <==> p == Fetch4
    ensures o.irEnable != None <==> p == Fetch5
    ensures o.irRead != None <==> p == Fetch6
    ensures o.regEnableOut != None <==> p == Exec2
    ensures o.regEnableIn != None <==> p == Exec4
    ensures o.ipRead != Some(false) && o.ipInc != Some(false) && o.memRead != Some(false)
    ensures o.mbrEnable != Some(false) && o.irEnable != Some(false) && o.irRead != Some(false)
    ensures o.regEnableOut != None ==> o.regEnableOut == Some(Decode(0x01).src)
    ensures o.regEnableIn != None ==> o.regEnableIn == Some(Decode(0x01).dst)
    ensures p == Idle || p == Exec1 || p == Exec3 || p == Exec5 || p == Done || p == Fetch2 ==> o == Silent
  {
    match p
    case Fetch1 => Silent.(ipRead := Some(true))
    case Fetch3 => Silent.(memRead := Some(true), ipInc := Some(true))
    case Fetch4 => Silent.(mbrEnable := Some(true))
    case Fetch5 => Silent.(irEnable := Some(true))
    case Fetch6 => Silent.(irRead := Some(true))
    case Exec2 => Silent.(regEnableOut := Some("BL"))
    case Exec4 => Silent.(regEnableIn := Some("AL"))
    case _ => Silent
  }

  // ---------------------------------------------------------------------------------------------
  // The component

  class ControlUnit {
    var phase: Phase
    var instructionCode: Byte
    var totalCycles: nat
    var fetchCycles: nat
    var executeCycles: nat
    var delay: Delay

    /** The cycle counters agree: every cycle counted is a fetch or an execute cycle. */
    predicate Valid()
      reads this
    {
      totalCycles == fetchCycles + executeCycles
    }

    constructor ()
      ensures phase == Idle && instructionCode == 0x00 && delay == Passive
      ensures totalCycles == 0 && fetchCycles == 0 && executeCycles == 0
      ensures Valid()
    {
      phase := Idle;
      instructionCode := 0x00;
      totalCycles, fetchCycles, executeCycles := 0, 0, 0;
      delay := Passive;
    }

    /** Enters FETCH1 for one time unit, counting that unit in advance; the execute counter is
        left as it is. */
    method Initialize()
      modifies this
      ensures phase == Fetch1 && delay == Hold(1)
      ensures totalCycles == 1 && fetchCycles == 1 && executeCycles == old(executeCycles)
      ensures instructionCode == old(instructionCode)
      ensures old(executeCycles) == 0 ==> Valid()
    {
      phase := Fetch1;
      totalCycles := 1;
      fetchCycles := 1;
      delay := Hold(1);
    }

    /** Latches the opcode arriving on `ir_in`, masked; nothing else changes. */
    method External(irIn: Option<int>)
      modifies this
      ensures instructionCode == if irIn.Some? then Mask(irIn.value) else old(instructionCode)
      ensures phase == old(phase) && delay == old(delay)
      ensures totalCycles == old(totalCycles) && fetchCycles == old(fetchCycles)
      ensures executeCycles == old(executeCycles)
    {
      if irIn.Some? {
        instructionCode := Mask(irIn.value);
      }
    }

    /** Leaves the current phase as `Transition` says; at EXEC1 also returns the decode record
        the source only logs. */
    method Internal() returns (decoded: Option<Instruction>)
      modifies this
      ensures var t := Transition(old(phase));
        && phase == t.next && delay == t.hold
        && fetchCycles == old(fetchCycles) + t.fetch
        && executeCycles == old(executeCycles) + t.execute
        && totalCycles == old(totalCycles) + t.fetch + t.execute
      ensures instructionCode == old(instructionCode)
      ensures decoded == if old(phase) == Exec1 then Some(Decode(instructionCode)) else None
      ensures old(Valid()) ==> Valid()
    {
      decoded := None;
      if phase == Fetch1 {
        phase := Fetch2;
        var cycles := 1;
        delay := Hold(cycles);
      } else if phase == Fetch2 {
        phase := Fetch3;
        var cycles := 1;
        fetchCycles := fetchCycles + cycles;
        totalCycles := totalCycles + cycles;
        delay := Hold(cycles);
      } else if phase == Fetch3 {
        phase := Fetch4;
        var cycles := 2;
        fetchCycles := fetchCycles + cycles;
        totalCycles := totalCycles + cycles;
        delay := Hold(cycles);
      } else if phase == Fetch4 {
        phase := Fetch5;
        var cycles := 1;
        fetchCycles := fetchCycles + cycles;
        totalCycles := totalCycles + cycles;
        delay := Hold(cycles);
      } else if phase == Fetch5 {
        phase := Fetch6;
        var cycles := 2;
        fetchCycles := fetchCycles + cycles;
        totalCycles := totalCycles + cycles;
        delay := Hold(cycles);
      } else if phase == Fetch6 {
        phase := Exec1;
        var cycles := 1;
        fetchCycles := fetchCycles + cycles;
        totalCycles := totalCycles + cycles;
        delay := Hold(cycles);
      } else if phase == Exec1 {
        decoded := Some(Decode(instructionCode));
        phase := Exec2;
        var cycles := 1;
        executeCycles := executeCycles + cycles;
        totalCycles := totalCycles + cycles;
        delay := Hold(cycles);
      } else if phase == Exec2 {
        phase := Exec3;
        var cycles := 1;
        executeCycles := executeCycles + cycles;
        totalCycles := totalCycles + cycles;
        delay := Hold(cycles);
      } else if phase == Exec3 {
        phase := Exec4;
        var cycles := 2;
        executeCycles := executeCycles + cycles;
        totalCycles := totalCycles + cycles;
        delay := Hold(cycles);
      } else if phase == Exec4 {
        phase := Exec5;
        var cycles := 1;
        executeCycles := executeCycles + cycles;
        totalCycles := totalCycles + cycles;
        delay := Hold(cycles);
      } else if phase == Exec5 {
        var cycles := 1;
        executeCycles := executeCycles + cycles;
        totalCycles := totalCycles + cycles;
        phase := Done;
        delay := Hold(cycles);
      } else if phase == Done {
        delay := Passive;
      } else {
        delay := Passive;
      }
    }
  }

  /** Drives a fresh control unit from `initialize` by internal transitions alone until it
      passivates. It takes twelve transitions (FETCH1 to EXEC5, then DONE), ends in DONE with
      8 fetch, 6 execute and 14 total cycles counted, and the holds it requested, starting with
      initialization's, end at time unit 15: the last transition's own cycle is not counted. */
  method RunInstructionCycle() returns (transitions: nat, fetch: nat, execute: nat, total: nat,
                                        finalPhase: Phase, clock: nat)
    ensures transitions == 12 && finalPhase == Done
    ensures fetch == 1 + FetchSum(Cycle) == 8
    ensures execute == ExecuteSum(Cycle) == 6
    ensures total == fetch + execute == 14
    ensures clock == 1 + HoldSum(Cycle) == 15
  {
    var cu := new ControlUnit();
    cu.Initialize();
    transitions, clock := 0, 1;
    while cu.delay != Passive
      invariant 0 <= transitions <= |Cycle|
      invariant transitions < |Cycle| ==> cu.phase == Cycle[transitions]
      invariant transitions == |Cycle| ==> cu.phase == Done
      invariant cu.delay == Passive <==> transitions == |Cycle|
      invariant cu.fetchCycles == 1 + FetchSum(Cycle[..transitions])
      invariant cu.executeCycles == ExecuteSum(Cycle[..transitions])
      invariant cu.Valid()
      invariant clock == 1 + HoldSum(Cycle[..transitions])
      decreases |Cycle| - transitions
    {
      ghost var leaving := Cycle[transitions];
      var _ := cu.Internal();
      assert Cycle[..transitions + 1][..transitions] == Cycle[..transitions];
      if cu.delay.Hold? {
        clock := clock + cu.delay.n;
      }
      transitions := transitions + 1;
      if transitions < |Cycle| {
        CycleIndexed();
        assert cu.phase == Cycle[transitions];
      }
    }
    assert Cycle[..transitions] == Cycle;
    CycleTally();
    fetch, execute, total, finalPhase := cu.fetchCycles, cu.executeCycles, cu.totalCycles, cu.phase;
  }
}
