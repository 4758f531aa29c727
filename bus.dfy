/** The shared-bus arbiter: a requester claims the line, is granted it, and holds it until a
    release; data delivered meanwhile is relayed. It is defined but never wired into the system. */
module Bus {
  import opened Common

  /** The arbiter's state: the last data byte, the lock and its holder, the two armed outputs
      and the scheduling request. */
  datatype BusState = BusState(currentValue: Byte, locked: bool, requester: string,
                               pendingGrant: bool, pendingData: bool, delay: Delay)

  /** One delivery to the arbiter: the `req`, `release` and `data_in` ports. */
  datatype BusInput = BusInput(req: Option<string>, release: Option<bool>, dataIn: Option<int>)

  /** `SharedBus.deltext`, in the source's order: a request on a free line locks it for the
      requester and arms a grant after one time unit (a request on a held line is ignored);
      then a release carrying True frees the line; then data is captured (masked) and armed
      for relay at once. */
  function BusExternal(s: BusState, input: BusInput): BusState
  {
    var requested := if input.req.Some? && !s.locked
      then s.(requester := input.req.value, locked := true, pendingGrant := true, delay := Hold(1)) else s;
    var released := if input.release == Some(true)
      then requested.(locked := false, requester := "") else requested;
    if input.dataIn.Some?
    then released.(currentValue := Mask(input.dataIn.value), pendingData := true, delay := Active)
    else released
  }

  /** `SharedBus.deltint`: disarm both outputs and passivate; the lock is left as it is. */
  function BusInternal(s: BusState): BusState
  {
    s.(pendingGrant := false, pendingData := false, delay := Passive)
  }

  /** What `SharedBus.lambdaf` puts on the `grant` and `data_out` ports. */
  datatype BusOutput = BusOutput(grant: Option<bool>, dataOut: Option<Byte>)

  function BusOutputOf(s: BusState): (o: BusOutput)
    ensures o.grant == Some(true) <==> s.pendingGrant
    ensures o.grant != Some(false)
    ensures o.dataOut.Some? <==> s.pendingData
    ensures o.dataOut.Some? ==> o.dataOut.value == s.currentValue
  {
    BusOutput(if s.pendingGrant then Some(true) else None,
              if s.pendingData then Some(s.currentValue) else None)
  }

  /** A request while the line is held changes neither the lock, nor its holder, nor the grant. */
  lemma RequestWhileLockedIgnored(s: BusState, r: string)
    requires s.locked
    ensures var t := BusExternal(s, BusInput(Some(r), None, None));
      t.locked && t.requester == s.requester && t.pendingGrant == s.pendingGrant && t == s
  {
  }

  /** A request on a free line takes it: locked, held by the requester, grant armed after one unit. */
  lemma RequestWhileFreeGranted(s: BusState, r: string)
    requires !s.locked
    ensures var t := BusExternal(s, BusInput(Some(r), None, None));
      && t.locked && t.requester == r && t.pendingGrant && t.delay == Hold(1)
      && BusOutputOf(t).grant == Some(true)
  {
  }

  /** Only a release carrying True frees a held line, and freeing it forgets the holder. */
  lemma OnlyTrueReleaseUnlocks(s: BusState, input: BusInput)
    requires s.locked
    ensures var t := BusExternal(s, input);
      && (!t.locked <==> input.release == Some(true))
      && (!t.locked ==> t.requester == "")
      && (t.locked ==> t.requester == s.requester)
  {
  }

  /** Data is relayed masked; the internal transition keeps the lock and disarms both outputs. */
  lemma RelayAndInternal(s: BusState, d: int)
    ensures BusOutputOf(BusExternal(s, BusInput(None, None, Some(d)))).dataOut == Some(Mask(d))
    ensures var t := BusInternal(s);
      && t.locked == s.locked && t.requester == s.requester
      && BusOutputOf(t) == BusOutput(None, None) && t.delay == Passive
  {
  }

  /** The steps the arbiter can take: a delivery, or an internal transition. */
  datatype BusEvent = Deliver(input: BusInput) | Fire

  function Replay(s: BusState, es: seq<BusEvent>): BusState
    decreases |es|
  {
    if es == [] then s
    else
      var next := match es[0]
        case Deliver(input) => BusExternal(s, input)
        case Fire => BusInternal(s);
      Replay(next, es[1..])
  }

  /** True when no delivery in `es` carries a True release. */
  predicate NoRelease(es: seq<BusEvent>)
  {
    forall i :: 0 <= i < |es| ==> es[i].Fire? || es[i].input.release != Some(true)
  }

  /** Mutual exclusion: once held, the line stays held by the same requester through any run of
      deliveries and internal transitions that carries no True release, whatever else is requested. */
  lemma {:induction false} HeldUntilReleased(s: BusState, es: seq<BusEvent>)
    requires s.locked
    requires NoRelease(es)
    ensures Replay(s, es).locked
    ensures Replay(s, es).requester == s.requester
    decreases |es|
  {
    if es != [] {
      var next := match es[0]
        case Deliver(input) => BusExternal(s, input)
        case Fire => BusInternal(s);
      assert next.locked && next.requester == s.requester;
      assert forall i :: 0 <= i < |es| - 1 ==> es[1..][i] == es[i + 1];
      HeldUntilReleased(next, es[1..]);
    }
  }

  class SharedBus {
    var currentValue: Byte
    var locked: bool
    var requester: string
    var pendingGrant: bool
    var pendingData: bool
    var delay: Delay

    function State(): BusState
      reads this
    {
      BusState(currentValue, locked, requester, pendingGrant, pendingData, delay)
    }

    constructor ()
      ensures State() == BusState(0x00, false, "", false, false, Passive)
    {
      currentValue, locked, requester := 0x00, false, "";
      pendingGrant, pendingData := false, false;
      delay := Passive;
    }

    method Initialize()
      modifies this
      ensures State() == old(State()).(delay := Passive)
    {
      delay := Passive;
    }

    method External(req: Option<string>, release: Option<bool>, dataIn: Option<int>)
      modifies this
      ensures State() == BusExternal(old(State()), BusInput(req, release, dataIn))
    {
      if req.Some? {
        if !locked {
          requester := req.value;
          locked := true;
          pendingGrant := true;
          delay := Hold(1);
        }
      }
      if release.Some? {
        if release.value {
          locked := false;
          requester := "";
        }
      }
      if dataIn.Some? {
        currentValue := Mask(dataIn.value);
        pendingData := true;
        delay := Active;
      }
    }

    method Internal()
      modifies this
      ensures State() == BusInternal(old(State()))
    {
      if pendingGrant {
        pendingGrant := false;
      }
      if pendingData {
        pendingData := false;
      }
      delay := Passive;
    }
  }
}
