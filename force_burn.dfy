/**
 * scripts/forceBurn.js: an agent burns 5 tokens from a target address with the
 * first burn method the token exposes, after informational reads, the optional
 * agent gate and a simulation of the chosen call.
 */
module ForceBurn {
  import opened Wrappers
  import opened Capability
  import opened Network
  import opened Submission
  import opened Gates

  const AMOUNT: nat := Units(5)

  const FORCED_BURN := "forcedBurn(address,uint256)"
  const FORCE_BURN := "forceBurn(address,uint256)"
  const BURN := "burn(address,uint256)"

  /** The burn methods, in order of preference. */
  const BURN_METHODS: seq<string> := [FORCED_BURN, FORCE_BURN, BURN]

  const DEPTHS: map<string, nat> := map[FORCED_BURN := 2, FORCE_BURN := 2, BURN := 2]

  /** The `if / else if` chain that picks `burnCall`. */
  function BurnMethod(fns: seq<string>): Option<string> {
    if Exposes(fns, FORCED_BURN) then Some(FORCED_BURN)
    else if Exposes(fns, FORCE_BURN) then Some(FORCE_BURN)
    else if Exposes(fns, BURN) then Some(BURN)
    else None
  }

  /** The chain is priority resolution over the three burn methods. */
  lemma BurnMethodIsResolution(fns: seq<string>)
    ensures BurnMethod(fns) == Chosen(fns, BURN_METHODS)
  {
    var r1 := BURN_METHODS[1..];
    var r2 := r1[1..];
    assert r1 == [FORCE_BURN, BURN] && r2 == [BURN] && r2[1..] == [];
    assert Resolve(fns, r2) == if Exposes(fns, BURN) then Some(0) else None;
    assert Resolve(fns, r1) == if Exposes(fns, FORCE_BURN) then Some(0)
      else if Exposes(fns, BURN) then Some(1) else None;
  }

  /** The choice depends only on which names are exposed. */
  lemma BurnMethodDeterministic(f1: seq<string>, f2: seq<string>)
    requires forall s :: s in f1 <==> s in f2
    ensures BurnMethod(f1) == BurnMethod(f2)
  {
    BurnMethodIsResolution(f1);
    BurnMethodIsResolution(f2);
    ResolveDependsOnlyOnNames(f1, f2, BURN_METHODS);
  }

  function BurnCall(token: Address, m: string, target: Address): Call {
    Invoke(token, m, [AddressArg(target), UintArg(AMOUNT)])
  }

  function Behaviour(token: Address, agent: Address, target: Address, fns: seq<string>, s: Session): Session {
    var s1 := Expect(s, token, Paused, Tolerate);
    var s2 := ReportVerification(s1, token, agent, target);
    var s3 := AgentGate(s2, token, agent, Exposes(fns, "isAgent("), Tolerate);
    if s3.stopped then s3 else Burning(token, target, fns, s3)
  }

  /** After the agent gate: balances, the choice of method, the burn, balances again. */
  function Burning(token: Address, target: Address, fns: seq<string>, s: Session): Session {
    var s1 := Expect(s, token, BalanceOf(target), Throw);
    if s1.stopped then s1
    else
      var s2 := Expect(s1, token, TotalSupply, Throw);
      if s2.stopped then s2 else Burn(token, target, fns, s2)
  }

  function Burn(token: Address, target: Address, fns: seq<string>, s: Session): Session {
    match BurnMethod(fns)
    case None => s.Halt(Exit, NotExposed(BURN_METHODS, fns))
    case Some(m) =>
      var s1 := Transaction(s, BurnCall(token, m, target), 2, Exit, Exit);
      if s1.stopped then s1
      else
        var s2 := Expect(s1, token, BalanceOf(target), Throw);
        if s2.stopped then s2 else Expect(s2, token, TotalSupply, Throw)
  }

  method Execute(r: Remote, token: Address, agent: Address, target: Address, fns: seq<string>)
    requires !r.stopped
    modifies r
    ensures r.State() == Behaviour(token, agent, target, fns, old(r.State()))
  {
    var _, _ := ExpectRead(r, token, Paused, Tolerate);
    ShowVerification(r, token, agent, target);
    var isAgent := CheckAgent(r, token, agent, Exposes(fns, "isAgent("), Tolerate);
    if !isAgent {
      return;
    }
    var ok, _ := ExpectRead(r, token, BalanceOf(target), Throw);
    if !ok {
      return;
    }
    var supplied, _ := ExpectRead(r, token, TotalSupply, Throw);
    if !supplied {
      return;
    }
    var m := BurnMethod(fns);
    if m.None? {
      r.Halt(Exit, NotExposed(BURN_METHODS, fns));
      return;
    }
    var landed, _ := Transact(r, BurnCall(token, m.value, target), 2, Exit, Exit);
    if !landed {
      return;
    }
    var after, _ := ExpectRead(r, token, BalanceOf(target), Throw);
    if after {
      var _, _ := ExpectRead(r, token, TotalSupply, Throw);
    }
  }

  lemma EndsProperly(token: Address, agent: Address, target: Address, fns: seq<string>, tape: seq<Reply>)
    ensures var r := Behaviour(token, agent, target, fns, Start(tape)); r.Going() || r.Ended()
  {
  }

  /** The burn is submitted only right after a passing simulation of the same
      method with the same arguments. */
  lemma BurnPreflighted(token: Address, agent: Address, target: Address, fns: seq<string>, tape: seq<Reply>)
    ensures Preflighted(Behaviour(token, agent, target, fns, Start(tape)).acts)
  {
  }

  lemma BurnAwaited(token: Address, agent: Address, target: Address, fns: seq<string>, tape: seq<Reply>)
    ensures AwaitedTo(Behaviour(token, agent, target, fns, Start(tape)).acts, DEPTHS)
  {
    var m := BurnMethod(fns);
    assert m.Some? ==> Name(BurnCall(token, m.value, target)) in DEPTHS && DEPTHS[Name(BurnCall(token, m.value, target))] == 2;
    assert AwaitedTo([], DEPTHS);
  }

  /** With no burn method, the run aborts naming the three candidates and the
      exposed list, having simulated and sent nothing. */
  lemma NoMethodAborts(token: Address, target: Address, fns: seq<string>, s: Session)
    requires BurnMethod(fns).None?
    ensures Burn(token, target, fns, s).acts == s.acts + [Abort(NotExposed(BURN_METHODS, fns))]
  {
  }

  lemma NonAgentAborts(token: Address, agent: Address, target: Address, fns: seq<string>, s: Session)
    requires Exposes(fns, "isAgent(") && s.Heard() == Bool(false) && !s.stopped
    ensures AgentGate(s, token, agent, Exposes(fns, "isAgent("), Tolerate).acts
      == s.acts + [Probe(token, IsAgent(agent), Bool(false)), Abort(NotAgent)]
  {
  }

  /** A failed `isAgent` call is swallowed: it leaves only its probe. */
  lemma AgentErrorIgnored(token: Address, agent: Address, fns: seq<string>, s: Session)
    requires Exposes(fns, "isAgent(") && !s.Heard().Bool?
    ensures AgentGate(s, token, agent, Exposes(fns, "isAgent("), Tolerate) == s.Read(token, IsAgent(agent))
  {
  }

  /** The informational reads never stop the run: whatever the paused and
      registry reads answer, the run reaches the agent gate. */
  lemma InformationalReadsNeverStop(token: Address, agent: Address, target: Address, s: Session)
    requires s.Going()
    ensures ReportVerification(Expect(s, token, Paused, Tolerate), token, agent, target).Going()
  {
  }

  /** A balance below the amount changes nothing: the run goes on to the choice
      of method, as with any other balance. */
  lemma LowBalanceOnlyWarns(token: Address, target: Address, fns: seq<string>, s: Session, b: nat, t: nat, rest: seq<Reply>)
    requires s.rest == [Amount(b), Amount(t)] + rest && !s.stopped && b < AMOUNT
    ensures Burning(token, target, fns, s) == Burn(token, target, fns, s.Read(token, BalanceOf(target)).Read(token, TotalSupply))
  {
    assert Rest(s.rest) == [Amount(t)] + rest;
  }

  /** A failed simulation aborts with nothing sent. */
  lemma RevertedBurnAborts(token: Address, target: Address, fns: seq<string>, s: Session, why: string)
    requires BurnMethod(fns).Some? && s.Heard() == Failed(why)
    ensures var c := BurnCall(token, BurnMethod(fns).value, target);
      Burn(token, target, fns, s).acts == s.acts + [Action.Simulate(c, Failed(why)), Abort(Reverted(c, why))]
  {
  }
}
