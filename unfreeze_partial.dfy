/**
 * scripts/unfreezePartial.js: unfreeze 5 tokens of a target address. The
 * frozen-balance getter is chosen among those the token exposes; the agent gate
 * and every step after the simulation are uncaught, so their errors are fatal.
 */
module UnfreezePartial {
  import opened Wrappers
  import opened Capability
  import opened Network
  import opened Submission
  import opened Gates

  const AMOUNT: nat := Units(5)

  function UnfreezeCall(token: Address, target: Address): Call {
    Invoke(token, "unfreezePartialTokens", [AddressArg(target), UintArg(AMOUNT)])
  }

  const DEPTHS: map<string, nat> := map["unfreezePartialTokens" := 2]

  /** The frozen-balance getters, in order of preference. */
  const FROZEN_GETTERS: seq<string> := ["tokensFrozen(", "frozenTokens("]

  /** `tokensFrozen` if exposed, else `frozenTokens` if exposed, else none. */
  function FrozenGetter(fns: seq<string>): Option<string> {
    if Exposes(fns, "tokensFrozen(") then Some("tokensFrozen(")
    else if Exposes(fns, "frozenTokens(") then Some("frozenTokens(")
    else None
  }

  /** The getter choice is priority resolution over the two getters. */
  lemma FrozenGetterIsResolution(fns: seq<string>)
    ensures FrozenGetter(fns) == Chosen(fns, FROZEN_GETTERS)
  {
    var rest := FROZEN_GETTERS[1..];
    assert rest == ["frozenTokens("] && rest[1..] == [];
    assert Resolve(fns, rest) == if Exposes(fns, "frozenTokens(") then Some(0) else None;
  }

  /** The balance, and the frozen balance when a getter exists. */
  function Balances(token: Address, target: Address, getter: Option<string>, s: Session): (r: Session)
    ensures Keeps(s, r)
  {
    var s1 := Expect(s, token, BalanceOf(target), Throw);
    if s1.stopped || getter.None? then s1 else Expect(s1, token, Frozen(getter.value, target), Throw)
  }

  function Behaviour(token: Address, agent: Address, target: Address, fns: seq<string>, s: Session): Session {
    var s1 := Expect(s, token, Paused, Tolerate);
    if !Exposes(fns, "unfreezePartialTokens(") then s1.Halt(Exit, NotExposed(["unfreezePartialTokens("], fns))
    else
      var s2 := AgentGate(s1, token, agent, Exposes(fns, "isAgent("), Throw);
      if s2.stopped then s2 else Unfreezing(token, target, FrozenGetter(fns), s2)
  }

  /** After the gates: balances, the unfreeze, balances again. */
  function Unfreezing(token: Address, target: Address, getter: Option<string>, s: Session): Session {
    var s1 := Balances(token, target, getter, s);
    if s1.stopped then s1
    else
      var s2 := Transaction(s1, UnfreezeCall(token, target), 2, Exit, Throw);
      if s2.stopped then s2 else Balances(token, target, getter, s2)
  }

  method ReadBalances(r: Remote, token: Address, target: Address, getter: Option<string>) returns (ok: bool)
    requires !r.stopped
    modifies r
    ensures r.State() == Balances(token, target, getter, old(r.State()))
    ensures ok == !r.stopped
  {
    var balance: Reply;
    ok, balance := ExpectRead(r, token, BalanceOf(target), Throw);
    if ok && getter.Some? {
      var frozen: Reply;
      ok, frozen := ExpectRead(r, token, Frozen(getter.value, target), Throw);
    }
  }

  method Execute(r: Remote, token: Address, agent: Address, target: Address, fns: seq<string>)
    requires !r.stopped
    modifies r
    ensures r.State() == Behaviour(token, agent, target, fns, old(r.State()))
  {
    var getter := FrozenGetter(fns);
    var _, _ := ExpectRead(r, token, Paused, Tolerate);
    if !Exposes(fns, "unfreezePartialTokens(") {
      r.Halt(Exit, NotExposed(["unfreezePartialTokens("], fns));
      return;
    }
    var isAgent := CheckAgent(r, token, agent, Exposes(fns, "isAgent("), Throw);
    if !isAgent {
      return;
    }
    var before := ReadBalances(r, token, target, getter);
    if !before {
      return;
    }
    var landed, _ := Transact(r, UnfreezeCall(token, target), 2, Exit, Throw);
    if landed {
      var _ := ReadBalances(r, token, target, getter);
    }
  }

  lemma EndsProperly(token: Address, agent: Address, target: Address, fns: seq<string>, tape: seq<Reply>)
    ensures var r := Behaviour(token, agent, target, fns, Start(tape)); r.Going() || r.Ended()
  {
  }

  lemma UnfreezePreflighted(token: Address, agent: Address, target: Address, fns: seq<string>, tape: seq<Reply>)
    ensures Preflighted(Behaviour(token, agent, target, fns, Start(tape)).acts)
  {
  }

  lemma UnfreezeAwaited(token: Address, agent: Address, target: Address, fns: seq<string>, tape: seq<Reply>)
    ensures AwaitedTo(Behaviour(token, agent, target, fns, Start(tape)).acts, DEPTHS)
  {
    assert Name(UnfreezeCall(token, target)) in DEPTHS && DEPTHS[Name(UnfreezeCall(token, target))] == 2;
    assert AwaitedTo([], DEPTHS);
  }

  /** Without a getter no frozen balance is read: the run asks the token only
      for functions it exposes. */
  lemma NoGetterNoFrozenRead(token: Address, target: Address, s: Session)
    ensures Balances(token, target, None, s) == Expect(s, token, BalanceOf(target), Throw)
  {
  }

  /** Without the capability the run aborts after the paused read, whatever it
      answered. */
  lemma NotExposedAborts(token: Address, agent: Address, target: Address, fns: seq<string>, p: Reply, rest: seq<Reply>)
    requires !Exposes(fns, "unfreezePartialTokens(")
    ensures Behaviour(token, agent, target, fns, Start([p] + rest)).acts
      == [Probe(token, Paused, p), Abort(NotExposed(["unfreezePartialTokens("], fns))]
  {
  }

  /** A definite non-agent answer aborts... */
  lemma NonAgentAborts(token: Address, agent: Address, target: Address, fns: seq<string>, p: Reply, rest: seq<Reply>)
    requires Exposes(fns, "unfreezePartialTokens(") && Exposes(fns, "isAgent(")
    ensures Behaviour(token, agent, target, fns, Start([p, Bool(false)] + rest)).acts
      == [Probe(token, Paused, p), Probe(token, IsAgent(agent), Bool(false)), Abort(NotAgent)]
  {
    assert ([p, Bool(false)] + rest)[1..] == [Bool(false)] + rest;
  }

  /** ...and, unlike the other scripts, a failed `isAgent` call is fatal. */
  lemma AgentErrorIsFatal(token: Address, agent: Address, target: Address, fns: seq<string>, p: Reply, why: string, rest: seq<Reply>)
    requires Exposes(fns, "unfreezePartialTokens(") && Exposes(fns, "isAgent(")
    ensures Behaviour(token, agent, target, fns, Start([p, Failed(why)] + rest)).acts
      == [Probe(token, Paused, p), Probe(token, IsAgent(agent), Failed(why)), Fatal(ReadFailed(IsAgent(agent), why))]
  {
    assert ([p, Failed(why)] + rest)[1..] == [Failed(why)] + rest;
  }

  /** A failed simulation aborts with nothing submitted; a failed submission is fatal. */
  lemma RevertedUnfreezeAborts(token: Address, target: Address, s: Session, b: nat, why: string, rest: seq<Reply>)
    requires s.rest == [Amount(b), Failed(why)] + rest && !s.stopped
    ensures Unfreezing(token, target, None, s).acts
      == s.acts + [Probe(token, BalanceOf(target), Amount(b)), Action.Simulate(UnfreezeCall(token, target), Failed(why)),
                   Abort(Reverted(UnfreezeCall(token, target), why))]
  {
  }

  lemma FailedSendIsFatal(token: Address, target: Address, s: Session, b: nat, why: string, rest: seq<Reply>)
    requires s.rest == [Amount(b), Ok, Failed(why)] + rest && !s.stopped
    ensures Unfreezing(token, target, None, s).acts
      == s.acts + [Probe(token, BalanceOf(target), Amount(b)), Action.Simulate(UnfreezeCall(token, target), Ok),
                   Action.Submit(UnfreezeCall(token, target), Failed(why)),
                   Fatal(TxFailed(UnfreezeCall(token, target), why))]
  {
  }
}
