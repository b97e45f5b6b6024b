/**
 * scripts/forceTransfer.js: an agent moves 5 tokens from one address to
 * another with the first forced-transfer method the token exposes, after
 * informational reads, the optional agent gate and a simulation.
 */
module ForceTransfer {
  import opened Wrappers
  import opened Capability
  import opened Network
  import opened Submission
  import opened Gates

  const AMOUNT: nat := Units(5)

  const FORCED_TRANSFER := "forcedTransfer(address,address,uint256)"
  const FORCE_TRANSFER := "forceTransfer(address,address,uint256)"

  /** The forced-transfer methods, in order of preference. */
  const TRANSFER_METHODS: seq<string> := [FORCED_TRANSFER, FORCE_TRANSFER]

  const DEPTHS: map<string, nat> := map[FORCED_TRANSFER := 2, FORCE_TRANSFER := 2]

  /** The `if / else if` chain that picks `call`, with the two-part `has`. */
  function TransferMethod(fns: seq<string>): Option<string> {
    if ExposesExactOrPrefix(fns, FORCED_TRANSFER) then Some(FORCED_TRANSFER)
    else if ExposesExactOrPrefix(fns, FORCE_TRANSFER) then Some(FORCE_TRANSFER)
    else None
  }

  /** The chain is priority resolution over the two methods. */
  lemma TransferMethodIsResolution(fns: seq<string>)
    ensures TransferMethod(fns) == Chosen(fns, TRANSFER_METHODS)
  {
    ExactOrPrefixIsPrefix(fns, FORCED_TRANSFER);
    ExactOrPrefixIsPrefix(fns, FORCE_TRANSFER);
    var r1 := TRANSFER_METHODS[1..];
    assert r1 == [FORCE_TRANSFER] && r1[1..] == [];
    assert Resolve(fns, r1) == if Exposes(fns, FORCE_TRANSFER) then Some(0) else None;
  }

  /** `forceTransfer` is chosen exactly when `forcedTransfer` is absent and it is
      present. */
  lemma FallbackOnlyWhenPreferredAbsent(fns: seq<string>)
    ensures TransferMethod(fns) == Some(FORCE_TRANSFER)
      <==> !ExposesExactOrPrefix(fns, FORCED_TRANSFER) && ExposesExactOrPrefix(fns, FORCE_TRANSFER)
  {
  }

  function TransferCall(token: Address, m: string, from: Address, to: Address): Call {
    Invoke(token, m, [AddressArg(from), AddressArg(to), UintArg(AMOUNT)])
  }

  function Behaviour(token: Address, agent: Address, from: Address, to: Address, fns: seq<string>, s: Session): Session {
    var s1 := Expect(s, token, Paused, Tolerate);
    var s2 := ReportVerification(s1, token, from, to);
    var s3 := AgentGate(s2, token, agent, ExposesExactOrPrefix(fns, "isAgent("), Tolerate);
    if s3.stopped then s3 else Transferring(token, from, to, fns, s3)
  }

  /** After the agent gate: both balances, then the transfer. */
  function Transferring(token: Address, from: Address, to: Address, fns: seq<string>, s: Session): Session {
    var s1 := Expect(s, token, BalanceOf(from), Throw);
    if s1.stopped then s1
    else
      var s2 := Expect(s1, token, BalanceOf(to), Throw);
      if s2.stopped then s2 else Transfer(token, from, to, fns, s2)
  }

  /** The choice of method, the transfer, and both balances again. */
  function Transfer(token: Address, from: Address, to: Address, fns: seq<string>, s: Session): Session {
    match TransferMethod(fns)
    case None => s.Halt(Exit, NotExposed(TRANSFER_METHODS, fns))
    case Some(m) =>
      var s1 := Transaction(s, TransferCall(token, m, from, to), 2, Exit, Exit);
      if s1.stopped then s1
      else
        var s2 := Expect(s1, token, BalanceOf(from), Throw);
        if s2.stopped then s2 else Expect(s2, token, BalanceOf(to), Throw)
  }

  method Execute(r: Remote, token: Address, agent: Address, from: Address, to: Address, fns: seq<string>)
    requires !r.stopped
    modifies r
    ensures r.State() == Behaviour(token, agent, from, to, fns, old(r.State()))
  {
    var _, _ := ExpectRead(r, token, Paused, Tolerate);
    ShowVerification(r, token, from, to);
    var isAgent := CheckAgent(r, token, agent, ExposesExactOrPrefix(fns, "isAgent("), Tolerate);
    if !isAgent {
      return;
    }
    var ok, _ := ExpectRead(r, token, BalanceOf(from), Throw);
    if !ok {
      return;
    }
    var ok', _ := ExpectRead(r, token, BalanceOf(to), Throw);
    if !ok' {
      return;
    }
    var m := TransferMethod(fns);
    if m.None? {
      r.Halt(Exit, NotExposed(TRANSFER_METHODS, fns));
      return;
    }
    var landed, _ := Transact(r, TransferCall(token, m.value, from, to), 2, Exit, Exit);
    if !landed {
      return;
    }
    var after, _ := ExpectRead(r, token, BalanceOf(from), Throw);
    if after {
      var _, _ := ExpectRead(r, token, BalanceOf(to), Throw);
    }
  }

  lemma EndsProperly(token: Address, agent: Address, from: Address, to: Address, fns: seq<string>, tape: seq<Reply>)
    ensures var r := Behaviour(token, agent, from, to, fns, Start(tape)); r.Going() || r.Ended()
  {
  }

  /** The transfer is submitted only right after a passing simulation of the
      same method with the same `(from, to, amount)`. */
  lemma TransferPreflighted(token: Address, agent: Address, from: Address, to: Address, fns: seq<string>, tape: seq<Reply>)
    ensures Preflighted(Behaviour(token, agent, from, to, fns, Start(tape)).acts)
  {
  }

  lemma TransferAwaited(token: Address, agent: Address, from: Address, to: Address, fns: seq<string>, tape: seq<Reply>)
    ensures AwaitedTo(Behaviour(token, agent, from, to, fns, Start(tape)).acts, DEPTHS)
  {
    var m := TransferMethod(fns);
    assert m.Some? ==>
      Name(TransferCall(token, m.value, from, to)) in DEPTHS && DEPTHS[Name(TransferCall(token, m.value, from, to))] == 2;
    assert AwaitedTo([], DEPTHS);
  }

  /** With neither method, the run aborts naming both and the exposed list. */
  lemma NoMethodAborts(token: Address, from: Address, to: Address, fns: seq<string>, s: Session)
    requires TransferMethod(fns).None?
    ensures Transfer(token, from, to, fns, s).acts == s.acts + [Abort(NotExposed(TRANSFER_METHODS, fns))]
  {
  }

  lemma NonAgentAborts(token: Address, agent: Address, fns: seq<string>, s: Session)
    requires ExposesExactOrPrefix(fns, "isAgent(") && s.Heard() == Bool(false) && !s.stopped
    ensures AgentGate(s, token, agent, ExposesExactOrPrefix(fns, "isAgent("), Tolerate).acts
      == s.acts + [Probe(token, IsAgent(agent), Bool(false)), Abort(NotAgent)]
  {
  }

  /** A failed `isAgent` call is ignored: it leaves only its probe. */
  lemma AgentErrorIgnored(token: Address, agent: Address, fns: seq<string>, s: Session)
    requires ExposesExactOrPrefix(fns, "isAgent(") && !s.Heard().Bool?
    ensures AgentGate(s, token, agent, ExposesExactOrPrefix(fns, "isAgent("), Tolerate) == s.Read(token, IsAgent(agent))
  {
  }

  /** An insufficient `from` balance changes nothing: the run goes on to the
      choice of method, as with any other balance. */
  lemma LowBalanceOnlyWarns(token: Address, from: Address, to: Address, fns: seq<string>, s: Session,
                            b: nat, b': nat, rest: seq<Reply>)
    requires s.rest == [Amount(b), Amount(b')] + rest && !s.stopped && b < AMOUNT
    ensures Transferring(token, from, to, fns, s)
      == Transfer(token, from, to, fns, s.Read(token, BalanceOf(from)).Read(token, BalanceOf(to)))
  {
    var s1 := s.Read(token, BalanceOf(from));
    assert Rest(s.rest) == [Amount(b')] + rest;
    assert Expect(s, token, BalanceOf(from), Throw) == s1;
    assert Expect(s1, token, BalanceOf(to), Throw) == s1.Read(token, BalanceOf(to));
  }

  lemma RevertedTransferAborts(token: Address, from: Address, to: Address, fns: seq<string>, s: Session, why: string)
    requires TransferMethod(fns).Some? && s.Heard() == Failed(why)
    ensures var c := TransferCall(token, TransferMethod(fns).value, from, to);
      Transfer(token, from, to, fns, s).acts == s.acts + [Action.Simulate(c, Failed(why)), Abort(Reverted(c, why))]
  {
  }
}
