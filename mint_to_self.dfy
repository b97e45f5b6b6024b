/**
 * scripts/mintToSelf.js: an agent mints 1000 tokens to a recipient after four
 * ordered gates (mint exposed, not paused, signer is agent, recipient verified),
 * then simulates the mint, submits it and awaits it to depth 2.
 */
module MintToSelf {
  import opened Capability
  import opened Network
  import opened Submission
  import opened Gates

  const AMOUNT: nat := Units(1000)

  /** `token.mint(RECIPIENT, amount)`, simulated and submitted alike. */
  function MintCall(token: Address, recipient: Address): Call {
    Invoke(token, "mint", [AddressArg(recipient), UintArg(AMOUNT)])
  }

  const DEPTHS: map<string, nat> := map["mint" := 2]

  /** The whole run, from a session that has not stopped. */
  function Behaviour(token: Address, agent: Address, recipient: Address, fns: seq<string>, s: Session): Session {
    if !Exposes(fns, "mint(") then s.Halt(Exit, NotExposed(["mint("], fns))
    else
      var paused := s.Heard();
      var s1 := s.Read(token, Paused);
      if paused == Bool(true) then s1.Halt(Exit, TokenPaused)
      else Checked(token, agent, recipient, fns, s1)
  }

  /** After the paused check: the agent and recipient gates. */
  function Checked(token: Address, agent: Address, recipient: Address, fns: seq<string>, s: Session): (r: Session)
    ensures s.Going() ==> r.Going() || r.Ended()
    ensures forall u :: PreflightedExcept(s.acts, u) ==> PreflightedExcept(r.acts, u)
    ensures forall d :: AwaitedTo(s.acts, d) && "mint" in d && d["mint"] == 2 ==> AwaitedTo(r.acts, d)
  {
    var s1 := AgentGate(s, token, agent, Exposes(fns, "isAgent("), Tolerate);
    if s1.stopped then s1
    else
      var s2 := RecipientGate(s1, token, recipient);
      if s2.stopped then s2 else Minting(token, recipient, s2)
  }

  /** The recipient check: an unverified answer aborts, a failed registry query
      is skipped. */
  function RecipientGate(s: Session, token: Address, recipient: Address): (r: Session)
    ensures Keeps(s, r)
  {
    var irRep := s.Heard();
    var s1 := s.Read(token, IdentityRegistry);
    if !irRep.Addr? then s1
    else
      var v := s1.Heard();
      var s2 := s1.Read(irRep.a, IsVerified(recipient));
      if v == Bool(false) then s2.Halt(Exit, NotVerified(recipient)) else s2
  }

  /** After the gates: balances before, the mint, balances after. */
  function Minting(token: Address, recipient: Address, s: Session): (r: Session)
    ensures s.Going() ==> r.Going() || r.Ended()
    ensures forall u :: PreflightedExcept(s.acts, u) ==> PreflightedExcept(r.acts, u)
    ensures forall d :: AwaitedTo(s.acts, d) && "mint" in d && d["mint"] == 2 ==> AwaitedTo(r.acts, d)
  {
    var s1 := Expect(s, token, BalanceOf(recipient), Throw);
    if s1.stopped then s1
    else
      var s2 := Expect(s1, token, TotalSupply, Throw);
      if s2.stopped then s2
      else
        var s3 := Transaction(s2, MintCall(token, recipient), 2, Exit, Exit);
        if s3.stopped then s3
        else
          var s4 := Expect(s3, token, BalanceOf(recipient), Throw);
          if s4.stopped then s4 else Expect(s4, token, TotalSupply, Throw)
  }

  method Execute(r: Remote, token: Address, agent: Address, recipient: Address, fns: seq<string>)
    requires !r.stopped
    modifies r
    ensures r.State() == Behaviour(token, agent, recipient, fns, old(r.State()))
  {
    if !Exposes(fns, "mint(") {
      r.Halt(Exit, NotExposed(["mint("], fns));
      return;
    }
    var paused := r.Read(token, Paused);
    if paused == Bool(true) {
      r.Halt(Exit, TokenPaused);
      return;
    }
    var isAgent := CheckAgent(r, token, agent, Exposes(fns, "isAgent("), Tolerate);
    if !isAgent {
      return;
    }
    var irRep := r.Read(token, IdentityRegistry);
    if irRep.Addr? {
      var verified := r.Read(irRep.a, IsVerified(recipient));
      if verified == Bool(false) {
        r.Halt(Exit, NotVerified(recipient));
        return;
      }
    }
    var ok, _ := ExpectRead(r, token, BalanceOf(recipient), Throw);
    if !ok {
      return;
    }
    var supplied, _ := ExpectRead(r, token, TotalSupply, Throw);
    if !supplied {
      return;
    }
    var landed, _ := Transact(r, MintCall(token, recipient), 2, Exit, Exit);
    if !landed {
      return;
    }
    var after, _ := ExpectRead(r, token, BalanceOf(recipient), Throw);
    if after {
      var _, _ := ExpectRead(r, token, TotalSupply, Throw);
    }
  }

  // ---------------------------------------------------------------------------
  // Trace discipline, for every answer of the remote

  /** The run stops only on its last step, right after a failure or a gate. */
  lemma EndsProperly(token: Address, agent: Address, recipient: Address, fns: seq<string>, tape: seq<Reply>)
    ensures var r := Behaviour(token, agent, recipient, fns, Start(tape)); r.Going() || r.Ended()
  {
  }

  /** The mint is submitted only right after a passing simulation of the same call. */
  lemma MintPreflighted(token: Address, agent: Address, recipient: Address, fns: seq<string>, tape: seq<Reply>)
    ensures Preflighted(Behaviour(token, agent, recipient, fns, Start(tape)).acts)
  {
  }

  /** Only the mint is submitted, and once accepted it is awaited to depth 2. */
  lemma MintAwaited(token: Address, agent: Address, recipient: Address, fns: seq<string>, tape: seq<Reply>)
    ensures AwaitedTo(Behaviour(token, agent, recipient, fns, Start(tape)).acts, DEPTHS)
  {
    assert Name(MintCall(token, recipient)) in DEPTHS && DEPTHS[Name(MintCall(token, recipient))] == 2;
    assert AwaitedTo([], DEPTHS);
  }

  // ---------------------------------------------------------------------------
  // The gates, in order

  lemma NoMintAborts(token: Address, agent: Address, recipient: Address, fns: seq<string>, tape: seq<Reply>)
    requires !Exposes(fns, "mint(")
    ensures Behaviour(token, agent, recipient, fns, Start(tape)).acts == [Abort(NotExposed(["mint("], fns))]
  {
  }

  lemma PausedAborts(token: Address, agent: Address, recipient: Address, fns: seq<string>, rest: seq<Reply>)
    requires Exposes(fns, "mint(")
    ensures Behaviour(token, agent, recipient, fns, Start([Bool(true)] + rest)).acts
      == [Probe(token, Paused, Bool(true)), Abort(TokenPaused)]
  {
  }

  /** Any other answer to `paused()`, a failed read included, goes on to the
      agent gate. */
  lemma UnpausedContinues(token: Address, agent: Address, recipient: Address, fns: seq<string>, p: Reply, rest: seq<Reply>)
    requires Exposes(fns, "mint(") && p != Bool(true)
    ensures Behaviour(token, agent, recipient, fns, Start([p] + rest))
      == Checked(token, agent, recipient, fns, Session([Probe(token, Paused, p)], rest, false))
  {
    var s0 := Start([p] + rest);
    assert ([p] + rest)[1..] == rest;
    assert s0.Heard() == p;
    assert s0.Read(token, Paused) == Session([Probe(token, Paused, p)], rest, false);
  }

  lemma NonAgentAborts(token: Address, agent: Address, recipient: Address, fns: seq<string>, s: Session)
    requires Exposes(fns, "isAgent(") && s.Heard() == Bool(false) && !s.stopped
    ensures Checked(token, agent, recipient, fns, s).acts
      == s.acts + [Probe(token, IsAgent(agent), Bool(false)), Abort(NotAgent)]
  {
  }

  /** A failed `isAgent` call is ignored: the run goes on to the recipient gate. */
  lemma AgentErrorIgnored(token: Address, agent: Address, recipient: Address, fns: seq<string>, s: Session)
    requires Exposes(fns, "isAgent(") && !s.Heard().Bool? && !s.stopped
    ensures var s1 := s.Read(token, IsAgent(agent)); var s2 := RecipientGate(s1, token, recipient);
      Checked(token, agent, recipient, fns, s) == if s2.stopped then s2 else Minting(token, recipient, s2)
  {
  }

  lemma UnverifiedAborts(token: Address, recipient: Address, s: Session, ir: Address, rest: seq<Reply>)
    requires s.rest == [Addr(ir), Bool(false)] + rest
    ensures RecipientGate(s, token, recipient)
      == Session(s.acts + [Probe(token, IdentityRegistry, Addr(ir)), Probe(ir, IsVerified(recipient), Bool(false)),
                           Abort(NotVerified(recipient))], rest, true)
  {
  }

  /** A failed registry query skips the recipient check: only a definite
      `false` from the registry can block the mint. */
  lemma RegistryErrorSkipped(token: Address, recipient: Address, s: Session)
    requires !s.Heard().Addr?
    ensures RecipientGate(s, token, recipient) == s.Read(token, IdentityRegistry)
  {
  }

  /** A failed simulation aborts: nothing is submitted. */
  lemma RevertedMintAborts(token: Address, recipient: Address, s: Session, b: nat, t: nat, why: string, rest: seq<Reply>)
    requires s.rest == [Amount(b), Amount(t), Failed(why)] + rest && !s.stopped
    ensures Minting(token, recipient, s).acts
      == s.acts + [Probe(token, BalanceOf(recipient), Amount(b)), Probe(token, TotalSupply, Amount(t)),
                   Action.Simulate(MintCall(token, recipient), Failed(why)),
                   Abort(Reverted(MintCall(token, recipient), why))]
  {
  }

  /** With every gate passed, the run reaches the minting step. */
  lemma GatesPass(token: Address, agent: Address, recipient: Address, fns: seq<string>, s: Session, ir: Address, rest: seq<Reply>)
    requires Exposes(fns, "isAgent(") && !s.stopped && s.rest == [Bool(true), Addr(ir), Bool(true)] + rest
    ensures Checked(token, agent, recipient, fns, s)
      == Minting(token, recipient, s.Read(token, IsAgent(agent)).Read(token, IdentityRegistry).Read(ir, IsVerified(recipient)))
  {
  }

  /** The mint step when the simulation passes and the mint is confirmed: the
      balance reads, the simulation, the same mint, its wait to depth 2, and the
      balance reads again, with nothing stopping the run. */
  lemma MintLands(token: Address, recipient: Address, s: Session, b: nat, t: nat, logs: seq<Log>, b': nat, t': nat)
    requires !s.stopped && s.rest == [Amount(b), Amount(t), Ok, Ok, Receipt(logs), Amount(b'), Amount(t')]
    ensures var c := MintCall(token, recipient);
      Minting(token, recipient, s)
      == s.Read(token, BalanceOf(recipient)).Read(token, TotalSupply).Simulate(c).Submit(c).Wait(2)
          .Read(token, BalanceOf(recipient)).Read(token, TotalSupply)
    ensures !Minting(token, recipient, s).stopped
  {
    var c := MintCall(token, recipient);
    var s1 := s.Read(token, BalanceOf(recipient));
    assert s1.rest == [Amount(t), Ok, Ok, Receipt(logs), Amount(b'), Amount(t')];
    var s2 := s1.Read(token, TotalSupply);
    assert s2.rest == [Ok, Ok, Receipt(logs), Amount(b'), Amount(t')];
    var s3 := s2.Simulate(c).Submit(c).Wait(2);
    assert s2.Simulate(c).rest == [Ok, Receipt(logs), Amount(b'), Amount(t')];
    assert s2.Simulate(c).Submit(c).rest == [Receipt(logs), Amount(b'), Amount(t')];
    assert Transaction(s2, c, 2, Exit, Exit) == s3;
    assert s3.rest == [Amount(b'), Amount(t')];
    assert s3.Read(token, BalanceOf(recipient)).rest == [Amount(t')];
  }
}
