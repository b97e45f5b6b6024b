/**
 * scripts/03_mintTestTokens.js: mint 1000 tokens to an investor wallet that the
 * identity registry verifies. The registry reads are not caught: their failures
 * are fatal, and so are a failed submission or wait.
 */
module MintTestTokens {
  import opened Network
  import opened Submission
  import opened Gates

  const AMOUNT: nat := Units(1000)

  function MintCall(token: Address, wallet: Address): Call {
    Invoke(token, "mint", [AddressArg(wallet), UintArg(AMOUNT)])
  }

  const DEPTHS: map<string, nat> := map["mint" := 2]

  function Behaviour(token: Address, wallet: Address, s: Session): Session {
    var irRep := s.Heard();
    var s1 := Expect(s, token, IdentityRegistry, Throw);
    if s1.stopped then s1
    else
      var verified := s1.Heard();
      var s2 := Expect(s1, irRep.a, IsVerified(wallet), Throw);
      if s2.stopped then s2
      else if verified == Bool(false) then s2.Halt(Exit, NotVerified(wallet))
      else Minting(token, wallet, s2)
  }

  /** After the verified gate: balance, the mint, balance again. */
  function Minting(token: Address, wallet: Address, s: Session): Session {
    var s1 := Expect(s, token, BalanceOf(wallet), Throw);
    if s1.stopped then s1
    else
      var s2 := Transaction(s1, MintCall(token, wallet), 2, Exit, Throw);
      if s2.stopped then s2 else Expect(s2, token, BalanceOf(wallet), Throw)
  }

  method Execute(r: Remote, token: Address, wallet: Address)
    requires !r.stopped
    modifies r
    ensures r.State() == Behaviour(token, wallet, old(r.State()))
  {
    var ok, irRep := ExpectRead(r, token, IdentityRegistry, Throw);
    if !ok {
      return;
    }
    var read, verified := ExpectRead(r, irRep.a, IsVerified(wallet), Throw);
    if !read {
      return;
    }
    if verified == Bool(false) {
      r.Halt(Exit, NotVerified(wallet));
      return;
    }
    var before, _ := ExpectRead(r, token, BalanceOf(wallet), Throw);
    if !before {
      return;
    }
    var landed, _ := Transact(r, MintCall(token, wallet), 2, Exit, Throw);
    if landed {
      var _, _ := ExpectRead(r, token, BalanceOf(wallet), Throw);
    }
  }

  lemma EndsProperly(token: Address, wallet: Address, tape: seq<Reply>)
    ensures var r := Behaviour(token, wallet, Start(tape)); r.Going() || r.Ended()
  {
  }

  lemma MintPreflighted(token: Address, wallet: Address, tape: seq<Reply>)
    ensures Preflighted(Behaviour(token, wallet, Start(tape)).acts)
  {
  }

  lemma MintAwaited(token: Address, wallet: Address, tape: seq<Reply>)
    ensures AwaitedTo(Behaviour(token, wallet, Start(tape)).acts, DEPTHS)
  {
    assert Name(MintCall(token, wallet)) in DEPTHS && DEPTHS[Name(MintCall(token, wallet))] == 2;
    assert AwaitedTo([], DEPTHS);
  }

  /** An unverified destination aborts before any simulation or mint. */
  lemma UnverifiedAborts(token: Address, wallet: Address, ir: Address, rest: seq<Reply>)
    ensures Behaviour(token, wallet, Start([Addr(ir), Bool(false)] + rest)).acts
      == [Probe(token, IdentityRegistry, Addr(ir)), Probe(ir, IsVerified(wallet), Bool(false)), Abort(NotVerified(wallet))]
  {
    assert ([Addr(ir), Bool(false)] + rest)[1..] == [Bool(false)] + rest;
  }

  /** Unlike mintToSelf, a failed registry query is not skipped: it is fatal. */
  lemma RegistryErrorIsFatal(token: Address, wallet: Address, why: string, rest: seq<Reply>)
    ensures Behaviour(token, wallet, Start([Failed(why)] + rest)).acts
      == [Probe(token, IdentityRegistry, Failed(why)), Fatal(ReadFailed(IdentityRegistry, why))]
  {
  }

  lemma VerificationErrorIsFatal(token: Address, wallet: Address, ir: Address, why: string, rest: seq<Reply>)
    ensures Behaviour(token, wallet, Start([Addr(ir), Failed(why)] + rest)).acts
      == [Probe(token, IdentityRegistry, Addr(ir)), Probe(ir, IsVerified(wallet), Failed(why)),
          Fatal(ReadFailed(IsVerified(wallet), why))]
  {
    assert ([Addr(ir), Failed(why)] + rest)[1..] == [Failed(why)] + rest;
  }

  /** A failed simulation aborts with nothing minted. */
  lemma RevertedMintAborts(token: Address, wallet: Address, s: Session, b: nat, why: string, rest: seq<Reply>)
    requires s.rest == [Amount(b), Failed(why)] + rest && !s.stopped
    ensures Minting(token, wallet, s).acts
      == s.acts + [Probe(token, BalanceOf(wallet), Amount(b)), Action.Simulate(MintCall(token, wallet), Failed(why)),
                   Abort(Reverted(MintCall(token, wallet), why))]
  {
  }
}
