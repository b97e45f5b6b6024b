/**
 * scripts/02_registerIdentity.js: register a given identity for the investor
 * wallet in the token's identity registry. Every failure is caught by its own
 * handler and exits; a wallet still unverified afterwards is only a warning.
 */
module RegisterIdentity {
  import opened Network
  import opened Submission
  import opened Gates
  import opened Identities

  const DEPTHS: map<string, nat> := map["registerIdentity" := 2]

  function Behaviour(token: Address, wallet: Address, identity: Address, s: Session): Session {
    var irRep := s.Heard();
    var s1 := Expect(s, token, IdentityRegistry, Exit);
    if s1.stopped then s1
    else
      var ir := irRep.a;
      var s2 := Status(s1, ir, wallet);
      if s2.stopped then s2
      else
        var s3 := Transaction(s2, RegisterCall(ir, wallet, identity), 2, Exit, Exit);
        if s3.stopped then s3 else Status(s3, ir, wallet)
  }

  /** `identity(wallet)` then `isVerified(wallet)`, shown to the operator; a
      failure of either exits. */
  function Status(s: Session, ir: Address, wallet: Address): (r: Session)
    ensures Keeps(s, r)
  {
    var s1 := Expect(s, ir, Identity(wallet), Exit);
    if s1.stopped then s1 else Expect(s1, ir, IsVerified(wallet), Exit)
  }

  method ReadStatus(r: Remote, ir: Address, wallet: Address) returns (ok: bool)
    requires !r.stopped
    modifies r
    ensures r.State() == Status(old(r.State()), ir, wallet)
    ensures ok == !r.stopped
  {
    var mapped, _ := ExpectRead(r, ir, Identity(wallet), Exit);
    if !mapped {
      return false;
    }
    var verified, _ := ExpectRead(r, ir, IsVerified(wallet), Exit);
    return verified;
  }

  method Execute(r: Remote, token: Address, wallet: Address, identity: Address)
    requires !r.stopped
    modifies r
    ensures r.State() == Behaviour(token, wallet, identity, old(r.State()))
  {
    var found, irRep := ExpectRead(r, token, IdentityRegistry, Exit);
    if !found {
      return;
    }
    var ir := irRep.a;
    var before := ReadStatus(r, ir, wallet);
    if !before {
      return;
    }
    var landed, _ := Transact(r, RegisterCall(ir, wallet, identity), 2, Exit, Exit);
    if landed {
      var _ := ReadStatus(r, ir, wallet);
    }
  }

  lemma EndsProperly(token: Address, wallet: Address, identity: Address, tape: seq<Reply>)
    ensures var r := Behaviour(token, wallet, identity, Start(tape)); r.Going() || r.Ended()
  {
  }

  lemma RegisterPreflighted(token: Address, wallet: Address, identity: Address, tape: seq<Reply>)
    ensures Preflighted(Behaviour(token, wallet, identity, Start(tape)).acts)
  {
  }

  lemma RegisterAwaited(token: Address, wallet: Address, identity: Address, tape: seq<Reply>)
    ensures AwaitedTo(Behaviour(token, wallet, identity, Start(tape)).acts, DEPTHS)
  {
    assert "registerIdentity" in DEPTHS && DEPTHS["registerIdentity"] == 2;
    assert AwaitedTo([], DEPTHS);
  }

  /** The registration is attempted whatever the wallet's current status: an
      already verified wallet is registered again. */
  lemma RegistersEvenIfVerified(ir: Address, wallet: Address, id: Address, s: Session, rest: seq<Reply>)
    requires !s.stopped && s.rest == [Addr(id), Bool(true)] + rest
    ensures Status(s, ir, wallet) == s.Read(ir, Identity(wallet)).Read(ir, IsVerified(wallet))
    ensures !Status(s, ir, wallet).stopped
  {
    assert s.Read(ir, Identity(wallet)).rest == [Bool(true)] + rest;
  }

  /** A wallet still unverified after the registration only warns. */
  lemma UnverifiedAfterOnlyWarns(ir: Address, wallet: Address, id: Address, s: Session, rest: seq<Reply>)
    requires !s.stopped && s.rest == [Addr(id), Bool(false)] + rest
    ensures !Status(s, ir, wallet).stopped
  {
    assert s.Read(ir, Identity(wallet)).rest == [Bool(false)] + rest;
  }

  /** A failed status read exits before any registration. */
  lemma StatusErrorAborts(token: Address, wallet: Address, identity: Address, ir: Address, why: string, rest: seq<Reply>)
    ensures Behaviour(token, wallet, identity, Start([Addr(ir), Failed(why)] + rest)).acts
      == [Probe(token, IdentityRegistry, Addr(ir)), Probe(ir, Identity(wallet), Failed(why)),
          Abort(ReadFailed(Identity(wallet), why))]
  {
    var s1 := Start([Addr(ir), Failed(why)] + rest).Read(token, IdentityRegistry);
    assert s1.rest == [Failed(why)] + rest;
    assert Expect(Start([Addr(ir), Failed(why)] + rest), token, IdentityRegistry, Exit) == s1;
    var s2 := Expect(s1, ir, Identity(wallet), Exit);
    assert s2 == s1.Read(ir, Identity(wallet)).Halt(Exit, ReadFailed(Identity(wallet), why));
    assert Status(s1, ir, wallet) == s2;
  }

  /** In either status read, before or after the registration, a failed
      `identity(wallet)` read exits the run. */
  lemma IdentityReadErrorExits(ir: Address, wallet: Address, s: Session, why: string)
    requires !s.stopped && s.Heard() == Failed(why)
    ensures var r := Status(s, ir, wallet);
      r.stopped && r.acts == s.acts + [Probe(ir, Identity(wallet), Failed(why)), Abort(ReadFailed(Identity(wallet), why))]
  {
  }

  /** In either status read, a failed `isVerified(wallet)` read exits the run. */
  lemma VerificationReadErrorExits(ir: Address, wallet: Address, s: Session, id: Address, why: string, rest: seq<Reply>)
    requires !s.stopped && s.rest == [Addr(id), Failed(why)] + rest
    ensures var r := Status(s, ir, wallet);
      r.stopped && r.acts == s.acts + [Probe(ir, Identity(wallet), Addr(id)), Probe(ir, IsVerified(wallet), Failed(why)),
                                       Abort(ReadFailed(IsVerified(wallet), why))]
  {
    assert s.Read(ir, Identity(wallet)).rest == [Failed(why)] + rest;
  }

  /** A reverted simulation exits before the registration is sent. */
  lemma RevertedRegistrationAborts(ir: Address, wallet: Address, identity: Address, s: Session, why: string, rest: seq<Reply>)
    requires !s.stopped && s.rest == [Failed(why)] + rest
    ensures var c := RegisterCall(ir, wallet, identity);
      Transaction(s, c, 2, Exit, Exit).acts == s.acts + [Action.Simulate(c, Failed(why)), Abort(Reverted(c, why))]
  {
  }
}
