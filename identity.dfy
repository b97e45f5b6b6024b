/**
 * The investor-identity side of the token: the ONCHAINID deployment whose
 * management key is the wallet, the registration call, and the authorisation
 * workflow that scripts/04_authorizeAndTransfer.js and
 * scripts/authorizeRecipientOnly.js both run (registry lookup, identity deployed
 * when the wallet has none, registration when it is not verified, final
 * verification read). Every failure in it reaches `main().catch`.
 */
module Identities {
  import opened Network
  import opened Submission
  import opened Gates

  /** ISO-3166 numeric code of Switzerland, the country every registration uses. */
  const COUNTRY: nat := 756

  /** `new Identity(wallet, true)`: the wallet is the management key. */
  function IdentityDeploy(wallet: Address): Call {
    Deploy("Identity", [AddressArg(wallet), BoolArg(true)])
  }

  /** `identityRegistry.registerIdentity(wallet, identity, 756)` */
  function RegisterCall(ir: Address, wallet: Address, identity: Address): Call {
    Invoke(ir, "registerIdentity", [AddressArg(wallet), AddressArg(identity), UintArg(COUNTRY)])
  }

  /** The confirmation depths of the workflow's two transactions. */
  predicate IdentityDepths(d: map<string, nat>) {
    "Identity" in d && d["Identity"] == 2 && "registerIdentity" in d && d["registerIdentity"] == 2
  }

  /** The last step of the run is a verification read of `wallet` that answered true. */
  predicate ConfirmedVerified(t: seq<Action>, wallet: Address) {
    |t| > 0 && t[|t| - 1].Probe? && t[|t| - 1].query == IsVerified(wallet) && t[|t| - 1].reply == Bool(true)
  }

  /** The whole workflow at `token`; `enforce` makes an unverified final read fatal. */
  function Authorize(s: Session, token: Address, wallet: Address, enforce: bool): (r: Session)
    ensures s.Going() ==> r.Going() || r.Ended()
    ensures forall u :: PreflightedExcept(s.acts, u) && "Identity" in u ==> PreflightedExcept(r.acts, u)
    ensures forall d :: AwaitedTo(s.acts, d) && IdentityDepths(d) ==> AwaitedTo(r.acts, d)
    ensures enforce && !r.stopped ==> ConfirmedVerified(r.acts, wallet)
  {
    var irRep := s.Heard();
    var s1 := Expect(s, token, IdentityRegistry, Throw);
    if s1.stopped then s1 else Provision(s1, irRep.a, wallet, enforce)
  }

  /** Look the wallet's identity up at registry `ir`; deploy one when it is the zero address. */
  function Provision(s: Session, ir: Address, wallet: Address, enforce: bool): (r: Session)
    ensures s.Going() ==> r.Going() || r.Ended()
    ensures forall u :: PreflightedExcept(s.acts, u) && "Identity" in u ==> PreflightedExcept(r.acts, u)
    ensures forall d :: AwaitedTo(s.acts, d) && IdentityDepths(d) ==> AwaitedTo(r.acts, d)
    ensures enforce && !r.stopped ==> ConfirmedVerified(r.acts, wallet)
  {
    var idRep := s.Heard();
    var s1 := Expect(s, ir, Identity(wallet), Throw);
    if s1.stopped then s1
    else if idRep.a != ZERO then Register(s1, ir, wallet, idRep.a, enforce)
    else
      var sent := s1.Heard();
      var s2 := Dispatch(s1, IdentityDeploy(wallet), 2, Throw);
      if s2.stopped || !sent.Addr? then s2 else Register(s2, ir, wallet, sent.a, enforce)
  }

  /** Register `identity` for the wallet unless the registry already verifies it. */
  function Register(s: Session, ir: Address, wallet: Address, identity: Address, enforce: bool): (r: Session)
    ensures s.Going() ==> r.Going() || r.Ended()
    ensures forall u :: PreflightedExcept(s.acts, u) ==> PreflightedExcept(r.acts, u)
    ensures forall d :: AwaitedTo(s.acts, d) && IdentityDepths(d) ==> AwaitedTo(r.acts, d)
    ensures enforce && !r.stopped ==> ConfirmedVerified(r.acts, wallet)
  {
    var before := s.Heard();
    var s1 := Expect(s, ir, IsVerified(wallet), Throw);
    if s1.stopped then s1
    else
      var s2 := if before == Bool(false) then Transaction(s1, RegisterCall(ir, wallet, identity), 2, Throw, Throw) else s1;
      if s2.stopped then s2 else Confirmation(s2, ir, wallet, enforce)
  }

  /** The final verification read; with `enforce`, a definite false is fatal. */
  function Confirmation(s: Session, ir: Address, wallet: Address, enforce: bool): (r: Session)
    ensures Keeps(s, r)
    ensures enforce && !r.stopped ==> ConfirmedVerified(r.acts, wallet)
  {
    var after := s.Heard();
    var s1 := Expect(s, ir, IsVerified(wallet), Throw);
    if s1.stopped || after == Bool(true) || !enforce then s1 else s1.Halt(Throw, StillUnverified(wallet))
  }

  /** Runs `Authorize`; `ok` says whether the run may go on. */
  method RunAuthorize(r: Remote, token: Address, wallet: Address, enforce: bool) returns (ok: bool)
    requires !r.stopped
    modifies r
    ensures r.State() == Authorize(old(r.State()), token, wallet, enforce)
    ensures ok == !r.stopped
  {
    var found, irRep := ExpectRead(r, token, IdentityRegistry, Throw);
    if !found {
      return false;
    }
    var ir := irRep.a;
    var mapped, idRep := ExpectRead(r, ir, Identity(wallet), Throw);
    if !mapped {
      return false;
    }
    var identity := idRep.a;
    if identity == ZERO {
      var sent := r.State().Heard();
      var deployed := Send(r, IdentityDeploy(wallet), 2, Throw);
      if !deployed || !sent.Addr? {
        return !r.stopped;
      }
      identity := sent.a;
    }
    var read, before := ExpectRead(r, ir, IsVerified(wallet), Throw);
    if !read {
      return false;
    }
    if before == Bool(false) {
      var registered, _ := Transact(r, RegisterCall(ir, wallet, identity), 2, Throw, Throw);
      if !registered {
        return !r.stopped;
      }
    }
    var confirmed, after := ExpectRead(r, ir, IsVerified(wallet), Throw);
    if confirmed && after != Bool(true) && enforce {
      r.Halt(Throw, StillUnverified(wallet));
    }
    return !r.stopped;
  }

  /** The identity deployment is the one submission the workflow does not simulate. */
  lemma AuthorizeExemptsIdentity(s: Session, token: Address, wallet: Address, enforce: bool, u: set<string>)
    requires PreflightedExcept(s.acts, u) && "Identity" in u
    ensures PreflightedExcept(Authorize(s, token, wallet, enforce).acts, u)
  {
  }

  /** Nothing in the workflow is caught: if it stops, it stops with a Fatal entry. */
  lemma AuthorizeStopsFatally(s: Session, token: Address, wallet: Address, enforce: bool)
    requires !s.stopped
    ensures Authorize(s, token, wallet, enforce).StoppedFatally()
  {
    ExpectThrowsFatally(s, token, IdentityRegistry);
    var s1 := Expect(s, token, IdentityRegistry, Throw);
    if !s1.stopped {
      ProvisionStopsFatally(s1, s.Heard().a, wallet, enforce);
    }
  }

  lemma ProvisionStopsFatally(s: Session, ir: Address, wallet: Address, enforce: bool)
    requires !s.stopped
    ensures Provision(s, ir, wallet, enforce).StoppedFatally()
  {
    var idRep := s.Heard();
    ExpectThrowsFatally(s, ir, Identity(wallet));
    var s1 := Expect(s, ir, Identity(wallet), Throw);
    if !s1.stopped {
      if idRep.a != ZERO {
        RegisterStopsFatally(s1, ir, wallet, idRep.a, enforce);
      } else {
        var sent := s1.Heard();
        DispatchThrowsFatally(s1, IdentityDeploy(wallet), 2);
        var s2 := Dispatch(s1, IdentityDeploy(wallet), 2, Throw);
        if !s2.stopped && sent.Addr? {
          RegisterStopsFatally(s2, ir, wallet, sent.a, enforce);
        }
      }
    }
  }

  lemma RegisterStopsFatally(s: Session, ir: Address, wallet: Address, identity: Address, enforce: bool)
    requires !s.stopped
    ensures Register(s, ir, wallet, identity, enforce).StoppedFatally()
  {
    var before := s.Heard();
    ExpectThrowsFatally(s, ir, IsVerified(wallet));
    var s1 := Expect(s, ir, IsVerified(wallet), Throw);
    if !s1.stopped {
      if before == Bool(false) {
        TransactionThrowsFatally(s1, RegisterCall(ir, wallet, identity), 2);
      }
      var s2 := if before == Bool(false) then Transaction(s1, RegisterCall(ir, wallet, identity), 2, Throw, Throw) else s1;
      if !s2.stopped {
        ConfirmationStopsFatally(s2, ir, wallet, enforce);
      }
    }
  }

  lemma ConfirmationStopsFatally(s: Session, ir: Address, wallet: Address, enforce: bool)
    requires !s.stopped
    ensures Confirmation(s, ir, wallet, enforce).StoppedFatally()
  {
    ExpectThrowsFatally(s, ir, IsVerified(wallet));
  }

  /** A failed `identityRegistry()` read is not caught: the workflow ends fatally
      before anything else is read. */
  lemma RegistryReadIsFatal(s: Session, token: Address, wallet: Address, enforce: bool, why: string)
    requires !s.stopped && s.Heard() == Failed(why)
    ensures var r := Authorize(s, token, wallet, enforce);
      r.stopped && r.acts == s.acts + [Probe(token, IdentityRegistry, Failed(why)), Fatal(ReadFailed(IdentityRegistry, why))]
  {
  }

  /** A failed `identity(wallet)` lookup is fatal: nothing is deployed. */
  lemma LookupReadIsFatal(s: Session, ir: Address, wallet: Address, enforce: bool, why: string)
    requires !s.stopped && s.Heard() == Failed(why)
    ensures var r := Provision(s, ir, wallet, enforce);
      r.stopped && r.acts == s.acts + [Probe(ir, Identity(wallet), Failed(why)), Fatal(ReadFailed(Identity(wallet), why))]
  {
  }

  /** A failed first `isVerified(wallet)` read is fatal: nothing is registered. */
  lemma StatusReadIsFatal(s: Session, ir: Address, wallet: Address, identity: Address, enforce: bool, why: string)
    requires !s.stopped && s.Heard() == Failed(why)
    ensures var r := Register(s, ir, wallet, identity, enforce);
      r.stopped && r.acts == s.acts + [Probe(ir, IsVerified(wallet), Failed(why)), Fatal(ReadFailed(IsVerified(wallet), why))]
  {
  }

  /** A wallet the registry already maps to an identity gets no new deployment:
      the mapped identity is the one registered. */
  lemma MappedIdentityKept(s: Session, ir: Address, wallet: Address, id: Address, enforce: bool)
    requires !s.stopped && s.Heard() == Addr(id) && id != ZERO
    ensures Provision(s, ir, wallet, enforce) == Register(s.Read(ir, Identity(wallet)), ir, wallet, id, enforce)
  {
  }

  /** An unmapped wallet (the zero address) gets an Identity deployed with the
      wallet as its key, unsimulated, awaited to depth 2; the deployed address is
      the one registered. */
  lemma UnmappedIdentityDeployed(s: Session, ir: Address, wallet: Address, id: Address, logs: seq<Log>,
                                 rest: seq<Reply>, enforce: bool)
    requires !s.stopped && s.rest == [Addr(ZERO), Addr(id), Receipt(logs)] + rest
    ensures Provision(s, ir, wallet, enforce)
      == Register(s.Read(ir, Identity(wallet)).Submit(IdentityDeploy(wallet)).Wait(2), ir, wallet, id, enforce)
  {
    var s1 := s.Read(ir, Identity(wallet));
    assert s1.rest == [Addr(id), Receipt(logs)] + rest;
    var s2 := s1.Submit(IdentityDeploy(wallet));
    assert s2.rest == [Receipt(logs)] + rest;
  }

  /** A wallet the registry already verifies is not registered again. */
  lemma VerifiedNotRegistered(s: Session, ir: Address, wallet: Address, identity: Address, enforce: bool)
    requires !s.stopped && s.Heard() == Bool(true)
    ensures Register(s, ir, wallet, identity, enforce) == Confirmation(s.Read(ir, IsVerified(wallet)), ir, wallet, enforce)
  {
  }

  /** An unverified wallet is registered with its identity and country 756, after
      a passing simulation of the same call. */
  lemma UnverifiedRegistered(s: Session, ir: Address, wallet: Address, identity: Address, sim: Reply,
                             sent: Reply, logs: seq<Log>, rest: seq<Reply>, enforce: bool)
    requires !s.stopped && s.rest == [Bool(false), sim, sent, Receipt(logs)] + rest && Passed(sim) && Passed(sent)
    ensures var c := RegisterCall(ir, wallet, identity);
      Register(s, ir, wallet, identity, enforce)
      == Confirmation(s.Read(ir, IsVerified(wallet)).Simulate(c).Submit(c).Wait(2), ir, wallet, enforce)
  {
    var c := RegisterCall(ir, wallet, identity);
    var s1 := s.Read(ir, IsVerified(wallet));
    assert s1.rest == [sim, sent, Receipt(logs)] + rest;
    var s2 := s1.Simulate(c);
    assert s2.rest == [sent, Receipt(logs)] + rest;
    var s3 := s2.Submit(c);
    assert s3.rest == [Receipt(logs)] + rest;
  }

  /** With `enforce`, a wallet still unverified at the end is a fatal error. */
  lemma StillUnverifiedIsFatal(s: Session, ir: Address, wallet: Address)
    requires !s.stopped && s.Heard() == Bool(false)
    ensures var r := Confirmation(s, ir, wallet, true);
      r.stopped && r.acts == s.acts + [Probe(ir, IsVerified(wallet), Bool(false)), Fatal(StillUnverified(wallet))]
  {
  }

  /** Without `enforce`, the final read is reported and nothing else happens. */
  lemma FinalReadNotEnforced(s: Session, ir: Address, wallet: Address)
    requires !s.stopped && s.Heard() == Bool(false)
    ensures Confirmation(s, ir, wallet, false) == s.Read(ir, IsVerified(wallet))
  {
  }

  /** Running the workflow for a wallet that is mapped and verified changes
      nothing on chain: it only reads. */
  lemma AuthorizeIdempotent(token: Address, ir: Address, wallet: Address, id: Address, rest: seq<Reply>, enforce: bool)
    requires id != ZERO
    ensures Authorize(Start([Addr(ir), Addr(id), Bool(true), Bool(true)] + rest), token, wallet, enforce).acts
      == [Probe(token, IdentityRegistry, Addr(ir)), Probe(ir, Identity(wallet), Addr(id)),
          Probe(ir, IsVerified(wallet), Bool(true)), Probe(ir, IsVerified(wallet), Bool(true))]
  {
    var tape := [Addr(ir), Addr(id), Bool(true), Bool(true)] + rest;
    var s1 := Start(tape).Read(token, IdentityRegistry);
    assert s1.rest == [Addr(id), Bool(true), Bool(true)] + rest;
    var s2 := s1.Read(ir, Identity(wallet));
    assert s2.rest == [Bool(true), Bool(true)] + rest;
    var s3 := s2.Read(ir, IsVerified(wallet));
    assert s3.rest == [Bool(true)] + rest;
  }
}
