/**
 * scripts/deployToken.js: deploy a T-REX suite (token, identity registry,
 * compliance) through a TREXGateway, find the new token in the receipt, then
 * mint the initial supply to the deployer.
 *
 * Every failure up to the token address exits; the mint is best effort: a
 * missing `mint(` or a failed mint is reported and the run ends normally.
 */
module DeployToken {
  import opened Wrappers
  import opened Network
  import opened Capability
  import opened Submission
  import opened Gates
  import opened Receipts

  const TOKEN_NAME: string := "SWGTREX"
  const TOKEN_SYMBOL: string := "SWGTX"
  const DECIMALS: nat := 18
  const INITIAL_SUPPLY: nat := Units(1000)

  const DEPLOY_PREFIX: string := "batchDeployTREXSuite("
  const DEPLOYER_PREFIX: string := "isDeployer("
  const MINT_PREFIX: string := "mint("

  /** The six implementation getters, in the order they are read. */
  const KINDS: seq<ImplKind> := [TokenImpl, CtrImpl, IrImpl, IrsImpl, TirImpl, McImpl]

  /** No identity-registry storage (a new one is deployed), the deployer as the
      token's ONCHAINID (so the factory does not create one) and as the only
      registry and token agent, no compliance modules. */
  function Details(deployer: Address): TokenDetails {
    TokenDetails(deployer, TOKEN_NAME, TOKEN_SYMBOL, DECIMALS, ZERO, deployer, [deployer], [deployer], [], [])
  }

  /** No claim topics and no trusted issuers. */
  const CLAIMS: ClaimDetails := ClaimDetails([], [], [])

  function DeployCall(gateway: Address, deployer: Address): Call {
    Invoke(gateway, "batchDeployTREXSuite", [TokenDetailsArg([Details(deployer)]), ClaimDetailsArg([CLAIMS])])
  }

  function MintCall(token: Address, deployer: Address): Call {
    Invoke(token, "mint", [AddressArg(deployer), UintArg(INITIAL_SUPPLY)])
  }

  const DEPTHS: map<string, nat> := map["batchDeployTREXSuite" := 3, "mint" := 2]

  predicate SuiteDepths(d: map<string, nat>) {
    "batchDeployTREXSuite" in d && d["batchDeployTREXSuite"] == 3 && "mint" in d && d["mint"] == 2
  }

  /** The run goes on past a failed submission or wait of the mint, its last
      step, and nothing failed before it. */
  predicate ToleratedMintFailure(t: seq<Action>) {
    || (|t| >= 1 && Clean(t[..|t| - 1]) && t[|t| - 1].Submit? && Name(t[|t| - 1].call) == "mint" && Failure(t[|t| - 1]))
    || (|t| >= 2 && Clean(t[..|t| - 2]) && t[|t| - 2].Submit? && Name(t[|t| - 2].call) == "mint" &&
        !Failure(t[|t| - 2]) && t[|t| - 1].Wait? && Failure(t[|t| - 1]))
  }

  /** How every stage after the gateway check ends: still going, stopped
      properly, or going on past a tolerated mint failure. */
  predicate EndsWell(r: Session) {
    r.Going() || r.Ended() || (!r.stopped && ToleratedMintFailure(r.acts))
  }

  function Behaviour(gateway: Address, deployer: Address, gatewayFns: seq<string>, tokenFns: seq<string>,
                     parse: Log -> Option<Event>, s: Session): (r: Session)
    ensures s.Going() ==> EndsWell(r)
    ensures forall u :: PreflightedExcept(s.acts, u) && "mint" in u ==> PreflightedExcept(r.acts, u)
    ensures forall d :: AwaitedTo(s.acts, d) && SuiteDepths(d) ==> AwaitedTo(r.acts, d)
  {
    if !Exposes(gatewayFns, DEPLOY_PREFIX) then s.Halt(Exit, NotExposed([DEPLOY_PREFIX], gatewayFns))
    else
      var pubRep := s.Heard();
      var s1 := Expect(s, gateway, PublicDeploymentStatus, Exit);
      if s1.stopped then s1
      else Probing(gateway, deployer, gatewayFns, tokenFns, parse, pubRep.b, s1)
  }

  /** The `isDeployer` probe: a read only when `isDeployer(` is exposed, and
      any failure of it counts as false. */
  function Probing(gateway: Address, deployer: Address, gatewayFns: seq<string>, tokenFns: seq<string>,
                   parse: Log -> Option<Event>, public: bool, s: Session): (r: Session)
    ensures s.Going() ==> EndsWell(r)
    ensures forall u :: PreflightedExcept(s.acts, u) && "mint" in u ==> PreflightedExcept(r.acts, u)
    ensures forall d :: AwaitedTo(s.acts, d) && SuiteDepths(d) ==> AwaitedTo(r.acts, d)
  {
    if Exposes(gatewayFns, DEPLOYER_PREFIX) then
      var registered := s.Heard() == Bool(true);
      Fees(gateway, deployer, tokenFns, parse, public, registered, s.Read(gateway, IsDeployer(deployer)))
    else Fees(gateway, deployer, tokenFns, parse, public, false, s)
  }

  /** Fee and factory reads, then the eligibility rule. */
  function Fees(gateway: Address, deployer: Address, tokenFns: seq<string>, parse: Log -> Option<Event>,
                public: bool, registered: bool, s: Session): (r: Session)
    ensures s.Going() ==> EndsWell(r)
    ensures forall u :: PreflightedExcept(s.acts, u) && "mint" in u ==> PreflightedExcept(r.acts, u)
    ensures forall d :: AwaitedTo(s.acts, d) && SuiteDepths(d) ==> AwaitedTo(r.acts, d)
  {
    var s1 := Expect(s, gateway, DeploymentFee, Exit);
    if s1.stopped then s1
    else
      var s2 := Expect(s1, gateway, DeploymentFeeEnabled, Exit);
      if s2.stopped then s2
      else
        var factoryRep := s2.Heard();
        var s3 := Expect(s2, gateway, Factory, Exit);
        if s3.stopped then s3
        else if !public && !registered then s3.Halt(Exit, NotEligible)
        else Wiring(gateway, deployer, tokenFns, parse, factoryRep.a, s3)
  }

  /** The factory's implementation authority must be set and fully wired. */
  function Wiring(gateway: Address, deployer: Address, tokenFns: seq<string>, parse: Log -> Option<Event>,
                  factory: Address, s: Session): (r: Session)
    ensures s.Going() ==> EndsWell(r)
    ensures forall u :: PreflightedExcept(s.acts, u) && "mint" in u ==> PreflightedExcept(r.acts, u)
    ensures forall d :: AwaitedTo(s.acts, d) && SuiteDepths(d) ==> AwaitedTo(r.acts, d)
  {
    var iaRep := s.Heard();
    var s1 := Expect(s, factory, ImplementationAuthority, Exit);
    if s1.stopped then s1
    else
      var s2 := Expect(s1, factory, IdFactory, Exit);
      if s2.stopped then s2
      else if iaRep.a == ZERO then s2.Halt(Exit, ZeroImplementationAuthority)
      else
        var (s3, anyZero) := Implementations(s2, iaRep.a, KINDS);
        if s3.stopped then s3
        else if anyZero then s3.Halt(Exit, ZeroImplementation)
        else Deploying(gateway, deployer, tokenFns, parse, s3)
  }

  /** Reads the implementation of each kind in turn; says whether any is zero. */
  function Implementations(s: Session, ia: Address, kinds: seq<ImplKind>): (r: (Session, bool))
    ensures Keeps(s, r.0)
    decreases |kinds|
  {
    if kinds == [] then (s, false)
    else
      var rep := s.Heard();
      var s1 := Expect(s, ia, Implementation(kinds[0]), Exit);
      if s1.stopped then (s1, false)
      else
        var (s2, zero) := Implementations(s1, ia, kinds[1..]);
        (s2, rep.a == ZERO || zero)
  }

  /** The suite deployment, then the receipt scan. */
  function Deploying(gateway: Address, deployer: Address, tokenFns: seq<string>, parse: Log -> Option<Event>,
                     s: Session): (r: Session)
    ensures s.Going() ==> EndsWell(r)
    ensures forall u :: PreflightedExcept(s.acts, u) && "mint" in u ==> PreflightedExcept(r.acts, u)
    ensures forall d :: AwaitedTo(s.acts, d) && SuiteDepths(d) ==> AwaitedTo(r.acts, d)
  {
    var c := DeployCall(gateway, deployer);
    var rc := ReceiptOf(s, c);
    var s1 := Transaction(s, c, 3, Exit, Exit);
    if s1.stopped || !rc.Receipt? then s1
    else
      var token := DeployedToken(rc.logs, parse);
      if token.None? || token.value == ZERO then s1.Halt(Exit, EventNotFound(Sources(rc.logs)))
      else Minting(token.value, deployer, tokenFns, s1)
  }

  /** The best-effort mint of the initial supply: unsimulated, tolerated. */
  function Minting(token: Address, deployer: Address, tokenFns: seq<string>, s: Session): (r: Session)
    ensures s.Going() ==> EndsWell(r)
    ensures forall u :: PreflightedExcept(s.acts, u) && "mint" in u ==> PreflightedExcept(r.acts, u)
    ensures forall d :: AwaitedTo(s.acts, d) && SuiteDepths(d) ==> AwaitedTo(r.acts, d)
    ensures !s.stopped ==> !r.stopped
  {
    if !Exposes(tokenFns, MINT_PREFIX) then s
    else
      var m := MintCall(token, deployer);
      MintTolerated(s, m);
      Dispatch(s, m, 2, Tolerate)
  }

  /** A tolerated dispatch of the mint leaves the run going, or going on past
      its failure. */
  lemma MintTolerated(s: Session, m: Call)
    requires Name(m) == "mint"
    ensures s.Going() ==> EndsWell(Dispatch(s, m, 2, Tolerate))
  {
    var sent := s.Heard();
    var s1 := s.Submit(m);
    Extend(s.acts, Action.Submit(m, sent));
    assert s1.acts[..|s1.acts| - 1] == s.acts;
    if Sent(m, sent) {
      var rc := s1.Heard();
      var s2 := s1.Wait(2);
      Extend(s1.acts, Action.Wait(2, rc));
      assert s2.acts[..|s2.acts| - 2] == s.acts;
    }
  }

  method ReadImplementations(r: Remote, ia: Address, kinds: seq<ImplKind>) returns (anyZero: bool)
    requires !r.stopped
    modifies r
    ensures (r.State(), anyZero) == Implementations(old(r.State()), ia, kinds)
    decreases |kinds|
  {
    if kinds == [] {
      return false;
    }
    var ok, rep := ExpectRead(r, ia, Implementation(kinds[0]), Exit);
    if !ok {
      return false;
    }
    var zero := ReadImplementations(r, ia, kinds[1..]);
    return rep.a == ZERO || zero;
  }

  method Execute(r: Remote, gateway: Address, deployer: Address, gatewayFns: seq<string>, tokenFns: seq<string>,
                 parse: Log -> Option<Event>)
    requires !r.stopped
    modifies r
    ensures r.State() == Behaviour(gateway, deployer, gatewayFns, tokenFns, parse, old(r.State()))
  {
    if !Exposes(gatewayFns, DEPLOY_PREFIX) {
      r.Halt(Exit, NotExposed([DEPLOY_PREFIX], gatewayFns));
      return;
    }
    var ok, pubRep := ExpectRead(r, gateway, PublicDeploymentStatus, Exit);
    if !ok {
      return;
    }
    var public := pubRep.b;
    var registered := false;
    if Exposes(gatewayFns, DEPLOYER_PREFIX) {
      var rep := r.Read(gateway, IsDeployer(deployer));
      registered := rep == Bool(true);
    }
    CheckFees(r, gateway, deployer, tokenFns, parse, public, registered);
  }

  method CheckFees(r: Remote, gateway: Address, deployer: Address, tokenFns: seq<string>, parse: Log -> Option<Event>,
                   public: bool, registered: bool)
    requires !r.stopped
    modifies r
    ensures r.State() == Fees(gateway, deployer, tokenFns, parse, public, registered, old(r.State()))
  {
    var fee, _ := ExpectRead(r, gateway, DeploymentFee, Exit);
    if !fee {
      return;
    }
    var enabled, _ := ExpectRead(r, gateway, DeploymentFeeEnabled, Exit);
    if !enabled {
      return;
    }
    var found, factoryRep := ExpectRead(r, gateway, Factory, Exit);
    if !found {
      return;
    }
    if !public && !registered {
      r.Halt(Exit, NotEligible);
      return;
    }
    CheckWiring(r, gateway, deployer, tokenFns, parse, factoryRep.a);
  }

  method CheckWiring(r: Remote, gateway: Address, deployer: Address, tokenFns: seq<string>, parse: Log -> Option<Event>,
                     factory: Address)
    requires !r.stopped
    modifies r
    ensures r.State() == Wiring(gateway, deployer, tokenFns, parse, factory, old(r.State()))
  {
    var iaOk, iaRep := ExpectRead(r, factory, ImplementationAuthority, Exit);
    if !iaOk {
      return;
    }
    var idOk, _ := ExpectRead(r, factory, IdFactory, Exit);
    if !idOk {
      return;
    }
    if iaRep.a == ZERO {
      r.Halt(Exit, ZeroImplementationAuthority);
      return;
    }
    var anyZero := ReadImplementations(r, iaRep.a, KINDS);
    if r.stopped {
      return;
    }
    if anyZero {
      r.Halt(Exit, ZeroImplementation);
      return;
    }
    Deploy(r, gateway, deployer, tokenFns, parse);
  }

  method Deploy(r: Remote, gateway: Address, deployer: Address, tokenFns: seq<string>, parse: Log -> Option<Event>)
    requires !r.stopped
    modifies r
    ensures r.State() == Deploying(gateway, deployer, tokenFns, parse, old(r.State()))
  {
    var landed, receipt := Transact(r, DeployCall(gateway, deployer), 3, Exit, Exit);
    if !landed || !receipt.Receipt? {
      return;
    }
    var token := FindDeployedToken(receipt.logs, parse);
    if token.None? || token.value == ZERO {
      r.Halt(Exit, EventNotFound(Sources(receipt.logs)));
      return;
    }
    if Exposes(tokenFns, MINT_PREFIX) {
      var _ := Send(r, MintCall(token.value, deployer), 2, Tolerate);
    }
  }

  lemma EndsProperly(gateway: Address, deployer: Address, gatewayFns: seq<string>, tokenFns: seq<string>,
                     parse: Log -> Option<Event>, tape: seq<Reply>)
    ensures EndsWell(Behaviour(gateway, deployer, gatewayFns, tokenFns, parse, Start(tape)))
  {
  }

  /** Every submission but the mint follows a passing simulation of it. */
  lemma OnlyMintUnsimulated(gateway: Address, deployer: Address, gatewayFns: seq<string>, tokenFns: seq<string>,
                            parse: Log -> Option<Event>, tape: seq<Reply>)
    ensures PreflightedExcept(Behaviour(gateway, deployer, gatewayFns, tokenFns, parse, Start(tape)).acts, {"mint"})
  {
    assert PreflightedExcept([], {"mint"});
  }

  /** The suite deployment is awaited to depth 3, the mint to depth 2. */
  lemma TransactionsAwaited(gateway: Address, deployer: Address, gatewayFns: seq<string>, tokenFns: seq<string>,
                            parse: Log -> Option<Event>, tape: seq<Reply>)
    ensures AwaitedTo(Behaviour(gateway, deployer, gatewayFns, tokenFns, parse, Start(tape)).acts, DEPTHS)
  {
    assert SuiteDepths(DEPTHS);
    assert AwaitedTo([], DEPTHS);
  }

  /** Without a `batchDeployTREXSuite(` function the run aborts at once,
      listing every exposed name. */
  lemma NotExposedAborts(gateway: Address, deployer: Address, gatewayFns: seq<string>, tokenFns: seq<string>,
                         parse: Log -> Option<Event>, tape: seq<Reply>)
    requires !Exposes(gatewayFns, DEPLOY_PREFIX)
    ensures Behaviour(gateway, deployer, gatewayFns, tokenFns, parse, Start(tape)).acts
      == [Abort(NotExposed([DEPLOY_PREFIX], gatewayFns))]
  {
  }

  /** `isDeployer` is not called when it is not exposed; the caller is then not a
      deployer, so only public deployment can make the run eligible. */
  lemma ProbeOnlyWhenExposed(gateway: Address, deployer: Address, gatewayFns: seq<string>, tokenFns: seq<string>,
                             parse: Log -> Option<Event>, public: bool, s: Session)
    requires !Exposes(gatewayFns, DEPLOYER_PREFIX)
    ensures Probing(gateway, deployer, gatewayFns, tokenFns, parse, public, s)
      == Fees(gateway, deployer, tokenFns, parse, public, false, s)
  {
  }

  /** A failed or malformed `isDeployer` answer counts as false and does not stop the run. */
  lemma ProbeErrorIsFalse(gateway: Address, deployer: Address, gatewayFns: seq<string>, tokenFns: seq<string>,
                          parse: Log -> Option<Event>, public: bool, s: Session)
    requires Exposes(gatewayFns, DEPLOYER_PREFIX) && s.Heard() != Bool(true)
    ensures Probing(gateway, deployer, gatewayFns, tokenFns, parse, public, s)
      == Fees(gateway, deployer, tokenFns, parse, public, false, s.Read(gateway, IsDeployer(deployer)))
  {
  }

  /** A true `isDeployer` answer makes the caller a registered deployer, which
      is enough for eligibility even with public deployment off. */
  lemma ProbeTrueIsDeployer(gateway: Address, deployer: Address, gatewayFns: seq<string>, tokenFns: seq<string>,
                            parse: Log -> Option<Event>, public: bool, s: Session)
    requires Exposes(gatewayFns, DEPLOYER_PREFIX) && s.Heard() == Bool(true)
    ensures Probing(gateway, deployer, gatewayFns, tokenFns, parse, public, s)
      == Fees(gateway, deployer, tokenFns, parse, public, true, s.Read(gateway, IsDeployer(deployer)))
  {
  }

  /** Once the fee and factory reads succeed, a caller that is not a deployer
      is refused when public deployment is off ... */
  lemma IneligibleRefused(gateway: Address, deployer: Address, tokenFns: seq<string>, parse: Log -> Option<Event>,
                          s: Session, fee: Reply, enabled: bool, factory: Address, rest: seq<Reply>)
    requires !s.stopped && s.rest == [fee, Bool(enabled), Addr(factory)] + rest && !fee.Failed?
    ensures Fees(gateway, deployer, tokenFns, parse, false, false, s).acts
      == s.acts + [Probe(gateway, DeploymentFee, fee), Probe(gateway, DeploymentFeeEnabled, Bool(enabled)),
                   Probe(gateway, Factory, Addr(factory)), Abort(NotEligible)]
  {
    var s1 := s.Read(gateway, DeploymentFee);
    assert Expect(s, gateway, DeploymentFee, Exit) == s1;
    assert s1.rest == [Bool(enabled), Addr(factory)] + rest;
    var s2 := s1.Read(gateway, DeploymentFeeEnabled);
    assert Expect(s1, gateway, DeploymentFeeEnabled, Exit) == s2;
    assert s2.rest == [Addr(factory)] + rest;
    var s3 := s2.Read(gateway, Factory);
    assert Expect(s2, gateway, Factory, Exit) == s3;
    assert Fees(gateway, deployer, tokenFns, parse, false, false, s) == s3.Halt(Exit, NotEligible);
  }

  /** ... and goes on to the factory checks when either holds. */
  lemma EligibleProceeds(gateway: Address, deployer: Address, tokenFns: seq<string>, parse: Log -> Option<Event>,
                         public: bool, registered: bool, s: Session, fee: Reply, enabled: bool, factory: Address,
                         rest: seq<Reply>)
    requires !s.stopped && s.rest == [fee, Bool(enabled), Addr(factory)] + rest && !fee.Failed?
    requires public || registered
    ensures Fees(gateway, deployer, tokenFns, parse, public, registered, s)
      == Wiring(gateway, deployer, tokenFns, parse, factory,
                s.Read(gateway, DeploymentFee).Read(gateway, DeploymentFeeEnabled).Read(gateway, Factory))
  {
    var s1 := s.Read(gateway, DeploymentFee);
    assert Expect(s, gateway, DeploymentFee, Exit) == s1;
    assert s1.rest == [Bool(enabled), Addr(factory)] + rest;
    var s2 := s1.Read(gateway, DeploymentFeeEnabled);
    assert Expect(s1, gateway, DeploymentFeeEnabled, Exit) == s2;
    assert s2.rest == [Addr(factory)] + rest;
    assert Expect(s2, gateway, Factory, Exit) == s2.Read(gateway, Factory);
  }

  /** A zero implementation authority aborts before any implementation is read. */
  lemma ZeroAuthorityAborts(gateway: Address, deployer: Address, tokenFns: seq<string>, parse: Log -> Option<Event>,
                            factory: Address, idf: Address, s: Session, rest: seq<Reply>)
    requires !s.stopped && s.rest == [Addr(ZERO), Addr(idf)] + rest
    ensures Wiring(gateway, deployer, tokenFns, parse, factory, s).acts
      == s.acts + [Probe(factory, ImplementationAuthority, Addr(ZERO)), Probe(factory, IdFactory, Addr(idf)),
                   Abort(ZeroImplementationAuthority)]
  {
    assert s.Read(factory, ImplementationAuthority).rest == [Addr(idf)] + rest;
  }

  /** The replies a run of successful address reads receives. */
  function Addrs(xs: seq<Address>): (r: seq<Reply>)
    ensures |r| == |xs|
  {
    seq(|xs|, i requires 0 <= i < |xs| => Addr(xs[i]))
  }

  /** When every implementation read answers an address, all are read, the run
      goes on, and a zero among them is reported. */
  lemma {:induction false} ImplementationsFindZero(s: Session, ia: Address, kinds: seq<ImplKind>, xs: seq<Address>,
                                                   rest: seq<Reply>)
    requires !s.stopped && |xs| == |kinds| && s.rest == Addrs(xs) + rest
    ensures var (r, anyZero) := Implementations(s, ia, kinds);
      !r.stopped && r.rest == rest && |r.acts| == |s.acts| + |kinds| && (anyZero <==> ZERO in xs)
    decreases |kinds|
  {
    if kinds != [] {
      var s1 := s.Read(ia, Implementation(kinds[0]));
      assert s.Heard() == Addr(xs[0]);
      assert Addrs(xs[1..]) == Addrs(xs)[1..];
      assert s1.rest == Addrs(xs[1..]) + rest;
      ImplementationsFindZero(s1, ia, kinds[1..], xs[1..], rest);
      assert ZERO in xs <==> xs[0] == ZERO || ZERO in xs[1..];
    }
  }

  /** With a non-zero authority and every implementation read answering, a zero
      among the six implementations aborts the run before the deployment. */
  lemma ZeroImplementationAborts(gateway: Address, deployer: Address, tokenFns: seq<string>, parse: Log -> Option<Event>,
                                 factory: Address, s: Session, ia: Address, idf: Address, xs: seq<Address>, rest: seq<Reply>)
    requires !s.stopped && ia != ZERO && |xs| == |KINDS| && ZERO in xs
    requires s.rest == [Addr(ia), Addr(idf)] + (Addrs(xs) + rest)
    ensures var r := Wiring(gateway, deployer, tokenFns, parse, factory, s);
      r.stopped && |r.acts| > 0 && r.acts[|r.acts| - 1] == Abort(ZeroImplementation)
  {
    assert s.Heard() == Addr(ia);
    var s1 := s.Read(factory, ImplementationAuthority);
    assert Expect(s, factory, ImplementationAuthority, Exit) == s1;
    assert s1.rest == [Addr(idf)] + (Addrs(xs) + rest);
    var s2 := s1.Read(factory, IdFactory);
    assert Expect(s1, factory, IdFactory, Exit) == s2;
    assert s2.rest == Addrs(xs) + rest;
    ImplementationsFindZero(s2, ia, KINDS, xs, rest);
  }

  /** With none of them zero, the run goes on to the deployment. */
  lemma WiredProceeds(gateway: Address, deployer: Address, tokenFns: seq<string>, parse: Log -> Option<Event>,
                      factory: Address, s: Session, ia: Address, idf: Address, xs: seq<Address>, rest: seq<Reply>)
    requires !s.stopped && ia != ZERO && |xs| == |KINDS| && ZERO !in xs
    requires s.rest == [Addr(ia), Addr(idf)] + (Addrs(xs) + rest)
    ensures var s2 := s.Read(factory, ImplementationAuthority).Read(factory, IdFactory);
      Wiring(gateway, deployer, tokenFns, parse, factory, s) == Deploying(gateway, deployer, tokenFns, parse, Implementations(s2, ia, KINDS).0)
  {
    assert s.Heard() == Addr(ia);
    var s1 := s.Read(factory, ImplementationAuthority);
    assert Expect(s, factory, ImplementationAuthority, Exit) == s1;
    assert s1.rest == [Addr(idf)] + (Addrs(xs) + rest);
    var s2 := s1.Read(factory, IdFactory);
    assert Expect(s1, factory, IdFactory, Exit) == s2;
    assert s2.rest == Addrs(xs) + rest;
    ImplementationsFindZero(s2, ia, KINDS, xs, rest);
    var (s3, anyZero) := Implementations(s2, ia, KINDS);
    assert !anyZero && !s3.stopped;
    assert Wiring(gateway, deployer, tokenFns, parse, factory, s) == Deploying(gateway, deployer, tokenFns, parse, s3);
  }

  /** A failed mint submission is reported and tolerated: it is the run's last
      step and the run has not stopped. */
  lemma MintSubmitFailureTolerated(token: Address, deployer: Address, tokenFns: seq<string>, s: Session, why: string)
    requires !s.stopped && Exposes(tokenFns, MINT_PREFIX) && s.Heard() == Failed(why)
    ensures Minting(token, deployer, tokenFns, s) == s.Submit(MintCall(token, deployer))
    ensures !Minting(token, deployer, tokenFns, s).stopped
  {
  }

  /** A failed wait for the mint is tolerated the same way. */
  lemma MintWaitFailureTolerated(token: Address, deployer: Address, tokenFns: seq<string>, s: Session, sent: Reply,
                                 why: string, rest: seq<Reply>)
    requires !s.stopped && Exposes(tokenFns, MINT_PREFIX) && !sent.Failed? && s.rest == [sent, Failed(why)] + rest
    ensures Minting(token, deployer, tokenFns, s) == s.Submit(MintCall(token, deployer)).Wait(2)
    ensures !Minting(token, deployer, tokenFns, s).stopped
  {
    assert s.Submit(MintCall(token, deployer)).rest == [Failed(why)] + rest;
  }

  /** A receipt without a usable `TREXSuiteDeployed` aborts, listing the log
      sources, and there is no mint. */
  lemma EventMissingAborts(gateway: Address, deployer: Address, tokenFns: seq<string>, parse: Log -> Option<Event>,
                           s: Session, sim: Reply, sent: Reply, logs: seq<Log>, rest: seq<Reply>)
    requires !s.stopped && s.rest == [sim, sent, Receipt(logs)] + rest && Passed(sim) && Passed(sent)
    requires DeployedToken(logs, parse).None? || DeployedToken(logs, parse) == Some(ZERO)
    ensures var c := DeployCall(gateway, deployer);
      Deploying(gateway, deployer, tokenFns, parse, s)
      == s.Simulate(c).Submit(c).Wait(3).Halt(Exit, EventNotFound(Sources(logs)))
  {
    var c := DeployCall(gateway, deployer);
    assert s.Simulate(c).rest == [sent, Receipt(logs)] + rest;
    assert s.Simulate(c).Submit(c).rest == [Receipt(logs)] + rest;
  }

  /** A usable token address is the mint's target. */
  lemma FoundTokenMinted(gateway: Address, deployer: Address, tokenFns: seq<string>, parse: Log -> Option<Event>,
                         s: Session, sim: Reply, sent: Reply, logs: seq<Log>, rest: seq<Reply>, token: Address)
    requires !s.stopped && s.rest == [sim, sent, Receipt(logs)] + rest && Passed(sim) && Passed(sent)
    requires DeployedToken(logs, parse) == Some(token) && token != ZERO
    ensures var c := DeployCall(gateway, deployer);
      Deploying(gateway, deployer, tokenFns, parse, s) == Minting(token, deployer, tokenFns, s.Simulate(c).Submit(c).Wait(3))
  {
    var c := DeployCall(gateway, deployer);
    assert s.Simulate(c).rest == [sent, Receipt(logs)] + rest;
    assert s.Simulate(c).Submit(c).rest == [Receipt(logs)] + rest;
  }

  /** A reverted static call aborts with nothing submitted. */
  lemma StaticFailureAborts(gateway: Address, deployer: Address, tokenFns: seq<string>, parse: Log -> Option<Event>,
                            s: Session, why: string, rest: seq<Reply>)
    requires !s.stopped && s.rest == [Failed(why)] + rest
    ensures var c := DeployCall(gateway, deployer);
      Deploying(gateway, deployer, tokenFns, parse, s).acts == s.acts + [Action.Simulate(c, Failed(why)), Abort(Reverted(c, why))]
  {
  }

  /** Without a `mint(` function the run ends after the deployment, untouched:
      the missing mint is only reported, never an error of the run. */
  lemma NoMintFunctionSkips(token: Address, deployer: Address, tokenFns: seq<string>, s: Session)
    requires !Exposes(tokenFns, MINT_PREFIX)
    ensures Minting(token, deployer, tokenFns, s) == s
  {
  }
}
