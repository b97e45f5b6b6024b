/**
 * The remote side as the scripts see it: a network, reached through an
 * ethers/Hardhat provider, that answers reads, simulations (`callStatic`,
 * `estimateGas`), submissions and confirmation waits.
 *
 * Nothing about the contracts behind it is modelled. Its answers are an
 * arbitrary tape of replies fixed in advance and otherwise unconstrained: each
 * exchange consumes the next reply (an exhausted tape answers `Failed`), and
 * every exchange is recorded, with its reply, in the trace.
 */
module Network {

  type Address = nat

  /** `ethers.constants.AddressZero` */
  const ZERO: Address := 0

  /** 10^18: one whole token for the 18-decimal token every script uses. */
  const ONE_TOKEN: nat := 1_000_000_000_000_000_000

  /** `ethers.utils.parseUnits(n, 18)` for a whole-number amount `n`. */
  function Units(n: nat): nat {
    n * ONE_TOKEN
  }

  /** The six implementation getters of a TREXImplementationAuthority. */
  datatype ImplKind = TokenImpl | CtrImpl | IrImpl | IrsImpl | TirImpl | McImpl

  /** A read-only call and the remote it is addressed to. */
  datatype Query =
    | Paused
    | IsAgent(who: Address)
    | IdentityRegistry
    | IsVerified(who: Address)
    | Identity(wallet: Address)
    | BalanceOf(who: Address)
    | TotalSupply
    | Frozen(getter: string, who: Address)
    | PublicDeploymentStatus
    | IsDeployer(who: Address)
    | DeploymentFee
    | DeploymentFeeEnabled
    | Factory
    | ImplementationAuthority
    | IdFactory
    | Implementation(kind: ImplKind)

  /** ITREXFactory.TokenDetails */
  datatype TokenDetails = TokenDetails(
    owner: Address,
    name: string,
    symbol: string,
    decimals: nat,
    irs: Address,
    onchainId: Address,
    irAgents: seq<Address>,
    tokenAgents: seq<Address>,
    complianceModules: seq<Address>,
    complianceSettings: seq<seq<bv8>>)

  /** ITREXFactory.ClaimDetails */
  datatype ClaimDetails = ClaimDetails(claimTopics: seq<nat>, issuers: seq<Address>, issuerClaims: seq<seq<nat>>)

  datatype Arg =
    | AddressArg(a: Address)
    | UintArg(n: nat)
    | BoolArg(b: bool)
    | TokenDetailsArg(tokens: seq<TokenDetails>)
    | ClaimDetailsArg(claims: seq<ClaimDetails>)

  /** A state-changing request: a contract method with its arguments, or the
      deployment of a contract artifact with its constructor arguments. */
  datatype Call =
    | Invoke(target: Address, fn: string, args: seq<Arg>)
    | Deploy(artifact: string, args: seq<Arg>)

  /** An entry of a transaction receipt's `logs`. */
  datatype Log = Log(source: Address, data: seq<bv8>)

  /** What one exchange with the network returns. */
  datatype Reply =
    | Failed(reason: string)  // the call threw: reverted, timed out, unreachable
    | Bool(b: bool)
    | Addr(a: Address)
    | Amount(n: nat)
    | Receipt(logs: seq<Log>)
    | Ok                      // any other successful answer (a tx hash, a struct)

  /** Whether a reply is a successful answer of the type `q` returns. A reply of
      any other shape is a failed call: it is what an ABI decoding error raises. */
  predicate Fits(q: Query, rep: Reply) {
    match q
    case Paused => rep.Bool?
    case IsAgent(_) => rep.Bool?
    case IdentityRegistry => rep.Addr?
    case IsVerified(_) => rep.Bool?
    case Identity(_) => rep.Addr?
    case BalanceOf(_) => rep.Amount?
    case TotalSupply => rep.Amount?
    case Frozen(_, _) => rep.Amount?
    case PublicDeploymentStatus => rep.Bool?
    case IsDeployer(_) => rep.Bool?
    case DeploymentFee => !rep.Failed?
    case DeploymentFeeEnabled => rep.Bool?
    case Factory => rep.Addr?
    case ImplementationAuthority => rep.Addr?
    case IdFactory => rep.Addr?
    case Implementation(_) => rep.Addr?
  }

  /** A simulation (`callStatic`, `estimateGas`) passes unless it throws. */
  predicate Passed(rep: Reply) {
    !rep.Failed?
  }

  /** A submission is accepted when it does not throw; a deployment must also
      yield the new contract's address. */
  predicate Sent(c: Call, rep: Reply) {
    if c.Deploy? then rep.Addr? else !rep.Failed?
  }

  /** A confirmation wait succeeds exactly when it yields a receipt. */
  predicate Confirmed(rep: Reply) {
    rep.Receipt?
  }

  /** The error text a failed exchange carries. */
  function Why(rep: Reply): string {
    if rep.Failed? then rep.reason else "unexpected reply"
  }

  /** Why a script stopped. */
  datatype Reason =
    | NotExposed(wanted: seq<string>, available: seq<string>)
    | ReadFailed(query: Query, why: string)
    | NotAgent
    | TokenPaused
    | NotVerified(who: Address)
    | StillUnverified(who: Address)
    | NotEligible
    | ZeroImplementationAuthority
    | ZeroImplementation
    | Reverted(call: Call, why: string)
    | TxFailed(call: Call, why: string)
    | EventNotFound(logSources: seq<Address>)

  /** One observable step of a run. */
  datatype Action =
    | Probe(target: Address, query: Query, reply: Reply)
    | Simulate(call: Call, reply: Reply)
    | Submit(call: Call, reply: Reply)
    | Wait(depth: nat, reply: Reply)
    | Abort(reason: Reason)   // an explicit `process.exit(1)` in a handler
    | Fatal(reason: Reason)   // an error that reaches `main().catch`

  /** The name a call is known by: the contract method, or the deployed artifact. */
  function Name(c: Call): string {
    match c
    case Invoke(_, fn, _) => fn
    case Deploy(artifact, _) => artifact
  }

  /** A failed simulation, submission or confirmation wait. */
  predicate Failure(a: Action) {
    || (a.Simulate? && !Passed(a.reply))
    || (a.Submit? && !Sent(a.call, a.reply))
    || (a.Wait? && !Confirmed(a.reply))
  }

  predicate Halting(a: Action) {
    a.Abort? || a.Fatal?
  }

  /** Every submission of a call not named in `unsimulated` comes right after a
      passing simulation of the same call. */
  predicate PreflightedExcept(t: seq<Action>, unsimulated: set<string>) {
    forall i :: 0 <= i < |t| && t[i].Submit? && Name(t[i].call) !in unsimulated ==>
      0 < i && t[i - 1].Simulate? && t[i - 1].call == t[i].call && Passed(t[i - 1].reply)
  }

  /** The last step is a passing simulation of `c`. */
  predicate SimulatedLast(t: seq<Action>, c: Call) {
    |t| > 0 && t[|t| - 1].Simulate? && t[|t| - 1].call == c && Passed(t[|t| - 1].reply)
  }

  /** The last step is an accepted submission still waiting for its confirmation. */
  predicate Pending(t: seq<Action>) {
    |t| > 0 && t[|t| - 1].Submit? && Sent(t[|t| - 1].call, t[|t| - 1].reply)
  }

  /** Every accepted submission is of a call named in `depths`, and the step after
      it, if any, waits for the number of confirmations `depths` gives that call. */
  predicate Awaiting(t: seq<Action>, depths: map<string, nat>) {
    forall i :: 0 <= i < |t| && t[i].Submit? && Sent(t[i].call, t[i].reply) ==>
      Name(t[i].call) in depths &&
      (i + 1 < |t| ==> t[i + 1].Wait? && t[i + 1].depth == depths[Name(t[i].call)])
  }

  /** Every accepted submission is of a call named in `depths` and is followed at
      once by a wait for the number of confirmations `depths` gives it. */
  predicate AwaitedTo(t: seq<Action>, depths: map<string, nat>) {
    Awaiting(t, depths) && !Pending(t)
  }

  /** No failure and no stop so far. */
  predicate Clean(t: seq<Action>) {
    forall i :: 0 <= i < |t| ==> !Failure(t[i]) && !Halting(t[i])
  }

  /** A failure is the last step before the stop. */
  predicate FailsClosed(t: seq<Action>) {
    forall i :: 0 <= i < |t| && Failure(t[i]) ==> i + 2 == |t| && Halting(t[i + 1])
  }

  /** An Abort or Fatal entry can only be the last one. */
  predicate StopsAtHalt(t: seq<Action>) {
    forall i :: 0 <= i < |t| - 1 ==> !Halting(t[i])
  }

  /** What appending one step `a` to a trace `t` does to the discipline. */
  lemma Extend(t: seq<Action>, a: Action)
    ensures forall u ::
      (PreflightedExcept(t, u) && (a.Submit? && Name(a.call) !in u ==> SimulatedLast(t, a.call))
       ==> PreflightedExcept(t + [a], u))
    ensures forall d ::
      (Awaiting(t, d) && (a.Submit? && Sent(a.call, a.reply) ==> Name(a.call) in d) &&
       (Pending(t) ==> a.Wait? && a.depth == d[Name(t[|t| - 1].call)])
       ==> Awaiting(t + [a], d))
    ensures Clean(t) && !Failure(a) && !Halting(a) ==> Clean(t + [a])
    ensures (forall i :: 0 <= i < |t| - 1 ==> !Failure(t[i]) && !Halting(t[i])) &&
      (|t| > 0 ==> !Halting(t[|t| - 1])) && Halting(a)
      ==> FailsClosed(t + [a]) && StopsAtHalt(t + [a])
  {
    var t' := t + [a];
    forall u | PreflightedExcept(t, u) && (a.Submit? && Name(a.call) !in u ==> SimulatedLast(t, a.call))
      ensures PreflightedExcept(t', u)
    {
      forall i | 0 <= i < |t'| && t'[i].Submit? && Name(t'[i].call) !in u
        ensures 0 < i && t'[i - 1].Simulate? && t'[i - 1].call == t'[i].call && Passed(t'[i - 1].reply)
      {
        if i < |t| { assert t'[i] == t[i]; if 0 < i { assert t'[i - 1] == t[i - 1]; } }
      }
    }
    forall d | Awaiting(t, d) &&
      (a.Submit? && Sent(a.call, a.reply) ==> Name(a.call) in d) &&
      (Pending(t) ==> a.Wait? && a.depth == d[Name(t[|t| - 1].call)])
      ensures Awaiting(t', d)
    {
      forall i | 0 <= i < |t'| && t'[i].Submit? && Sent(t'[i].call, t'[i].reply)
        ensures Name(t'[i].call) in d && (i + 1 < |t'| ==> t'[i + 1].Wait? && t'[i + 1].depth == d[Name(t'[i].call)])
      {
        if i < |t| {
          assert t'[i] == t[i];
          if i + 1 < |t| { assert t'[i + 1] == t[i + 1]; }
        }
      }
    }
  }

  /** How a step's failure is handled: the script exits, the error propagates to
      the fatal handler, or it is reported and the script goes on. */
  datatype Handler = Exit | Throw | Tolerate

  /** The next reply on a tape, and the tape after it. */
  function Next(tape: seq<Reply>): Reply {
    if tape == [] then Failed("no reply") else tape[0]
  }

  function Rest(tape: seq<Reply>): seq<Reply> {
    if tape == [] then [] else tape[1..]
  }

  /**
   * The abstract state of a run: the trace so far, the replies still to come,
   * and whether the script has stopped (with an Abort or a Fatal entry). The
   * member functions are the specification of the exchanges of class Remote.
   */
  datatype Session = Session(acts: seq<Action>, rest: seq<Reply>, stopped: bool) {

    /** The reply the next exchange receives. */
    function Heard(): Reply {
      Next(rest)
    }

    predicate Going() {
      !stopped && Clean(acts)
    }

    predicate Ended() {
      stopped && FailsClosed(acts) && StopsAtHalt(acts)
    }

    /** If the run stopped, it stopped on an error left for `main().catch`. */
    predicate StoppedFatally() {
      stopped ==> |acts| > 0 && acts[|acts| - 1].Fatal?
    }

    function Read(target: Address, q: Query): (r: Session)
      ensures Keeps(this, r)
    {
      Session(acts + [Probe(target, q, Heard())], Rest(rest), stopped)
    }

    function Simulate(c: Call): Session {
      Session(acts + [Action.Simulate(c, Heard())], Rest(rest), stopped)
    }

    function Submit(c: Call): Session {
      Session(acts + [Action.Submit(c, Heard())], Rest(rest), stopped)
    }

    function Wait(depth: nat): Session {
      Session(acts + [Action.Wait(depth, Heard())], Rest(rest), stopped)
    }

    /** Stopping on a failure: an Abort or a Fatal entry; a tolerated failure
        leaves no entry and the script goes on. */
    function Halt(h: Handler, why: Reason): (r: Session)
      ensures Keeps(this, r) && (Going() && h != Tolerate ==> r.Ended())
    {
      match h
      case Exit => Session(acts + [Abort(why)], rest, true)
      case Throw => Session(acts + [Fatal(why)], rest, true)
      case Tolerate => this
    }
  }

  /**
   * `r` continues `s` without breaking the trace discipline: a run still going
   * is still going or has ended properly, and the preflight and confirmation
   * rules that held of `s` hold of `r`.
   */
  ghost predicate Keeps(s: Session, r: Session) {
    && (s.Going() ==> r.Going() || r.Ended())
    && (forall u :: PreflightedExcept(s.acts, u) ==> PreflightedExcept(r.acts, u))
    && (forall d :: AwaitedTo(s.acts, d) ==> AwaitedTo(r.acts, d))
  }

  /** A fresh run against the given answers. */
  function Start(tape: seq<Reply>): Session {
    Session([], tape, false)
  }

  /**
   * The network connection of one script run. Its answers are the arbitrary
   * tape `replies`; `trace` records every exchange.
   */
  class Remote {
    var trace: seq<Action>
    var replies: seq<Reply>
    var stopped: bool

    function State(): Session
      reads this
    {
      Session(trace, replies, stopped)
    }

    constructor (tape: seq<Reply>)
      ensures State() == Start(tape)
    {
      trace := [];
      replies := tape;
      stopped := false;
    }

    /** Consumes the next reply. */
    method Receive() returns (rep: Reply)
      modifies this
      ensures rep == old(State()).Heard() && replies == Rest(old(replies))
      ensures trace == old(trace) && stopped == old(stopped)
    {
      if replies == [] {
        rep := Failed("no reply");
      } else {
        rep := replies[0];
        replies := replies[1..];
      }
    }

    /** A read-only call `q` to the contract at `target`. */
    method Read(target: Address, q: Query) returns (rep: Reply)
      modifies this
      ensures rep == old(State()).Heard() && State() == old(State()).Read(target, q)
    {
      rep := Receive();
      trace := trace + [Probe(target, q, rep)];
    }

    /** A no-commit dry run of `c`. */
    method Simulate(c: Call) returns (rep: Reply)
      modifies this
      ensures rep == old(State()).Heard() && State() == old(State()).Simulate(c)
    {
      rep := Receive();
      trace := trace + [Action.Simulate(c, rep)];
    }

    /** Dispatches `c` as a transaction. */
    method Submit(c: Call) returns (rep: Reply)
      modifies this
      ensures rep == old(State()).Heard() && State() == old(State()).Submit(c)
    {
      rep := Receive();
      trace := trace + [Action.Submit(c, rep)];
    }

    /** `tx.wait(depth)` on the transaction just submitted. */
    method Wait(depth: nat) returns (rep: Reply)
      modifies this
      ensures rep == old(State()).Heard() && State() == old(State()).Wait(depth)
    {
      rep := Receive();
      trace := trace + [Action.Wait(depth, rep)];
    }

    /** How the script stops on a failure: an Abort or Fatal entry, or nothing. */
    method Halt(h: Handler, why: Reason)
      modifies this
      ensures State() == old(State()).Halt(h, why)
    {
      match h
      case Exit => trace, stopped := trace + [Abort(why)], true;
      case Throw => trace, stopped := trace + [Fatal(why)], true;
      case Tolerate =>
    }
  }
}
