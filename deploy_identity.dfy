/**
 * scripts/01_deployIdentity.js: deploy an ONCHAINID Identity whose management
 * key is the investor wallet. A gas estimate of the same constructor call is the
 * pre-check; the deployment is awaited to depth 2.
 */
module DeployIdentity {
  import opened Network
  import opened Submission
  import opened Identities

  const DEPTHS: map<string, nat> := map["Identity" := 2]

  /** The pre-check is the simulation of the deployment; both failures exit. */
  function Behaviour(wallet: Address, s: Session): Session {
    Transaction(s, IdentityDeploy(wallet), 2, Exit, Exit)
  }

  method Execute(r: Remote, wallet: Address)
    requires !r.stopped
    modifies r
    ensures r.State() == Behaviour(wallet, old(r.State()))
  {
    var _, _ := Transact(r, IdentityDeploy(wallet), 2, Exit, Exit);
  }

  lemma EndsProperly(wallet: Address, tape: seq<Reply>)
    ensures var r := Behaviour(wallet, Start(tape)); r.Going() || r.Ended()
  {
  }

  /** The deployment comes right after a passing pre-check of the same
      constructor arguments. */
  lemma DeployPreflighted(wallet: Address, tape: seq<Reply>)
    ensures Preflighted(Behaviour(wallet, Start(tape)).acts)
  {
  }

  lemma DeployAwaited(wallet: Address, tape: seq<Reply>)
    ensures AwaitedTo(Behaviour(wallet, Start(tape)).acts, DEPTHS)
  {
    assert Name(IdentityDeploy(wallet)) in DEPTHS && DEPTHS[Name(IdentityDeploy(wallet))] == 2;
    assert AwaitedTo([], DEPTHS);
  }

  /** A failed pre-check aborts before any deployment. */
  lemma PrecheckFailureAborts(wallet: Address, why: string, rest: seq<Reply>)
    ensures Behaviour(wallet, Start([Failed(why)] + rest)).acts
      == [Action.Simulate(IdentityDeploy(wallet), Failed(why)), Abort(Reverted(IdentityDeploy(wallet), why))]
  {
  }

  /** A deployment that yields no contract address aborts without a wait. */
  lemma DeployFailureAborts(wallet: Address, est: Reply, sent: Reply)
    requires Passed(est) && !sent.Addr?
    ensures Behaviour(wallet, Start([est, sent])).acts
      == [Action.Simulate(IdentityDeploy(wallet), est), Action.Submit(IdentityDeploy(wallet), sent),
          Abort(TxFailed(IdentityDeploy(wallet), Why(sent)))]
  {
  }

  /** A failed `wait(2)` after an accepted deployment is caught the same way
      and aborts. */
  lemma WaitFailureAborts(wallet: Address, est: Reply, a: Address, why: string, rest: seq<Reply>)
    requires Passed(est)
    ensures Behaviour(wallet, Start([est, Addr(a), Failed(why)] + rest)).acts
      == [Action.Simulate(IdentityDeploy(wallet), est), Action.Submit(IdentityDeploy(wallet), Addr(a)),
          Action.Wait(2, Failed(why)), Abort(TxFailed(IdentityDeploy(wallet), why))]
  {
  }
}
