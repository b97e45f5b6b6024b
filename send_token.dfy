/**
 * scripts/sendToken.js: a plain transfer of 500 tokens, simulated first and
 * awaited to depth 2. An error at any step reaches the fatal handler.
 */
module SendToken {
  import opened Network
  import opened Submission

  /** `parseUnits("500", 18)` */
  const AMOUNT: nat := Units(500)

  function TransferCall(token: Address, to: Address): Call {
    Invoke(token, "transfer", [AddressArg(to), UintArg(AMOUNT)])
  }

  const DEPTHS: map<string, nat> := map["transfer" := 2]

  function Behaviour(token: Address, to: Address, s: Session): Session {
    Transaction(s, TransferCall(token, to), 2, Throw, Throw)
  }

  method Execute(r: Remote, token: Address, to: Address)
    requires !r.stopped
    modifies r
    ensures r.State() == Behaviour(token, to, old(r.State()))
  {
    var _, _ := Transact(r, TransferCall(token, to), 2, Throw, Throw);
  }

  lemma EndsProperly(token: Address, to: Address, tape: seq<Reply>)
    ensures var r := Behaviour(token, to, Start(tape)); r.Going() || r.Ended()
  {
  }

  lemma TransferPreflighted(token: Address, to: Address, tape: seq<Reply>)
    ensures Preflighted(Behaviour(token, to, Start(tape)).acts)
  {
  }

  lemma TransferAwaited(token: Address, to: Address, tape: seq<Reply>)
    ensures AwaitedTo(Behaviour(token, to, Start(tape)).acts, DEPTHS)
  {
    assert Name(TransferCall(token, to)) in DEPTHS && DEPTHS[Name(TransferCall(token, to))] == 2;
    assert AwaitedTo([], DEPTHS);
  }

  /** A rejected simulation reaches the fatal handler and nothing is sent. */
  lemma RejectedIsFatal(token: Address, to: Address, why: string, rest: seq<Reply>)
    ensures Behaviour(token, to, Start([Failed(why)] + rest)).acts
      == [Action.Simulate(TransferCall(token, to), Failed(why)), Fatal(Reverted(TransferCall(token, to), why))]
  {
  }

  /** The transfer the simulation approved is the one submitted, then awaited. */
  lemma TransferLands(token: Address, to: Address, sim: Reply, sent: Reply, logs: seq<Log>)
    requires Passed(sim) && Passed(sent)
    ensures Behaviour(token, to, Start([sim, sent, Receipt(logs)])).acts
      == [Action.Simulate(TransferCall(token, to), sim), Action.Submit(TransferCall(token, to), sent),
          Action.Wait(2, Receipt(logs))]
  {
  }
}
