/**
 * scripts/linkTrexToIdFactory.js: register the TREX factory with the identity
 * factory through `addTokenFactory`, after checking that the identity factory
 * exposes it. The call is not simulated and is awaited to depth 1.
 */
module LinkTrexToIdFactory {
  import opened Capability
  import opened Network
  import opened Submission

  function AddTokenFactoryCall(idFactory: Address, trexFactory: Address): Call {
    Invoke(idFactory, "addTokenFactory", [AddressArg(trexFactory)])
  }

  const DEPTHS: map<string, nat> := map["addTokenFactory" := 1]

  function Behaviour(idFactory: Address, trexFactory: Address, fns: seq<string>, s: Session): Session {
    if !Exposes(fns, "addTokenFactory(") then s.Halt(Exit, NotExposed(["addTokenFactory("], fns))
    else Dispatch(s, AddTokenFactoryCall(idFactory, trexFactory), 1, Throw)
  }

  method Execute(r: Remote, idFactory: Address, trexFactory: Address, fns: seq<string>)
    requires !r.stopped
    modifies r
    ensures r.State() == Behaviour(idFactory, trexFactory, fns, old(r.State()))
  {
    if !Exposes(fns, "addTokenFactory(") {
      r.Halt(Exit, NotExposed(["addTokenFactory("], fns));
      return;
    }
    var _ := Send(r, AddTokenFactoryCall(idFactory, trexFactory), 1, Throw);
  }

  /** Every run ends going or stopped properly; once the capability is there,
      every stop is a Fatal entry. */
  lemma EndsProperly(idFactory: Address, trexFactory: Address, fns: seq<string>, tape: seq<Reply>)
    ensures var r := Behaviour(idFactory, trexFactory, fns, Start(tape)); r.Going() || r.Ended()
    ensures var r := Behaviour(idFactory, trexFactory, fns, Start(tape));
      Exposes(fns, "addTokenFactory(") && r.stopped ==> |r.acts| > 0 && r.acts[|r.acts| - 1].Fatal?
  {
    DispatchThrowsFatally(Start(tape), AddTokenFactoryCall(idFactory, trexFactory), 1);
  }

  /** Only `addTokenFactory` is submitted, and once accepted it is awaited to depth 1. */
  lemma LinkAwaited(idFactory: Address, trexFactory: Address, fns: seq<string>, tape: seq<Reply>)
    ensures AwaitedTo(Behaviour(idFactory, trexFactory, fns, Start(tape)).acts, DEPTHS)
  {
    assert Name(AddTokenFactoryCall(idFactory, trexFactory)) in DEPTHS;
    assert DEPTHS[Name(AddTokenFactoryCall(idFactory, trexFactory))] == 1;
    assert AwaitedTo([], DEPTHS);
  }

  /** `addTokenFactory` is the one call sent without a simulation. */
  lemma OnlyLinkUnsimulated(idFactory: Address, trexFactory: Address, fns: seq<string>, tape: seq<Reply>)
    ensures PreflightedExcept(Behaviour(idFactory, trexFactory, fns, Start(tape)).acts, {"addTokenFactory"})
  {
    assert Name(AddTokenFactoryCall(idFactory, trexFactory)) in {"addTokenFactory"};
    assert PreflightedExcept([], {"addTokenFactory"});
  }

  /** Without the capability the run aborts, listing every exposed name. */
  lemma NotExposedAborts(idFactory: Address, trexFactory: Address, fns: seq<string>, tape: seq<Reply>)
    requires !Exposes(fns, "addTokenFactory(")
    ensures Behaviour(idFactory, trexFactory, fns, Start(tape)).acts == [Abort(NotExposed(["addTokenFactory("], fns))]
  {
  }

  /** With it, the run's first step is the one submission, with no simulation
      before it, and any failure is fatal. */
  lemma SingleSubmission(idFactory: Address, trexFactory: Address, fns: seq<string>, tape: seq<Reply>)
    requires Exposes(fns, "addTokenFactory(")
    ensures var t := Behaviour(idFactory, trexFactory, fns, Start(tape)).acts;
      && t[0] == Action.Submit(AddTokenFactoryCall(idFactory, trexFactory), Next(tape))
      && (forall i :: 1 <= i < |t| ==> !t[i].Submit? && !t[i].Simulate? && !t[i].Abort?)
  {
  }
}
