/**
 * scripts/04_authorizeAndTransfer.js: make sure the recipient has an identity
 * and is verified, then transfer 25 tokens to it. Nothing is caught: every
 * failure, and a recipient still unverified, is fatal.
 */
module AuthorizeAndTransfer {
  import opened Network
  import opened Submission
  import opened Gates
  import opened Identities

  const AMOUNT: nat := Units(25)

  function TransferCall(token: Address, wallet: Address): Call {
    Invoke(token, "transfer", [AddressArg(wallet), UintArg(AMOUNT)])
  }

  const DEPTHS: map<string, nat> := map["Identity" := 2, "registerIdentity" := 2, "transfer" := 2]

  function Behaviour(token: Address, wallet: Address, s: Session): Session {
    var s1 := Authorize(s, token, wallet, true);
    if s1.stopped then s1 else Transaction(s1, TransferCall(token, wallet), 2, Throw, Throw)
  }

  method Execute(r: Remote, token: Address, wallet: Address)
    requires !r.stopped
    modifies r
    ensures r.State() == Behaviour(token, wallet, old(r.State()))
  {
    var ok := RunAuthorize(r, token, wallet, true);
    if ok {
      var _, _ := Transact(r, TransferCall(token, wallet), 2, Throw, Throw);
    }
  }

  /** Every run ends going or stopped properly, and since nothing is caught,
      every stop is a Fatal entry. */
  lemma EndsProperly(token: Address, wallet: Address, tape: seq<Reply>)
    ensures var r := Behaviour(token, wallet, Start(tape)); r.Going() || r.Ended()
    ensures var r := Behaviour(token, wallet, Start(tape)); r.stopped ==> |r.acts| > 0 && r.acts[|r.acts| - 1].Fatal?
  {
    AuthorizeStopsFatally(Start(tape), token, wallet, true);
    var s1 := Authorize(Start(tape), token, wallet, true);
    if !s1.stopped {
      TransactionThrowsFatally(s1, TransferCall(token, wallet), 2);
    }
  }

  /** Every submission but the identity deployment follows a passing simulation
      of the same call. */
  lemma OnlyIdentityUnsimulated(token: Address, wallet: Address, tape: seq<Reply>, u: set<string>)
    requires "Identity" in u
    ensures PreflightedExcept(Behaviour(token, wallet, Start(tape)).acts, u)
  {
    AuthorizeExemptsIdentity(Start(tape), token, wallet, true, u);
  }

  lemma TransactionsAwaited(token: Address, wallet: Address, tape: seq<Reply>)
    ensures AwaitedTo(Behaviour(token, wallet, Start(tape)).acts, DEPTHS)
  {
    assert IdentityDepths(DEPTHS);
    assert Name(TransferCall(token, wallet)) in DEPTHS && DEPTHS[Name(TransferCall(token, wallet))] == 2;
    assert AwaitedTo([], DEPTHS);
  }

  /** The transfer is only attempted right after a verification read of the
      recipient that answered true. */
  lemma TransferOnlyToVerified(token: Address, wallet: Address, s: Session)
    ensures var a := Authorize(s, token, wallet, true);
      Behaviour(token, wallet, s) == a
      || (ConfirmedVerified(a.acts, wallet) && Behaviour(token, wallet, s) == Transaction(a, TransferCall(token, wallet), 2, Throw, Throw))
  {
  }
}
