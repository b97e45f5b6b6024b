/**
 * scripts/authorizeRecipientOnly.js: the identity workflow alone. The final
 * verification status is printed, not enforced.
 */
module AuthorizeRecipientOnly {
  import opened Network
  import opened Submission
  import opened Identities

  const DEPTHS: map<string, nat> := map["Identity" := 2, "registerIdentity" := 2]

  function Behaviour(token: Address, wallet: Address, s: Session): Session {
    Authorize(s, token, wallet, false)
  }

  method Execute(r: Remote, token: Address, wallet: Address)
    requires !r.stopped
    modifies r
    ensures r.State() == Behaviour(token, wallet, old(r.State()))
  {
    var _ := RunAuthorize(r, token, wallet, false);
  }

  lemma EndsProperly(token: Address, wallet: Address, tape: seq<Reply>)
    ensures var r := Behaviour(token, wallet, Start(tape)); r.Going() || r.Ended()
  {
  }

  lemma OnlyIdentityUnsimulated(token: Address, wallet: Address, tape: seq<Reply>, u: set<string>)
    requires "Identity" in u
    ensures PreflightedExcept(Behaviour(token, wallet, Start(tape)).acts, u)
  {
    AuthorizeExemptsIdentity(Start(tape), token, wallet, false, u);
  }

  lemma TransactionsAwaited(token: Address, wallet: Address, tape: seq<Reply>)
    ensures AwaitedTo(Behaviour(token, wallet, Start(tape)).acts, DEPTHS)
  {
    assert IdentityDepths(DEPTHS);
    assert AwaitedTo([], DEPTHS);
  }
}
