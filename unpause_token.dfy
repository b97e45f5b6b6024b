/**
 * scripts/unpauseToken.js: read the paused flag and send `unpause()` only when
 * it is set, with no capability check and no simulation; then read the flag
 * again. Every error reaches the fatal handler.
 */
module UnpauseToken {
  import opened Network
  import opened Submission
  import opened Gates

  function UnpauseCall(token: Address): Call {
    Invoke(token, "unpause", [])
  }

  const DEPTHS: map<string, nat> := map["unpause" := 2]

  function Behaviour(token: Address, s: Session): Session {
    var paused := s.Heard();
    var s1 := Expect(s, token, Paused, Throw);
    if s1.stopped then s1
    else
      var s2 := if paused == Bool(true) then Dispatch(s1, UnpauseCall(token), 2, Throw) else s1;
      if s2.stopped then s2 else Expect(s2, token, Paused, Throw)
  }

  method Execute(r: Remote, token: Address)
    requires !r.stopped
    modifies r
    ensures r.State() == Behaviour(token, old(r.State()))
  {
    var ok, paused := ExpectRead(r, token, Paused, Throw);
    if !ok {
      return;
    }
    if paused == Bool(true) {
      var landed := Send(r, UnpauseCall(token), 2, Throw);
      if !landed {
        return;
      }
    }
    var _, _ := ExpectRead(r, token, Paused, Throw);
  }

  lemma EndsProperly(token: Address, tape: seq<Reply>)
    ensures var r := Behaviour(token, Start(tape)); r.Going() || r.Ended()
  {
  }

  /** The unpause is the only submission, and once accepted it is awaited to depth 2. */
  lemma UnpauseAwaited(token: Address, tape: seq<Reply>)
    ensures AwaitedTo(Behaviour(token, Start(tape)).acts, DEPTHS)
  {
    assert Name(UnpauseCall(token)) in DEPTHS && DEPTHS[Name(UnpauseCall(token))] == 2;
    assert AwaitedTo([], DEPTHS);
  }

  /** The unpause is sent without a simulation. */
  lemma OnlyUnpauseUnsimulated(token: Address, tape: seq<Reply>)
    ensures PreflightedExcept(Behaviour(token, Start(tape)).acts, {"unpause"})
  {
    assert Name(UnpauseCall(token)) in {"unpause"};
    assert PreflightedExcept([], {"unpause"});
  }

  /** No step of `t` is a simulation, and every submission in it is `unpause()`. */
  predicate UnpauseOnly(t: seq<Action>, token: Address) {
    forall i :: 0 <= i < |t| ==> !t[i].Simulate? && (t[i].Submit? ==> t[i].call == UnpauseCall(token))
  }

  /** Nothing is ever simulated, and `unpause()` is the only call submitted. */
  lemma OnlyUnpauseSubmitted(token: Address, tape: seq<Reply>)
    ensures UnpauseOnly(Behaviour(token, Start(tape)).acts, token)
  {
    var s := Start(tape);
    var s1 := Expect(s, token, Paused, Throw);
    assert UnpauseOnly(s1.acts, token);
    if !s1.stopped {
      var s2 := if s.Heard() == Bool(true) then Dispatch(s1, UnpauseCall(token), 2, Throw) else s1;
      assert UnpauseOnly(s2.acts, token);
      if !s2.stopped {
        assert UnpauseOnly(Expect(s2, token, Paused, Throw).acts, token);
      }
    }
  }

  /** The run opens with the `paused()` read, and `unpause()` is sent exactly
      when that read answers true: a token that is not paused sees no
      transaction. */
  lemma UnpauseOnlyWhenPaused(token: Address, tape: seq<Reply>)
    ensures var t := Behaviour(token, Start(tape)).acts;
      && |t| >= 1 && t[0] == Probe(token, Paused, Next(tape))
      && if Next(tape) == Bool(true) then |t| >= 2 && t[1] == Action.Submit(UnpauseCall(token), t[1].reply)
         else NoSubmission(t)
  {
  }

  /** The first `paused()` read is not caught: its failure is fatal. */
  lemma PausedReadFailureIsFatal(token: Address, why: string, rest: seq<Reply>)
    ensures Behaviour(token, Start([Failed(why)] + rest)).acts
      == [Probe(token, Paused, Failed(why)), Fatal(ReadFailed(Paused, why))]
  {
  }
}
