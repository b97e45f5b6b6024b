/**
 * scripts/pauseToken.js: pause the token after a capability gate and the
 * optional agent gate; an already-paused token is left alone; otherwise the
 * pause is simulated, submitted and awaited to depth 2.
 */
module PauseToken {
  import opened Capability
  import opened Network
  import opened Submission
  import opened Gates

  function PauseCall(token: Address): Call {
    Invoke(token, "pause", [])
  }

  const DEPTHS: map<string, nat> := map["pause" := 2]

  function Behaviour(token: Address, agent: Address, fns: seq<string>, s: Session): Session {
    if !ExposesExactOrPrefix(fns, "pause()") then s.Halt(Exit, NotExposed(["pause()"], fns))
    else
      var s1 := AgentGate(s, token, agent, ExposesExactOrPrefix(fns, "isAgent("), Tolerate);
      if s1.stopped then s1 else Pausing(token, s1)
  }

  /** After the gates: the already-paused early return, then the pause itself
      and a final read whose failure is ignored. */
  function Pausing(token: Address, s: Session): Session {
    var before := s.Heard();
    var s1 := s.Read(token, Paused);
    if before == Bool(true) then s1
    else
      var s2 := Transaction(s1, PauseCall(token), 2, Exit, Exit);
      if s2.stopped then s2 else Expect(s2, token, Paused, Tolerate)
  }

  method Execute(r: Remote, token: Address, agent: Address, fns: seq<string>)
    requires !r.stopped
    modifies r
    ensures r.State() == Behaviour(token, agent, fns, old(r.State()))
  {
    if !ExposesExactOrPrefix(fns, "pause()") {
      r.Halt(Exit, NotExposed(["pause()"], fns));
      return;
    }
    var isAgent := CheckAgent(r, token, agent, ExposesExactOrPrefix(fns, "isAgent("), Tolerate);
    if !isAgent {
      return;
    }
    var before := r.Read(token, Paused);
    if before == Bool(true) {
      return;
    }
    var landed, _ := Transact(r, PauseCall(token), 2, Exit, Exit);
    if landed {
      var _, _ := ExpectRead(r, token, Paused, Tolerate);
    }
  }

  lemma EndsProperly(token: Address, agent: Address, fns: seq<string>, tape: seq<Reply>)
    ensures var r := Behaviour(token, agent, fns, Start(tape)); r.Going() || r.Ended()
  {
  }

  lemma PausePreflighted(token: Address, agent: Address, fns: seq<string>, tape: seq<Reply>)
    ensures Preflighted(Behaviour(token, agent, fns, Start(tape)).acts)
  {
  }

  lemma PauseAwaited(token: Address, agent: Address, fns: seq<string>, tape: seq<Reply>)
    ensures AwaitedTo(Behaviour(token, agent, fns, Start(tape)).acts, DEPTHS)
  {
    assert Name(PauseCall(token)) in DEPTHS && DEPTHS[Name(PauseCall(token))] == 2;
    assert AwaitedTo([], DEPTHS);
  }

  lemma NotExposedAborts(token: Address, agent: Address, fns: seq<string>, tape: seq<Reply>)
    requires !ExposesExactOrPrefix(fns, "pause()")
    ensures Behaviour(token, agent, fns, Start(tape)).acts == [Abort(NotExposed(["pause()"], fns))]
  {
  }

  lemma NonAgentAborts(token: Address, agent: Address, fns: seq<string>, rest: seq<Reply>)
    requires ExposesExactOrPrefix(fns, "pause()") && ExposesExactOrPrefix(fns, "isAgent(")
    ensures Behaviour(token, agent, fns, Start([Bool(false)] + rest)).acts
      == [Probe(token, IsAgent(agent), Bool(false)), Abort(NotAgent)]
  {
  }

  /** A failed `isAgent` call is ignored. */
  lemma AgentErrorIgnored(token: Address, agent: Address, fns: seq<string>, e: Reply, rest: seq<Reply>)
    requires ExposesExactOrPrefix(fns, "pause()") && ExposesExactOrPrefix(fns, "isAgent(") && !e.Bool?
    ensures Behaviour(token, agent, fns, Start([e] + rest)) == Pausing(token, Start([e] + rest).Read(token, IsAgent(agent)))
  {
  }

  /** Pausing a paused token does nothing: the run ends normally after reading
      the flag, with no simulation and no transaction. */
  lemma AlreadyPausedIsNoOp(token: Address, s: Session)
    requires s.Heard() == Bool(true) && !s.stopped
    ensures Pausing(token, s).acts == s.acts + [Probe(token, Paused, Bool(true))] && !Pausing(token, s).stopped
  {
  }

  /** A failed `paused()` read goes on to the simulation. */
  lemma PausedErrorContinues(token: Address, s: Session)
    requires !s.Heard().Bool?
    ensures var t := Pausing(token, s).acts;
      |t| > |s.acts| + 1 && t[|s.acts| + 1] == Action.Simulate(PauseCall(token), t[|s.acts| + 1].reply)
  {
  }

  /** After a confirmed pause, a failed final `paused()` read is ignored: it is
      the last step and the run ends normally. */
  lemma FinalReadErrorIgnored(token: Address, s: Session, logs: seq<Log>, why: string)
    requires !s.stopped && s.rest == [Bool(false), Ok, Ok, Receipt(logs), Failed(why)]
    ensures var r := Pausing(token, s);
      !r.stopped && |r.acts| > 0 && r.acts[|r.acts| - 1] == Probe(token, Paused, Failed(why))
  {
    var c := PauseCall(token);
    var s1 := s.Read(token, Paused);
    assert s1.rest == [Ok, Ok, Receipt(logs), Failed(why)];
    assert s1.Simulate(c).rest == [Ok, Receipt(logs), Failed(why)];
    assert s1.Simulate(c).Submit(c).rest == [Receipt(logs), Failed(why)];
    assert Transaction(s1, c, 2, Exit, Exit) == s1.Simulate(c).Submit(c).Wait(2);
  }

  /** A failed simulation aborts with nothing submitted. */
  lemma RevertedPauseAborts(token: Address, s: Session, why: string, rest: seq<Reply>)
    requires s.rest == [Bool(false), Failed(why)] + rest
    ensures Pausing(token, s).acts
      == s.acts + [Probe(token, Paused, Bool(false)), Action.Simulate(PauseCall(token), Failed(why)),
                   Abort(Reverted(PauseCall(token), why))]
  {
  }
}
