/**
 * Read-only checks that several scripts share: a read whose failure stops the
 * run, the optional agent-role gate, and the verification status report.
 */
module Gates {
  import opened Network

  /** Read `q`; a failed or malformed reply is handled by `h`. */
  function Expect(s: Session, target: Address, q: Query, h: Handler): (r: Session)
    ensures Keeps(s, r)
  {
    var rep := s.Heard();
    var s1 := s.Read(target, q);
    if Fits(q, rep) then s1 else s1.Halt(h, ReadFailed(q, Why(rep)))
  }

  /** An uncaught read failure stops the run with a Fatal entry. */
  lemma ExpectThrowsFatally(s: Session, target: Address, q: Query)
    requires !s.stopped
    ensures Expect(s, target, q, Throw).StoppedFatally()
  {
  }

  method ExpectRead(r: Remote, target: Address, q: Query, h: Handler) returns (ok: bool, rep: Reply)
    modifies r
    ensures rep == old(r.State()).Heard() && ok == Fits(q, rep)
    ensures r.State() == Expect(old(r.State()), target, q, h)
  {
    rep := r.Read(target, q);
    ok := Fits(q, rep);
    if !ok {
      r.Halt(h, ReadFailed(q, Why(rep)));
    }
  }

  /**
   * `if (has("isAgent(")) { isAgent = await token.isAgent(signer); if (!isAgent) exit }`:
   * only a definite `false` stops the run; a failed call is handled by `onError`
   * (tolerated by most scripts, fatal where the call is not wrapped in a try).
   */
  function AgentGate(s: Session, token: Address, signer: Address, exposed: bool, onError: Handler): (r: Session)
    ensures Keeps(s, r)
  {
    if !exposed then s
    else
      var rep := s.Heard();
      var s1 := s.Read(token, IsAgent(signer));
      if rep == Bool(false) then s1.Halt(Exit, NotAgent)
      else if !rep.Bool? then s1.Halt(onError, ReadFailed(IsAgent(signer), Why(rep)))
      else s1
  }

  method CheckAgent(r: Remote, token: Address, signer: Address, exposed: bool, onError: Handler) returns (ok: bool)
    modifies r
    ensures r.State() == AgentGate(old(r.State()), token, signer, exposed, onError)
    ensures ok <==> !exposed || old(r.State()).Heard() == Bool(true) || (!old(r.State()).Heard().Bool? && onError == Tolerate)
  {
    if !exposed {
      return true;
    }
    var rep := r.Read(token, IsAgent(signer));
    if rep == Bool(false) {
      r.Halt(Exit, NotAgent);
      return false;
    }
    if !rep.Bool? {
      r.Halt(onError, ReadFailed(IsAgent(signer), Why(rep)));
      return onError == Tolerate;
    }
    return true;
  }

  /**
   * `try { ir = identityRegistry(); isVerified(a); isVerified(b) } catch { skip }`:
   * status shown to the operator only; a failure skips the rest of the block.
   */
  function ReportVerification(s: Session, token: Address, a: Address, b: Address): (r: Session)
    ensures Keeps(s, r)
  {
    var irRep := s.Heard();
    var s1 := s.Read(token, IdentityRegistry);
    if !irRep.Addr? then s1
    else
      var va := s1.Heard();
      var s2 := s1.Read(irRep.a, IsVerified(a));
      if !va.Bool? then s2 else s2.Read(irRep.a, IsVerified(b))
  }

  method ShowVerification(r: Remote, token: Address, a: Address, b: Address)
    modifies r
    ensures r.State() == ReportVerification(old(r.State()), token, a, b)
  {
    var irRep := r.Read(token, IdentityRegistry);
    if irRep.Addr? {
      var va := r.Read(irRep.a, IsVerified(a));
      if va.Bool? {
        var _ := r.Read(irRep.a, IsVerified(b));
      }
    }
  }
}
