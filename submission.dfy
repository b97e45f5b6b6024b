/**
 * Preflight simulation, submission and confirmation waiting, and the trace
 * discipline they keep.
 */
module Submission {
  import opened Network

  /** Whether a simulated transaction of `c` started in `s` passes its simulation,
      is accepted and is confirmed. */
  predicate Lands(s: Session, c: Call) {
    Passed(s.Heard()) && Sent(c, s.Simulate(c).Heard()) && Confirmed(s.Simulate(c).Submit(c).Heard())
  }

  /** The receipt such a transaction's wait yields. */
  function ReceiptOf(s: Session, c: Call): Reply {
    s.Simulate(c).Submit(c).Heard()
  }

  /** Whether an unsimulated submission of `c` started in `s` is accepted and confirmed. */
  predicate DispatchLands(s: Session, c: Call) {
    Sent(c, s.Heard()) && Confirmed(s.Submit(c).Heard())
  }

  /**
   * Simulate `c`, then submit it, then wait for `depth` confirmations. A
   * simulation that fails is handled by `onRevert`, and nothing is submitted; a
   * failed submission or wait is handled by `onFail`.
   */
  function Transaction(s: Session, c: Call, depth: nat, onRevert: Handler, onFail: Handler): (r: Session)
    ensures s.Going() && onRevert != Tolerate && onFail != Tolerate ==> r.Going() || r.Ended()
    ensures forall u :: PreflightedExcept(s.acts, u) ==> PreflightedExcept(r.acts, u)
    ensures forall d :: AwaitedTo(s.acts, d) && Name(c) in d && d[Name(c)] == depth ==> AwaitedTo(r.acts, d)
  {
    var sim := s.Heard();
    var s1 := s.Simulate(c);
    Extend(s.acts, Action.Simulate(c, sim));
    if !Passed(sim) then s1.Halt(onRevert, Reverted(c, Why(sim)))
    else Dispatch(s1, c, depth, onFail)
  }

  /** Submit `c`, then wait for `depth` confirmations; a failed submission or wait
      is handled by `onFail`. Called directly, the submission is not simulated. */
  function Dispatch(s: Session, c: Call, depth: nat, onFail: Handler): (r: Session)
    ensures s.Going() && onFail != Tolerate ==> r.Going() || r.Ended()
    ensures forall u :: PreflightedExcept(s.acts, u) && (Name(c) in u || SimulatedLast(s.acts, c)) ==> PreflightedExcept(r.acts, u)
    ensures forall d :: AwaitedTo(s.acts, d) && Name(c) in d && d[Name(c)] == depth ==> AwaitedTo(r.acts, d)
  {
    var sent := s.Heard();
    var s1 := s.Submit(c);
    Extend(s.acts, Action.Submit(c, sent));
    if !Sent(c, sent) then s1.Halt(onFail, TxFailed(c, Why(sent)))
    else Confirm(s1, depth, c, onFail)
  }

  /** Wait for `depth` confirmations of the submission of `c` just made; a failed
      wait is handled by `onFail`. */
  function Confirm(s: Session, depth: nat, c: Call, onFail: Handler): (r: Session)
    ensures s.Going() && onFail != Tolerate ==> r.Going() || r.Ended()
    ensures forall u :: PreflightedExcept(s.acts, u) ==> PreflightedExcept(r.acts, u)
    ensures forall d ::
      (Awaiting(s.acts, d) && (Pending(s.acts) ==> depth == d[Name(s.acts[|s.acts| - 1].call)])
       ==> AwaitedTo(r.acts, d))
  {
    var rc := s.Heard();
    var s1 := s.Wait(depth);
    Extend(s.acts, Action.Wait(depth, rc));
    if !Confirmed(rc) then s1.Halt(onFail, TxFailed(c, Why(rc))) else s1
  }

  method Transact(r: Remote, c: Call, depth: nat, onRevert: Handler, onFail: Handler) returns (landed: bool, receipt: Reply)
    modifies r
    ensures r.State() == Transaction(old(r.State()), c, depth, onRevert, onFail)
    ensures landed == Lands(old(r.State()), c)
    ensures landed ==> receipt == ReceiptOf(old(r.State()), c)
  {
    var sim := r.Simulate(c);
    if !Passed(sim) {
      r.Halt(onRevert, Reverted(c, Why(sim)));
      return false, sim;
    }
    var sent := r.Submit(c);
    if !Sent(c, sent) {
      r.Halt(onFail, TxFailed(c, Why(sent)));
      return false, sent;
    }
    receipt := r.Wait(depth);
    landed := Confirmed(receipt);
    if !landed {
      r.Halt(onFail, TxFailed(c, Why(receipt)));
    }
  }

  method Send(r: Remote, c: Call, depth: nat, onFail: Handler) returns (landed: bool)
    modifies r
    ensures r.State() == Dispatch(old(r.State()), c, depth, onFail)
    ensures landed == DispatchLands(old(r.State()), c)
  {
    var sent := r.Submit(c);
    if !Sent(c, sent) {
      r.Halt(onFail, TxFailed(c, Why(sent)));
      return false;
    }
    var rc := r.Wait(depth);
    if !Confirmed(rc) {
      r.Halt(onFail, TxFailed(c, Why(rc)));
      return false;
    }
    return true;
  }

  /** With no handler catching, a failed submission or wait stops the run with a
      Fatal entry. */
  lemma DispatchThrowsFatally(s: Session, c: Call, depth: nat)
    requires !s.stopped
    ensures Dispatch(s, c, depth, Throw).StoppedFatally()
  {
  }

  /** With no handler catching, a failed simulation, submission or wait stops the
      run with a Fatal entry. */
  lemma TransactionThrowsFatally(s: Session, c: Call, depth: nat)
    requires !s.stopped
    ensures Transaction(s, c, depth, Throw, Throw).StoppedFatally()
  {
    DispatchThrowsFatally(s.Simulate(c), c, depth);
  }

  // ---------------------------------------------------------------------------
  // Trace discipline

  /** Every submission comes right after a passing simulation of the same call. */
  predicate Preflighted(t: seq<Action>) {
    PreflightedExcept(t, {})
  }

  /** The run submits nothing. */
  predicate NoSubmission(t: seq<Action>) {
    forall i :: 0 <= i < |t| ==> !t[i].Submit?
  }
}
