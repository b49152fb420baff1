/** Reading the log: which entries are whose, and which of two kinds of entry came last. */
module Ledger {
  import opened Api
  import opened Server
  import opened Machine
  import opened Soundness

  predicate IsApply(e: Entry, uid: nat) {
    e.StatusWritten? && e.uid == uid && e.cause.Applied?
  }

  predicate IsFailure(e: Entry, uid: nat) {
    e.StatusWritten? && e.uid == uid && e.cause.Broke?
  }

  predicate IsRollback(e: Entry, uid: nat) {
    e.RollbackIssued? && e.uid == uid
  }

  predicate IsHelmApply(e: Entry, uid: nat) {
    e.HelmApplied? && e.uid == uid
  }

  /** What the log can be asked about an Application: whether it was rolled back since its last persisted apply; whether
      its last apply in Helm was persisted; whether no failure was persisted since its last persisted apply; whether it
      was a failed workload that last made a pass find it unhealthy. */
  datatype Question = SpentRollback | OnRecord | Unbroken | FoundFailed

  /** What one entry answers, if anything. */
  function Sign(e: Entry, q: Question, uid: nat): Option<bool> {
    match q
    case SpentRollback => if IsRollback(e, uid) then Some(true) else if IsApply(e, uid) then Some(false) else None
    case OnRecord => if IsApply(e, uid) then Some(true) else if IsHelmApply(e, uid) then Some(false) else None
    case Unbroken => if IsApply(e, uid) then Some(true) else if IsFailure(e, uid) then Some(false) else None
    case FoundFailed => if e.FoundUnhealthy? && e.uid == uid then Some(e.grade == Failing) else None
  }

  function LastSign(log: seq<Entry>, q: Question, uid: nat): Option<bool> {
    if log == [] then None
    else if Sign(log[|log| - 1], q, uid).Some? then Sign(log[|log| - 1], q, uid)
    else LastSign(log[..|log| - 1], q, uid)
  }

  lemma LastSignMore(log: seq<Entry>, more: seq<Entry>, q: Question, uid: nat)
    requires |more| <= 1
    ensures LastSign(log + more, q, uid) ==
            if more != [] && Sign(more[0], q, uid).Some? then Sign(more[0], q, uid) else LastSign(log, q, uid)
  {
    if more == [] { assert log + more == log; } else { assert (log + more)[..|log|] == log; }
  }

  // ---------- new Applications are not in the log ----------

  ghost predicate LogBelow(log: seq<Entry>, uids: nat) {
    forall i :: 0 <= i < |log| && !log[i].SecretEdited? ==> log[i].uid < uids
  }

  lemma AddedBelow(s: State, e: Event)
    requires SoundState(s)
    ensures forall i :: 0 <= i < |Added(s, e)| && !Added(s, e)[i].SecretEdited? ==> Added(s, e)[i].uid < s.cluster.uids
  {
    if e.Env? && e.step.EditSpec? && e.step.key in s.cluster.apps {
      assert Known(s.cluster, s.cluster.apps[e.step.key]);
    }
  }

  lemma LogStaysBelow(s: State, e: Event)
    requires SoundState(s) && LogBelow(s.log, s.cluster.uids)
    ensures LogBelow(Step(s, e).log, Step(s, e).cluster.uids)
  {
    var t, es := Step(s, e), Added(s, e);
    StepSound(s, e);
    StepLogs(s, e);
    AddedBelow(s, e);
    forall i | 0 <= i < |t.log| && !t.log[i].SecretEdited? ensures t.log[i].uid < t.cluster.uids {
      if i < |s.log| { assert t.log[i] == s.log[i]; } else { assert t.log[i] == es[i - |s.log|]; }
    }
  }

  lemma {:induction false} FreshUnsigned(log: seq<Entry>, uids: nat, q: Question, uid: nat)
    requires LogBelow(log, uids) && uids <= uid
    ensures LastSign(log, q, uid) == None
  {
    if log != [] {
      var n := |log| - 1;
      assert forall i :: 0 <= i < n ==> log[..n][i] == log[i];
      FreshUnsigned(log[..n], uids, q, uid);
    }
  }
}
