/** How much Helm work a run can do: applies are paid for by edits, rollbacks by applies. */
module Bounded {
  import opened Api
  import opened Server
  import opened Controller
  import opened Machine
  import opened Soundness
  import opened Ledger
  import opened AtMostOnce
  import opened Passes

  datatype What = Applies | Rollbacks | Edits

  predicate Counts(e: Entry, what: What, uid: nat) {
    match what
    case Applies => IsApply(e, uid)
    case Rollbacks => IsRollback(e, uid)
    case Edits => (e.SpecEdited? && e.uid == uid) || (e.SecretEdited? && uid in e.readers)
  }

  function Count(log: seq<Entry>, what: What, uid: nat): nat {
    if log == [] then 0
    else Count(log[..|log| - 1], what, uid) + if Counts(log[|log| - 1], what, uid) then 1 else 0
  }

  /** A step logs at most one entry. */
  lemma CountMore(log: seq<Entry>, more: seq<Entry>, what: What, uid: nat)
    requires |more| <= 1
    ensures Count(log + more, what, uid) ==
            Count(log, what, uid) + if more != [] && Counts(more[0], what, uid) then 1 else 0
  {
    if more == [] {
      assert log + more == log;
    } else {
      assert (log + more)[..|log|] == log;
    }
  }

  // ---------- rollbacks ----------

  ghost predicate RollbacksPaid(log: seq<Entry>, uid: nat) {
    var a, r := Count(log, Applies, uid), Count(log, Rollbacks, uid);
    if Spent(log, uid) then r <= a else r == 0 || r < a
  }

  /** Every revision number on record, and every rollback on its way, comes from an apply. */
  ghost predicate Charged(s: State, app: App) {
    app.status.revision != 0 ==> 0 < Count(s.log, Applies, app.uid)
  }

  ghost predicate ChargedWorker(s: State) {
    var w := s.worker;
    && (Copy(w).Some? ==> Charged(s, w.app))
    && (w.Persisting? && !w.cause.Applied? ==> Charged(s, w.app.(status := w.status)))
    && (w.WritingAhead? ==> Charged(s, w.app.(status := w.status)) && w.app.status.revision != 0)
    && (w.RollingBack? || w.Refetching? ==> 0 < Count(s.log, Applies, w.app.uid))
  }

  ghost predicate PaidInv(s: State) {
    && OnceInv(s)
    && (forall uid :: RollbacksPaid(s.log, uid))
    && (forall k :: k in s.cluster.apps ==> Charged(s, s.cluster.apps[k]))
    && (forall i :: 0 <= i < |s.cluster.archive| ==> Charged(s, s.cluster.archive[i]))
    && ChargedWorker(s)
  }

  lemma CountsGrow(s: State, e: Event)
    ensures forall what, uid :: Count(s.log, what, uid) <= Count(Step(s, e).log, what, uid)
  {
    StepLogs(s, e);
    forall what, uid ensures Count(s.log, what, uid) <= Count(Step(s, e).log, what, uid) {
      CountMore(s.log, Added(s, e), what, uid);
    }
  }

  lemma PaidOne(log: seq<Entry>, more: seq<Entry>, uid: nat)
    requires RollbacksPaid(log, uid) && |more| <= 1
    requires more != [] && IsRollback(more[0], uid) ==> !Spent(log, uid) && 0 < Count(log, Applies, uid)
    ensures RollbacksPaid(log + more, uid)
  {
    CountMore(log, more, Applies, uid);
    CountMore(log, more, Rollbacks, uid);
    if more == [] {
      assert log + more == log;
    } else {
      assert more == [more[0]];
      SpentSnoc(log, more[0], uid);
    }
  }

  lemma PaidMore(s: State, e: Event)
    requires PaidInv(s)
    ensures forall uid :: RollbacksPaid(Step(s, e).log, uid)
  {
    StepLogs(s, e);
    OnlyRollbacksLogRollbacks(s, e);
    forall uid ensures RollbacksPaid(Step(s, e).log, uid) {
      assert RollbacksPaid(s.log, uid);
      PaidOne(s.log, Added(s, e), uid);
    }
  }

  lemma OnlyRollbacksLogRollbacks(s: State, e: Event)
    ensures Added(s, e) != [] && Added(s, e)[0].RollbackIssued? ==>
              s.worker.RollingBack? && Added(s, e)[0].uid == s.worker.app.uid
  {
  }

  lemma ChargedLater(s: State, e: Event, app: App)
    requires Charged(s, app)
    ensures Charged(Step(s, e), app)
  {
    CountsGrow(s, e);
    assert Count(s.log, Applies, app.uid) <= Count(Step(s, e).log, Applies, app.uid);
  }

  /** A status write leaves the books in order. */
  lemma WriteCharged(s: State, o: Outcome)
    requires PaidInv(s) && Writes(s, Call(o))
    ensures Charged(Step(s, Call(o)), s.worker.app.(status := s.worker.status))
  {
    var app := s.worker.app.(status := s.worker.status);
    CountsGrow(s, Call(o));
    assert Count(s.log, Applies, app.uid) <= Count(Step(s, Call(o)).log, Applies, app.uid);
    if s.worker.Persisting? && s.worker.cause.Applied? {
      CountMore(s.log, CallEntries(s, o), Applies, app.uid);
    }
  }

  lemma StoredCharged(s: State, e: Event)
    requires PaidInv(s)
    ensures var t := Step(s, e);
            forall k :: k in t.cluster.apps ==> Charged(t, t.cluster.apps[k])
  {
    var t := Step(s, e);
    StatusOrigins(s, e);
    forall k | k in t.cluster.apps ensures Charged(t, t.cluster.apps[k]) {
      assert StatusOrigin(s, e, k);
      if Writes(s, e) && k == s.worker.app.key {
        WriteCharged(s, e.outcome);
      } else if k in s.cluster.apps {
        ChargedLater(s, e, s.cluster.apps[k]);
      }
    }
  }

  lemma ArchiveCharged(s: State, e: Event)
    requires PaidInv(s)
    ensures var t := Step(s, e);
            forall i :: 0 <= i < |t.cluster.archive| ==> Charged(t, t.cluster.archive[i])
  {
    var t := Step(s, e);
    ArchiveGrows(s, e);
    StoredCharged(s, e);
    forall i | 0 <= i < |t.cluster.archive| ensures Charged(t, t.cluster.archive[i]) {
      if i < |s.cluster.archive| {
        assert t.cluster.archive[i] == s.cluster.archive[i];
        ChargedLater(s, e, s.cluster.archive[i]);
      }
    }
  }

  lemma AnswerCharged(s: State, o: Outcome)
    requires PaidInv(s) && !s.worker.Idle?
    ensures var a := Serve(s.cluster, NextCall(s.worker), o).1;
            a.GotApp? ==> Charged(Step(s, Call(o)), a.app)
  {
    AnswerOrigin(s.cluster, NextCall(s.worker), o);
    ArchiveCharged(s, Call(o));
    StoredCharged(s, Call(o));
  }

  lemma WorkerCharged(s: State, o: Outcome)
    requires PaidInv(s) && !s.worker.Idle?
    ensures ChargedWorker(Step(s, Call(o)))
  {
    var t, w := Step(s, Call(o)), s.worker;
    var (after, a) := Serve(s.cluster, NextCall(w), o);
    AnswerCharged(s, o);
    CountsGrow(s, Call(o));
    if Copy(w).Some? { assert Count(s.log, Applies, w.app.uid) <= Count(t.log, Applies, w.app.uid); }
    if w.WritingAhead? && a.GotApp? {
      WriteCharged(s, o);
      AnswerToMarker(s.cluster, w.app.(status := w.status), o);
    }
    ResumeCharged(s, t, a, after.clock);
  }

  lemma ResumeCharged(s: State, t: State, a: Response, now: Time)
    requires ChargedWorker(s) && !s.worker.Idle? && t.worker == Resume(s.worker, a, now)
    requires Copy(s.worker).Some? ==> Count(s.log, Applies, s.worker.app.uid) <= Count(t.log, Applies, s.worker.app.uid)
    requires a.GotApp? ==> Charged(t, a.app)
    requires s.worker.WritingAhead? && a.GotApp? ==> a.app.uid == s.worker.app.uid
    ensures ChargedWorker(t)
  {
    ResumeKeepsCopy(s.worker, a, now);
    ResumeShape(s.worker, a, now);
    ResumeRollback(s.worker, a, now);
  }

  lemma StepPaid(s: State, e: Event)
    requires PaidInv(s)
    ensures PaidInv(Step(s, e))
  {
    StepOnce(s, e);
    PaidMore(s, e);
    StoredCharged(s, e);
    ArchiveCharged(s, e);
    if e.Call? && !s.worker.Idle? {
      WorkerCharged(s, e.outcome);
    } else {
      EventCharged(s, e);
    }
  }

  lemma EventCharged(s: State, e: Event)
    requires PaidInv(s) && !(e.Call? && !s.worker.Idle?)
    ensures ChargedWorker(Step(s, e))
  {
    CountsGrow(s, e);
    if Copy(s.worker).Some? {
      assert Count(s.log, Applies, s.worker.app.uid) <= Count(Step(s, e).log, Applies, s.worker.app.uid);
    }
  }

  lemma {:induction false} RunPaid(s: State, events: seq<Event>)
    requires PaidInv(s)
    ensures PaidInv(Run(s, events))
    decreases |events|
  {
    if events != [] {
      StepPaid(s, events[0]);
      RunPaid(Step(s, events[0]), events[1..]);
    }
  }

  /** In every run, an Application's rollbacks number at most its persisted applies. */
  lemma RollbacksAtMostApplies(s: State, events: seq<Event>, uid: nat)
    requires Initial(s)
    ensures var log := Run(s, events).log;
            Count(log, Rollbacks, uid) <= Count(log, Applies, uid)
  {
    RunPaid(s, events);
    assert RollbacksPaid(Run(s, events).log, uid);
  }
}
