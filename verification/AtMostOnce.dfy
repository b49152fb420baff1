/** At most one rollback per apply, in every run: with calls failing or crashing anywhere, replies lost, and
    Application reads as stale as the cache likes. */
module AtMostOnce {
  import opened Api
  import opened Server
  import opened Controller
  import opened Machine
  import opened Passes
  import opened Soundness
  import opened Ledger

  /** Between any two rollbacks issued for an Application there is a persisted apply of it. */
  ghost predicate Separated(log: seq<Entry>) {
    forall i, j, uid :: 0 <= i < j < |log| && IsRollback(log[i], uid) && IsRollback(log[j], uid) ==>
      exists k :: i < k < j && IsApply(log[k], uid)
  }

  /** A rollback was issued for this Application since its last persisted apply. */
  predicate Spent(log: seq<Entry>, uid: nat) {
    LastSign(log, SpentRollback, uid) == Some(true)
  }

  lemma SpentSnoc(log: seq<Entry>, e: Entry, uid: nat)
    ensures Spent(log + [e], uid) ==
            if IsRollback(e, uid) then true else if IsApply(e, uid) then false else Spent(log, uid)
  {
    LastSignMore(log, [e], SpentRollback, uid);
  }

  lemma {:induction false} UnspentSeparates(log: seq<Entry>, uid: nat, i: nat)
    requires !Spent(log, uid) && i < |log| && IsRollback(log[i], uid)
    ensures exists k :: i < k < |log| && IsApply(log[k], uid)
  {
    var n := |log| - 1;
    if !IsApply(log[n], uid) {
      UnspentSeparates(log[..n], uid, i);
      var k :| i < k < n && IsApply(log[..n][k], uid);
      assert log[..n][k] == log[k];
    }
  }

  lemma SeparatedSnoc(log: seq<Entry>, e: Entry)
    requires Separated(log)
    requires e.RollbackIssued? ==> !Spent(log, e.uid)
    ensures Separated(log + [e])
  {
    var more := log + [e];
    forall i, j, uid | 0 <= i < j < |more| && IsRollback(more[i], uid) && IsRollback(more[j], uid)
      ensures exists k :: i < k < j && IsApply(more[k], uid)
    {
      if j < |log| {
        var k :| i < k < j && IsApply(log[k], uid);
        assert more[k] == log[k];
      } else {
        UnspentSeparates(log, uid, i);
        var k :| i < k < |log| && IsApply(log[k], uid);
        assert more[k] == log[k];
      }
    }
  }

  /** What a pass has in hand: only an apply resets the marker, and a rollback is reached only past a marker
      written over a status that had none. */
  predicate Marked(w: Worker) {
    match w
    case Persisting(app, status, cause, _) =>
      status.lastFailed == if cause.Applied? then 0 else app.status.lastFailed
    case WritingAhead(app, status) => app.status.lastFailed == 0 && status.lastFailed != 0
    case RollingBack(app) => app.status.lastFailed != 0
    case _ => true
  }

  /** A rollback leaves its marker on the stored Application. */
  ghost predicate StoredMarked(s: State) {
    forall k :: k in s.cluster.apps && Spent(s.log, s.cluster.apps[k].uid) ==> s.cluster.apps[k].status.lastFailed != 0
  }

  /** A rollback about to be issued is the first since the last apply, and its marker is stored. */
  ghost predicate PendingMarked(s: State) {
    s.worker.RollingBack? ==>
      !Spent(s.log, s.worker.app.uid) &&
      forall k :: k in s.cluster.apps && s.cluster.apps[k].uid == s.worker.app.uid ==>
        s.cluster.apps[k].status.lastFailed != 0
  }

  ghost predicate OnceInv(s: State) {
    && SoundState(s)
    && Marked(s.worker)
    && LogBelow(s.log, s.cluster.uids)
    && StoredMarked(s)
    && PendingMarked(s)
    && Separated(s.log)
  }

  /** Events that neither issue a rollback nor move a marker. */
  lemma UnmovedMarks(s: State, t: State)
    requires StoredMarked(s) && PendingMarked(s)
    requires Copy(s.worker).Some? ==> s.worker.app.uid < s.cluster.uids
    requires forall uid :: Spent(t.log, uid) == Spent(s.log, uid)
    requires !Spent(s.log, s.cluster.uids)
    requires forall k :: k in t.cluster.apps ==>
               if k in s.cluster.apps then
                 t.cluster.apps[k].uid == s.cluster.apps[k].uid &&
                 t.cluster.apps[k].status.lastFailed == s.cluster.apps[k].status.lastFailed
               else t.cluster.apps[k].uid == s.cluster.uids
    requires t.worker.RollingBack? ==> t.worker == s.worker
    ensures StoredMarked(t) && PendingMarked(t)
  {
  }

  lemma ResumeMarked(w: Worker, a: Response, now: Time)
    requires !w.Idle? && Marked(w)
    requires w.WritingAhead? && a.GotApp? ==> a.app.status == w.status
    ensures Marked(Resume(w, a, now))
  {
    ResumeShape(w, a, now);
    ResumeRollback(w, a, now);
    if w.RollingBack? { ResumeDescends(w, a, now); }
  }

  /** Entries that are neither rollbacks nor applies change nothing here. */
  lemma Irrelevant(log: seq<Entry>, more: seq<Entry>)
    requires |more| <= 1
    requires more != [] ==> !more[0].RollbackIssued? && !(more[0].StatusWritten? && more[0].cause.Applied?)
    ensures forall uid :: Spent(log + more, uid) == Spent(log, uid)
    ensures Separated(log) ==> Separated(log + more)
  {
    if more == [] {
      assert log + more == log;
    } else {
      assert more == [more[0]];
      forall uid ensures Spent(log + more, uid) == Spent(log, uid) { SpentSnoc(log, more[0], uid); }
      if Separated(log) { SeparatedSnoc(log, more[0]); }
    }
  }

  lemma EnvOnce(s: State, step: EnvStep)
    requires OnceInv(s)
    ensures OnceInv(Step(s, Env(step)))
  {
    StepSound(s, Env(step));
    EnvStatuses(s.cluster, step);
    Irrelevant(s.log, EnvEntries(s.cluster, step));
    FreshUnsigned(s.log, s.cluster.uids, SpentRollback, s.cluster.uids);
    LogStaysBelow(s, Env(step));
    UnmovedMarks(s, Step(s, Env(step)));
  }

  lemma AnswerToMarker(c: Cluster, app: App, o: Outcome)
    requires Sound(c)
    ensures var a := Serve(c, UpdateStatus(app), o).1;
            a.GotApp? ==> a.app.status == app.status && a.app.uid == c.apps[app.key].uid && app.key in c.apps
  {
  }

  lemma CallSound(s: State, o: Outcome)
    requires OnceInv(s) && !s.worker.Idle?
    ensures var t := Step(s, Call(o));
            SoundState(t) && Marked(t.worker) && LogBelow(t.log, t.cluster.uids)
  {
    StepSound(s, Call(o));
    if s.worker.WritingAhead? { AnswerToMarker(s.cluster, s.worker.app.(status := s.worker.status), o); }
    var (after, a) := Serve(s.cluster, NextCall(s.worker), o);
    ResumeMarked(s.worker, a, after.clock);
    LogStaysBelow(s, Call(o));
  }

  lemma RollbackOnce(s: State, o: Outcome)
    requires OnceInv(s) && s.worker.RollingBack?
    ensures OnceInv(Step(s, Call(o)))
  {
    CallSound(s, o);
    SeparatedSnoc(s.log, CallEntries(s, o)[0]);
    RollbackSpends(s, o);
    RollbackMarked(s, o);
  }

  lemma RollbackSpends(s: State, o: Outcome)
    requires s.worker.RollingBack?
    ensures forall uid :: Spent(Step(s, Call(o)).log, uid) == (uid == s.worker.app.uid || Spent(s.log, uid))
  {
    forall uid ensures Spent(Step(s, Call(o)).log, uid) == (uid == s.worker.app.uid || Spent(s.log, uid)) {
      SpentSnoc(s.log, CallEntries(s, o)[0], uid);
    }
  }

  /** The rollback's own Application is marked, and no status moves. */
  lemma RollbackMarked(s: State, o: Outcome)
    requires s.worker.RollingBack? && SoundState(s) && StoredMarked(s) && PendingMarked(s)
    requires forall uid :: Spent(Step(s, Call(o)).log, uid) == (uid == s.worker.app.uid || Spent(s.log, uid))
    ensures StoredMarked(Step(s, Call(o))) && PendingMarked(Step(s, Call(o)))
  {
    StatusOrigins(s, Call(o));
    var t := Step(s, Call(o));
    forall k | k in t.cluster.apps && Spent(t.log, t.cluster.apps[k].uid)
      ensures t.cluster.apps[k].status.lastFailed != 0
    {
      assert StatusOrigin(s, Call(o), k);
    }
  }

  lemma ApplyOnce(s: State, o: Outcome)
    requires OnceInv(s) && s.worker.Persisting? && s.worker.cause.Applied? && Writes(s, Call(o))
    ensures OnceInv(Step(s, Call(o)))
  {
    var t, e := Step(s, Call(o)), CallEntries(s, o)[0];
    CallSound(s, o);
    StatusOrigins(s, Call(o));
    SeparatedSnoc(s.log, e);
    forall uid ensures Spent(t.log, uid) == (uid != s.worker.app.uid && Spent(s.log, uid)) {
      SpentSnoc(s.log, e, uid);
    }
  }

  lemma MarkerOnce(s: State, o: Outcome)
    requires OnceInv(s) && s.worker.WritingAhead?
    ensures OnceInv(Step(s, Call(o)))
  {
    var app, status := s.worker.app, s.worker.status;
    CallSound(s, o);
    StatusOrigins(s, Call(o));
    Irrelevant(s.log, CallEntries(s, o));
    if Step(s, Call(o)).worker.RollingBack? {
      AnswerToMarker(s.cluster, app.(status := status), o);
      assert s.cluster.apps[app.key] == app && !Spent(s.log, app.uid);
    }
  }

  lemma OtherOnce(s: State, o: Outcome)
    requires OnceInv(s) && !s.worker.Idle? && !s.worker.RollingBack? && !s.worker.WritingAhead?
    requires !(s.worker.Persisting? && s.worker.cause.Applied? && Writes(s, Call(o)))
    ensures OnceInv(Step(s, Call(o)))
  {
    CallSound(s, o);
    KeepsMarkers(s, o);
    Irrelevant(s.log, CallEntries(s, o));
    FreshUnsigned(s.log, s.cluster.uids, SpentRollback, s.cluster.uids);
    OnlyMarkersRollBack(s, o);
    UnmovedMarks(s, Step(s, Call(o)));
  }

  /** No other write takes a marker away. */
  lemma KeepsMarkers(s: State, o: Outcome)
    requires SoundState(s) && Marked(s.worker) && !s.worker.Idle? && !s.worker.WritingAhead?
    requires !(s.worker.Persisting? && s.worker.cause.Applied? && Writes(s, Call(o)))
    ensures var d := Step(s, Call(o)).cluster;
            forall k :: k in d.apps ==>
              k in s.cluster.apps && d.apps[k].uid == s.cluster.apps[k].uid &&
              d.apps[k].status.lastFailed == s.cluster.apps[k].status.lastFailed
  {
    StatusOrigins(s, Call(o));
    forall k | k in Step(s, Call(o)).cluster.apps
      ensures k in s.cluster.apps && Step(s, Call(o)).cluster.apps[k].uid == s.cluster.apps[k].uid &&
              Step(s, Call(o)).cluster.apps[k].status.lastFailed == s.cluster.apps[k].status.lastFailed
    {
      assert StatusOrigin(s, Call(o), k);
    }
  }

  lemma OnlyMarkersRollBack(s: State, o: Outcome)
    requires !s.worker.Idle? && !s.worker.WritingAhead? && !s.worker.RollingBack?
    ensures !Step(s, Call(o)).worker.RollingBack?
  {
    var (d, a) := Serve(s.cluster, NextCall(s.worker), o);
    ResumeRollback(s.worker, a, d.clock);
  }

  lemma CallOnce(s: State, o: Outcome)
    requires OnceInv(s) && !s.worker.Idle?
    ensures OnceInv(Step(s, Call(o)))
  {
    if s.worker.RollingBack? { RollbackOnce(s, o); }
    else if s.worker.WritingAhead? { MarkerOnce(s, o); }
    else if s.worker.Persisting? && s.worker.cause.Applied? && Writes(s, Call(o)) { ApplyOnce(s, o); }
    else { OtherOnce(s, o); }
  }

  lemma StepOnce(s: State, e: Event)
    requires OnceInv(s)
    ensures OnceInv(Step(s, e))
  {
    match e
    case Env(step) => EnvOnce(s, step);
    case Call(o) => if !s.worker.Idle? { CallOnce(s, o); }
    case _ =>
  }

  lemma {:induction false} RunOnce(s: State, events: seq<Event>)
    requires OnceInv(s)
    ensures OnceInv(Run(s, events))
    decreases |events|
  {
    if events != [] {
      StepOnce(s, events[0]);
      RunOnce(Step(s, events[0]), events[1..]);
    }
  }

  /** The theorem: in every run from an empty cluster, rollbacks of one Application are separated by applies. */
  lemma RollbackAtMostOncePerApply(s: State, events: seq<Event>)
    requires Initial(s)
    ensures Separated(Run(s, events).log)
  {
    RunOnce(s, events);
  }
}
