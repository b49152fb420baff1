/** What an undisturbed pass over one Application leaves as it is for the others. */
module Neighbours {
  import opened Api
  import opened Server
  import opened Controller
  import opened Passes
  import opened Soundness
  import opened Fresh
  import opened Lifecycle
  import opened Steady

  // ---------- what no undisturbed pass changes ----------

  /** Specs, values and the time; and nothing is created. */
  predicate SameWishes(c: Cluster, d: Cluster) {
    && d.secrets == c.secrets && d.clock == c.clock
    && forall k :: k in d.apps ==> k in c.apps && d.apps[k].spec == c.apps[k].spec
  }

  lemma ServeWishes(c: Cluster, r: Request, o: Outcome)
    requires Sound(c)
    ensures SameWishes(c, Serve(c, r, o).0)
  {
    SecretsStay(c, r, o);
    if Executes(c, r, o) { EffectApps(c, r, o); }
  }

  lemma SecretsStay(c: Cluster, r: Request, o: Outcome)
    ensures var d := Serve(c, r, o).0; d.secrets == c.secrets && d.clock == c.clock
  {
  }

  lemma {:induction false} QuietKeeps(c: Cluster, w: Worker, nature: Nature)
    requires Sound(c)
    ensures var (d, v) := Quiet(c, w, nature); Sound(d) && SameWishes(c, d) && v.Idle?
    decreases Stage(w), Todo(w)
  {
    if !w.Idle? {
      var (d, a) := Serve(c, NextCall(w), OutcomeFor(w, nature));
      ResumeDescends(w, a, d.clock);
      ServeSound(c, NextCall(w), OutcomeFor(w, nature));
      ServeWishes(c, NextCall(w), OutcomeFor(w, nature));
      QuietKeeps(d, Resume(w, a, d.clock), nature);
    }
  }

  // ---------- an Application that the pass is not about ----------

  /** The Application, if it is stored, and its release are what they were. */
  predicate LeftAlone(c: Cluster, d: Cluster, key: AppKey) {
    && (key in d.apps <==> key in c.apps)
    && (key in c.apps ==>
          var rk := ReleaseOf(c.apps[key]);
          && d.apps[key] == c.apps[key]
          && (rk in d.releases <==> rk in c.releases)
          && (rk in c.releases ==> d.releases[rk] == c.releases[rk]))
  }

  /** The two do not share a release. */
  predicate Apart(c: Cluster, k: AppKey, key: AppKey) {
    k in c.apps && key in c.apps && k != key ==> ReleaseOf(c.apps[k]) != ReleaseOf(c.apps[key])
  }

  /** The pass is about k, whose release is not this Application's; and this Application keeps its namespace. */
  predicate Elsewhere(c: Cluster, w: Worker, k: AppKey, app: App) {
    && (k in c.apps ==> ReleaseOf(c.apps[k]) != ReleaseOf(app) && c.apps[k].uid != app.uid)
    && (w.Reading? ==> w.key == k)
    && (Copy(w).Some? ==> w.app.key == k && ReleaseOf(w.app) != ReleaseOf(app) && w.app.uid != app.uid)
    && (w.DroppingNamespace? ==> w.app.spec.namespace != app.spec.namespace)
  }

  /** The pass's calls are about its own Application and that one's release. */
  lemma OwnCalls(w: Worker, app: App)
    requires Copy(w).Some? && ReleaseOf(w.app) != ReleaseOf(app)
    requires w.DroppingNamespace? ==> w.app.spec.namespace != app.spec.namespace
    ensures var r := NextCall(w);
            !Touches(r, ReleaseOf(app)) && (r.Update? || r.UpdateStatus? ==> r.app.key == w.app.key)
  {
  }

  lemma OthersStay(c: Cluster, r: Request, o: Outcome, key: AppKey)
    requires Sound(c) && key in c.apps && (r.Update? || r.UpdateStatus? ==> r.app.key != key)
    ensures var d := Serve(c, r, o).0; key in d.apps && d.apps[key] == c.apps[key]
  {
    if r.Update? || r.UpdateStatus? {
      assert r.app.key in c.apps ==> c.apps[r.app.key].key == r.app.key;
    } else {
      OnlyUpdates(c, r, o);
    }
  }

  lemma ServeLeavesAlone(c: Cluster, w: Worker, o: Outcome, k: AppKey, key: AppKey)
    requires Sound(c) && !w.Idle? && key in c.apps && k != key && Elsewhere(c, w, k, c.apps[key])
    ensures LeftAlone(c, Serve(c, NextCall(w), o).0, key)
  {
    if !w.Reading? { OwnCalls(w, c.apps[key]); }
    OthersStay(c, NextCall(w), o, key);
    Untouched(c, NextCall(w), o, ReleaseOf(c.apps[key]));
  }

  /** A call that hands the pass an Application hands it the one stored under its key. */
  lemma ReplyStored(c: Cluster, w: Worker, nature: Nature, k: AppKey)
    requires !w.Idle? && (if w.Reading? then w.key == k else w.app.key == k)
    ensures var (d, a) := Serve(c, NextCall(w), OutcomeFor(w, nature));
            a.GotApp? ==> k in d.apps && a.app == d.apps[k]
  {
  }

  lemma ReplyElsewhere(c: Cluster, w: Worker, nature: Nature, k: AppKey, app: App)
    requires Sound(c) && !w.Idle? && Elsewhere(c, w, k, app)
    ensures var (d, a) := Serve(c, NextCall(w), OutcomeFor(w, nature));
            && (k in d.apps ==>
                  d.apps[k].key == k && ReleaseOf(d.apps[k]) != ReleaseOf(app) && d.apps[k].uid != app.uid)
            && (a.GotApp? ==> k in d.apps && a.app == d.apps[k])
  {
    ReplyStored(c, w, nature, k);
    if Executes(c, NextCall(w), OutcomeFor(w, nature)) { EffectApps(c, NextCall(w), OutcomeFor(w, nature)); }
    assert k in c.apps ==> c.apps[k].key == k;
  }

  lemma ResumeElsewhere(c: Cluster, w: Worker, nature: Nature, k: AppKey, key: AppKey)
    requires Sound(c) && !w.Idle? && key in c.apps && !c.apps[key].deleting && Elsewhere(c, w, k, c.apps[key])
    ensures var (d, a) := Serve(c, NextCall(w), OutcomeFor(w, nature));
            Elsewhere(d, Resume(w, a, d.clock), k, c.apps[key])
  {
    var (d, a) := Serve(c, NextCall(w), OutcomeFor(w, nature));
    ReplyElsewhere(c, w, nature, k, c.apps[key]);
    ResumeKeepsCopy(w, a, d.clock);
    NamespaceStays(c, w, nature, key);
  }

  /** A namespace that a live Application deploys to is not dropped for another one. */
  lemma NamespaceStays(c: Cluster, w: Worker, nature: Nature, key: AppKey)
    requires !w.Idle? && key in c.apps && !c.apps[key].deleting
    requires Copy(w).Some? ==> w.app.uid != c.apps[key].uid
    ensures var (d, a) := Serve(c, NextCall(w), OutcomeFor(w, nature));
            var v := Resume(w, a, d.clock);
            v.DroppingNamespace? ==> v.app.spec.namespace != c.apps[key].spec.namespace
  {
    var (d, a) := Serve(c, NextCall(w), OutcomeFor(w, nature));
    if w.ListingOthers? {
      assert c.apps[key].spec.namespace == w.app.spec.namespace ==> c.apps[key] in Others(a.items, w.app.uid);
    } else {
      NoDropLater(w, a, d.clock);
    }
  }

  lemma NoDropLater(w: Worker, a: Response, now: Time)
    requires !w.ListingOthers?
    ensures !Resume(w, a, now).DroppingNamespace?
  {
    if !OnTheWayOut(w) && !w.Reading? { ResumeOut(w, a, now); }
  }

  lemma {:induction false} QuietLeavesAlone(c: Cluster, w: Worker, k: AppKey, key: AppKey, nature: Nature)
    requires Sound(c) && key in c.apps && !c.apps[key].deleting && k != key && Elsewhere(c, w, k, c.apps[key])
    ensures LeftAlone(c, Quiet(c, w, nature).0, key)
    decreases Stage(w), Todo(w)
  {
    if !w.Idle? {
      var (d, a) := Serve(c, NextCall(w), OutcomeFor(w, nature));
      ResumeDescends(w, a, d.clock);
      ServeSound(c, NextCall(w), OutcomeFor(w, nature));
      ServeLeavesAlone(c, w, OutcomeFor(w, nature), k, key);
      ResumeElsewhere(c, w, nature, k, key);
      QuietLeavesAlone(d, Resume(w, a, d.clock), k, key, nature);
    }
  }

  /** A pass over one Application, its deletion included, leaves every live Application with another release alone. */
  lemma PassLeavesAlone(c: Cluster, k: AppKey, key: AppKey, nature: Nature)
    requires Sound(c) && (key in c.apps ==> !c.apps[key].deleting) && k != key && Apart(c, k, key)
    ensures LeftAlone(c, Quiet(c, Worker.Reading(k), nature).0, key)
  {
    if key in c.apps { QuietLeavesAlone(c, Worker.Reading(k), k, key, nature); }
    else { QuietKeeps(c, Worker.Reading(k), nature); }
  }

  /** Passes leave specs alone, so that releases stay whose they are. */
  lemma StillApart(c: Cluster, w: Worker, k: AppKey, key: AppKey, nature: Nature)
    requires Sound(c) && Apart(c, k, key)
    ensures Apart(Quiet(c, w, nature).0, k, key)
  {
    var d := Quiet(c, w, nature).0;
    QuietKeeps(c, w, nature);
    KeysFit(c, d, k);
    KeysFit(c, d, key);
  }

  lemma KeysFit(c: Cluster, d: Cluster, k: AppKey)
    requires Sound(c) && Sound(d) && SameWishes(c, d)
    ensures k in d.apps ==> k in c.apps && ReleaseOf(d.apps[k]) == ReleaseOf(c.apps[k])
  {
  }
}
