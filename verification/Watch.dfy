/** The watch on Secrets: which Applications a changed Secret wakes, and that those are the ones it can concern. */
module Watch {
  import opened Api
  import opened Server
  import opened Controller
  import opened Machine
  import opened Budget

  // ---------- the field index ----------

  function SecretIndex(app: App): seq<Name> {
    match app.spec.valuesRef
    case Some(ref) => if ref.name != "" then [ref.name] else []
    case None => []
  }

  /** The List of the Applications in the Secret's namespace that the index has under the Secret's name. */
  function BySecret(c: Cluster, secret: SecretKey): set<App> {
    set k | k in c.apps && k.namespace == secret.namespace && secret.name in SecretIndex(c.apps[k]) :: c.apps[k]
  }

  // ---------- the map from Secrets to Applications ----------

  predicate Keyed(c: Cluster) {
    forall k :: k in c.apps ==> c.apps[k].key == k
  }

  /** Resolving this Application's values starts by reading this Secret. */
  predicate LooksUp(app: App, secret: SecretKey) {
    NextCall(AfterRead(app.(finalizer := true, deleting := false))) == ReadSecret(secret)
  }

  /** The requests for a changed Secret, in any order: one for each Application whose values are resolved from it, and
      no others. A List that fails wakes nobody. */
  method ApplicationsForSecret(c: Cluster, secret: SecretKey, refused: bool) returns (requests: seq<AppKey>)
    requires Keyed(c) && secret.name != ""
    ensures refused ==> requests == []
    ensures !refused ==> forall key :: key in requests <==> key in c.apps && LooksUp(c.apps[key], secret)
    ensures forall i, j :: 0 <= i < j < |requests| ==> requests[i] != requests[j]
  {
    requests := [];
    if refused { return; }
    var items := BySecret(c, secret);
    var rest := items;
    while rest != {}
      invariant rest <= items
      invariant forall key :: key in requests <==> key in c.apps && c.apps[key] in items - rest
      invariant forall i, j :: 0 <= i < j < |requests| ==> requests[i] != requests[j]
      decreases rest
    {
      var app: App :| app in rest;
      ghost var before := rest;
      rest := rest - {app};
      assert c.apps[app.key] == app && app.key !in requests;
      requests := requests + [app.key];
      forall key ensures key in requests <==> key in c.apps && c.apps[key] in items - rest {
        assert key in c.apps ==> (c.apps[key] == app <==> key == app.key);
        assert items - rest == (items - before) + {app};
      }
    }
    forall key ensures key in requests <==> key in c.apps && LooksUp(c.apps[key], secret) {
      if key in c.apps { WatchIsExact(c, secret, key); }
    }
  }

  predicate Woken(c: Cluster, secret: SecretKey, key: AppKey) {
    key in c.apps && c.apps[key] in BySecret(c, secret)
  }

  /** The index agrees with what resolving values reads. */
  lemma WatchIsExact(c: Cluster, secret: SecretKey, key: AppKey)
    requires Keyed(c) && secret.name != "" && key in c.apps
    ensures Woken(c, secret, key) <==> LooksUp(c.apps[key], secret)
  {
    var app := c.apps[key];
    assert LooksUp(app, secret) <==> key.namespace == secret.namespace && secret.name in SecretIndex(app);
    if Woken(c, secret, key) {
      var k :| k in c.apps && k.namespace == secret.namespace && secret.name in SecretIndex(c.apps[k]) &&
          c.apps[k] == app;
      assert k == key;
    }
  }

  /** So a change to a Secret makes no difference to the Applications that are not woken: what their passes read, and
      hence the hash of their values, stays the same. */
  lemma UnwokenUnaffected(c: Cluster, secret: SecretKey, step: EnvStep, key: AppKey)
    requires Keyed(c) && secret.name != "" && key in c.apps
    requires (step.PutSecret? || step.DropSecret?) && step.secret == secret
    requires !Woken(c, secret, key)
    ensures var d, app := Environment(c, step), c.apps[key];
            CurrentHash(d, app) == CurrentHash(c, app) &&
            (app.spec.valuesRef.Some? ==>
               var r := ReadSecret(SecretKey(key.namespace, app.spec.valuesRef.value.name));
               Serve(d, r, CALM).1 == Serve(c, r, CALM).1)
  {
    WatchIsExact(c, secret, key);
    assert !References(c.apps[key], secret);
  }

  /** Each Application that owes an apply to a change of a Secret is woken by it. */
  lemma AffectedAreWoken(c: Cluster, secret: SecretKey, step: EnvStep, key: AppKey)
    requires Keyed(c) && secret.name != "" && key in c.apps
    requires (step.PutSecret? || step.DropSecret?) && step.secret == secret
    requires Clean(c, c.apps[key]) && !Clean(Environment(c, step), c.apps[key])
    ensures Woken(c, secret, key)
  {
    if !Woken(c, secret, key) { UnwokenUnaffected(c, secret, step, key); }
  }
}
