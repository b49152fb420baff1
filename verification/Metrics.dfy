/** The gauge of active Applications per target namespace, and how it agrees with the count by which a namespace
    is kept or deleted. */
module Metrics {
  import opened Api
  import opened Server
  import opened Controller

  /** A gauge with one label, the namespace. */
  class Gauge {
    var values: map<Name, nat>

    constructor ()
      ensures values == map[]
    {
      values := map[];
    }

    method Reset()
      modifies this
      ensures values == map[]
    {
      values := map[];
    }

    method Set(name: Name, n: nat)
      modifies this
      ensures values == old(values)[name := n]
    {
      values := values[name := n];
    }
  }

  function AllApps(c: Cluster): set<App> {
    set k | k in c.apps :: c.apps[k]
  }

  function Live(items: set<App>): set<App> {
    set a | a in items && !a.deleting
  }

  function LiveAt(items: set<App>, n: Name): set<App> {
    set a | a in items && LiveIn(a, n)
  }

  function At(counts: map<Name, nat>, n: Name): nat {
    if n in counts then counts[n] else 0
  }

  ghost function Total(counts: map<Name, nat>): nat
    decreases |counts|
  {
    if counts == map[] then 0
    else
      var n :| n in counts;
      counts[n] + Total(counts - {n})
  }

  /** The counts of all namespaces sum to the Applications that are not being deleted; the count of one namespace is the
      number of those that target it; and a namespace is counted exactly when there are any. */
  ghost predicate Gauges(counts: map<Name, nat>, items: set<App>) {
    && Total(counts) == |Live(items)|
    && forall n :: GaugesAt(counts, items, n)
  }

  predicate GaugesAt(counts: map<Name, nat>, items: set<App>, n: Name) {
    At(counts, n) == |LiveAt(items, n)| && (n in counts <==> LiveAt(items, n) != {})
  }

  /** Recounts the gauge from a List of all Applications; if the List fails, the gauge stays as it was. */
  method RefreshActiveGauge(gauge: Gauge, c: Cluster, refused: bool)
    modifies gauge
    ensures if refused then gauge.values == old(gauge.values) else Gauges(gauge.values, AllApps(c))
  {
    if refused { return; }
    var counts := CountActive(AllApps(c));
    gauge.Reset();
    var names := counts.Keys;
    while names != {}
      invariant names <= counts.Keys
      invariant gauge.values == map n | n in counts && n !in names :: counts[n]
      decreases names
    {
      var n :| n in names;
      names := names - {n};
      gauge.Set(n, counts[n]);
    }
    assert gauge.values == counts;
  }

  /** The counting loop, over the items in any order. */
  method CountActive(items: set<App>) returns (counts: map<Name, nat>)
    ensures Gauges(counts, items)
  {
    counts := map[];
    var rest := items;
    GaugesNothing();
    assert items - rest == {};
    while rest != {}
      invariant rest <= items
      invariant Gauges(counts, items - rest)
      decreases rest
    {
      var app: App :| app in rest;
      GaugesMore(counts, items - rest, app);
      assert items - (rest - {app}) == (items - rest) + {app};
      rest := rest - {app};
      if app.deleting { continue; }
      var n := app.spec.namespace;
      counts := counts[n := (if n in counts then counts[n] else 0) + 1];
    }
    assert items - rest == items;
  }

  lemma GaugesNothing()
    ensures Gauges(map[], {})
  {
    assert Live({}) == {};
    forall n ensures GaugesAt(map[], {}, n) { assert LiveAt({}, n) == {}; }
  }

  lemma {:induction false} TotalWithout(counts: map<Name, nat>, n: Name)
    requires n in counts
    ensures Total(counts) == counts[n] + Total(counts - {n})
    decreases |counts|
  {
    var m :| m in counts && Total(counts) == counts[m] + Total(counts - {m});
    if m != n {
      TotalWithout(counts - {m}, n);
      TotalWithout(counts - {n}, m);
      assert counts - {m} - {n} == counts - {n} - {m};
    }
  }

  function Bump(counts: map<Name, nat>, n: Name): map<Name, nat> {
    counts[n := (if n in counts then counts[n] else 0) + 1]
  }

  lemma TotalBump(counts: map<Name, nat>, n: Name)
    ensures Total(Bump(counts, n)) == Total(counts) + 1
  {
    TotalWithout(Bump(counts, n), n);
    assert Bump(counts, n) - {n} == counts - {n};
    if n in counts { TotalWithout(counts, n); } else { assert counts - {n} == counts; }
  }

  /** Counting one more Application. */
  lemma GaugesMore(counts: map<Name, nat>, items: set<App>, app: App)
    requires Gauges(counts, items) && app !in items
    ensures Gauges(if app.deleting then counts else Bump(counts, app.spec.namespace), items + {app})
  {
    assert Live(items + {app}) == if app.deleting then Live(items) else Live(items) + {app};
    if !app.deleting { TotalBump(counts, app.spec.namespace); }
    var after, more := if app.deleting then counts else Bump(counts, app.spec.namespace), items + {app};
    forall n ensures GaugesAt(after, more, n) {
      assert GaugesAt(counts, items, n);
      GaugesAtMore(counts, items, app, n);
    }
  }

  lemma GaugesAtMore(counts: map<Name, nat>, items: set<App>, app: App, n: Name)
    requires GaugesAt(counts, items, n) && app !in items
    ensures GaugesAt(if app.deleting then counts else Bump(counts, app.spec.namespace), items + {app}, n)
  {
    assert LiveAt(items + {app}, n) == if LiveIn(app, n) then LiveAt(items, n) + {app} else LiveAt(items, n);
    assert app !in LiveAt(items, n);
  }

  /** The count that guards a namespace is the gauge's count, less the Application itself unless it is being deleted. */
  lemma GuardAgrees(c: Cluster, key: AppKey, counts: map<Name, nat>)
    requires key in c.apps && Gauges(counts, AllApps(c))
    requires forall k, l :: k in c.apps && l in c.apps && c.apps[k].uid == c.apps[l].uid ==> k == l
    ensures var app := c.apps[key];
            |Others(IndexedByNamespace(c.apps, app.spec.namespace), app.uid)|
            == At(counts, app.spec.namespace) - if app.deleting then 0 else 1
  {
    var app, n := c.apps[key], c.apps[key].spec.namespace;
    var others := Others(IndexedByNamespace(c.apps, n), app.uid);
    assert app in AllApps(c) && GaugesAt(counts, AllApps(c), n);
    forall a ensures a in others <==> a in LiveAt(AllApps(c), n) && a != app {
      if a in LiveAt(AllApps(c), n) && a != app {
        var k :| k in c.apps && c.apps[k] == a;
        assert c.apps[k].uid == app.uid ==> k == key;
      }
    }
    assert others == LiveAt(AllApps(c), n) - {app};
  }
}
