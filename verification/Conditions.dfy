/** Status conditions as the controller holds them in memory: a list with at most one entry of each type, which the API
    server treats as a map. */
module Conditions {
  import opened Api

  datatype Listed = Listed(t: ConditionType, condition: Condition)

  predicate Distinct(list: seq<Listed>) {
    forall i, j :: 0 <= i < j < |list| ==> list[i].t != list[j].t
  }

  type ConditionList = list: seq<Listed> | Distinct(list)

  function AsMap(list: seq<Listed>): map<ConditionType, Condition> {
    if list == [] then map[] else AsMap(list[..|list| - 1])[list[|list| - 1].t := list[|list| - 1].condition]
  }

  /** A list with the entries of this map, in some order. */
  function Listing(m: map<ConditionType, Condition>): ConditionList {
    (if Released in m then [Listed(Released, m[Released])] else []) +
    (if Healthy in m then [Listed(Healthy, m[Healthy])] else []) +
    (if Ready in m then [Listed(Ready, m[Ready])] else [])
  }

  lemma {:induction false} AsMapHas(list: seq<Listed>, t: ConditionType)
    ensures t in AsMap(list) <==> exists i :: 0 <= i < |list| && list[i].t == t
  {
    if list != [] {
      var n := |list| - 1;
      AsMapHas(list[..n], t);
      if i :| 0 <= i < n && list[..n][i].t == t { assert list[i].t == t; }
      if i :| 0 <= i < n && list[i].t == t { assert list[..n][i].t == t; }
    }
  }

  lemma {:induction false} AsMapAt(list: seq<Listed>, i: nat)
    requires Distinct(list) && i < |list|
    ensures list[i].t in AsMap(list) && AsMap(list)[list[i].t] == list[i].condition
  {
    var n := |list| - 1;
    if i < n {
      assert list[..n][i] == list[i];
      AsMapAt(list[..n], i);
    }
  }

  lemma ListingAsMap(m: map<ConditionType, Condition>)
    ensures AsMap(Listing(m)) == m
  {
    var list := Listing(m);
    forall t: ConditionType ensures t in AsMap(list) <==> t in m {
      AsMapHas(list, t);
      if t in m { var i := ListingHas(m, t); }
    }
    forall t | t in m ensures AsMap(list)[t] == m[t] {
      var i := ListingHas(m, t);
      AsMapAt(list, i);
    }
  }

  lemma ListingHas(m: map<ConditionType, Condition>, t: ConditionType) returns (i: nat)
    requires t in m
    ensures i < |Listing(m)| && Listing(m)[i] == Listed(t, m[t])
  {
    var first, second := if Released in m then 1 else 0, if Healthy in m then 1 else 0;
    i := match t case Released => 0 case Healthy => first case Ready => first + second;
  }

  /** Overwriting an entry, or appending one of a new type, is an update of the map. */
  lemma OverwriteIsUpdate(list: ConditionList, i: nat, c: Condition)
    requires i < |list|
    ensures Distinct(list[i := Listed(list[i].t, c)])
    ensures AsMap(list[i := Listed(list[i].t, c)]) == AsMap(list)[list[i].t := c]
    ensures list[i].t in AsMap(list) && AsMap(list)[list[i].t] == list[i].condition
  {
    AsMapAt(list, i);
    OverwriteUpdates(list, i, c);
  }

  lemma {:induction false} OverwriteUpdates(list: seq<Listed>, i: nat, c: Condition)
    requires Distinct(list) && i < |list|
    ensures AsMap(list[i := Listed(list[i].t, c)]) == AsMap(list)[list[i].t := c]
  {
    var n, more := |list| - 1, list[i := Listed(list[i].t, c)];
    if i < n {
      assert more[..n] == list[..n][i := Listed(list[i].t, c)];
      OverwriteUpdates(list[..n], i, c);
    } else {
      assert more[..n] == list[..n];
    }
  }

  lemma AppendIsUpdate(list: ConditionList, t: ConditionType, c: Condition)
    requires forall i :: 0 <= i < |list| ==> list[i].t != t
    ensures Distinct(list + [Listed(t, c)])
    ensures AsMap(list + [Listed(t, c)]) == AsMap(list)[t := c] && t !in AsMap(list)
  {
    assert (list + [Listed(t, c)])[..|list|] == list;
    AsMapHas(list, t);
  }

  // ---------- comparing copies ----------

  /** The entries of the first list have kept their types and places. */
  predicate SameTypes(before: seq<Listed>, after: seq<Listed>) {
    |before| <= |after| && forall i :: 0 <= i < |before| ==> after[i].t == before[i].t
  }

  lemma LongerHasMore(before: ConditionList, after: ConditionList)
    requires SameTypes(before, after) && |before| < |after|
    ensures AsMap(before) != AsMap(after)
  {
    var t := after[|before|].t;
    AsMapAt(after, |before|);
    AsMapHas(before, t);
    assert forall i :: 0 <= i < |before| ==> before[i].t == after[i].t != t;
  }

  /** Of lists that differ only by upserts, comparing the lists is comparing the maps. */
  lemma ListsTellApart(before: ConditionList, after: ConditionList)
    requires SameTypes(before, after)
    ensures before == after <==> AsMap(before) == AsMap(after)
  {
    if |before| < |after| {
      LongerHasMore(before, after);
    } else if AsMap(before) == AsMap(after) {
      forall i | 0 <= i < |before| ensures before[i] == after[i] {
        AsMapAt(before, i);
        AsMapAt(after, i);
      }
    }
  }

  /** A status in memory. */
  datatype StatusRecord = StatusRecord(
    phase: Phase,
    conditions: ConditionList,
    observed: nat,
    releaseName: Name,
    revision: nat,
    valuesHash: Hash,
    lastFailed: nat,
    started: Option<Time>)

  function Stored(r: StatusRecord): Status {
    Status(r.phase, AsMap(r.conditions), r.observed, r.releaseName, r.revision, r.valuesHash, r.lastFailed, r.started)
  }

  function Loaded(s: Status): StatusRecord {
    StatusRecord(s.phase, Listing(s.conditions), s.observed, s.releaseName, s.revision, s.valuesHash, s.lastFailed,
                 s.started)
  }

  lemma LoadedIsStored(s: Status)
    ensures Stored(Loaded(s)) == s
  {
    ListingAsMap(s.conditions);
  }

  /** Whether a status was changed in memory is whether its stored form was. */
  lemma StoredTellsApart(before: StatusRecord, after: StatusRecord)
    requires SameTypes(before.conditions, after.conditions)
    ensures before == after <==> Stored(before) == Stored(after)
  {
    ListsTellApart(before.conditions, after.conditions);
  }
}
