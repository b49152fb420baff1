/** Health aggregation: the order-sensitive, early-returning sweep over a release's workloads,
    and the order-free "worst of" it computes. */
module Health {
  import opened Api
  import opened Server

  const WORKLOAD_KINDS := {"Deployment", "StatefulSet", "DaemonSet", "Job"}

  predicate IsWorkload(d: Doc) {
    d.Object? && d.kind in WORKLOAD_KINDS
  }

  /** Where a workload lives: in the namespace it names, or else in the release's. */
  function Whereabouts(d: Doc, fallback: Name): Name {
    if d.Object? && d.namespace != "" then d.namespace else fallback
  }

  /** The workloads of a manifest, in order; None when some document does not decode. */
  function Workloads(m: Manifest): Option<seq<Doc>> {
    if m == [] then Some([])
    else if m[0].Broken? then None
    else
      match Workloads(m[1..])
      case None => None
      case Some(rest) => Some(if IsWorkload(m[0]) then [m[0]] + rest else rest)
  }

  lemma {:induction false} WorkloadsAppend(m: Manifest, d: Doc)
    ensures Workloads(m + [d]) ==
            (match Workloads(m)
             case None => None
             case Some(ws) =>
               if d.Broken? then None else Some(if IsWorkload(d) then ws + [d] else ws))
  {
    if m == [] {
      assert [d][1..] == [] && m + [d] == [d];
      assert [d] + [] == [] + [d];
    } else {
      assert (m + [d])[1..] == m[1..] + [d];
      WorkloadsAppend(m[1..], d);
      if Workloads(m[1..]).Some? {
        var ws := Workloads(m[1..]).value;
        assert [m[0]] + (ws + [d]) == ([m[0]] + ws) + [d];
      }
    }
  }

  lemma {:induction false} WorkloadsConcat(a: Manifest, b: Manifest)
    ensures Workloads(a).None? || Workloads(b).None? ==> Workloads(a + b) == None
    ensures Workloads(a).Some? && Workloads(b).Some? ==>
              Workloads(a + b) == Some(Workloads(a).value + Workloads(b).value)
  {
    if a == [] {
      assert a + b == b;
      if Workloads(b).Some? {
        assert [] + Workloads(b).value == Workloads(b).value;
      }
    } else {
      assert (a + b)[1..] == a[1..] + b;
      WorkloadsConcat(a[1..], b);
      if Workloads(a[1..]).Some? && Workloads(b).Some? {
        var u, v := Workloads(a[1..]).value, Workloads(b).value;
        assert [a[0]] + (u + v) == ([a[0]] + u) + v;
      }
    }
  }

  /** The workloads of a manifest are its documents of a workload kind, each as often as it occurs there. */
  lemma {:induction false} WorkloadsCount(m: Manifest)
    ensures Workloads(m).None? <==> exists i :: 0 <= i < |m| && m[i].Broken?
    ensures Workloads(m).Some? ==>
              forall d :: multiset(Workloads(m).value)[d] ==
                          if d.Object? && d.kind in {"Deployment", "StatefulSet", "DaemonSet", "Job"} then
                            multiset(m)[d]
                          else 0
  {
    if m != [] {
      assert m == [m[0]] + m[1..];
      WorkloadsCount(m[1..]);
      if !m[0].Broken? && Workloads(m[1..]).None? {
        var i :| 0 <= i < |m[1..]| && m[1..][i].Broken?;
        assert m[i + 1].Broken?;
      }
    }
  }

  /** So the order of a manifest makes no difference to which workloads it has. */
  lemma WorkloadsPermutation(m: Manifest, m': Manifest)
    requires multiset(m) == multiset(m')
    ensures Workloads(m).Some? <==> Workloads(m').Some?
    ensures Workloads(m).Some? ==> multiset(Workloads(m).value) == multiset(Workloads(m').value)
  {
    WorkloadsCount(m);
    WorkloadsCount(m');
    if Workloads(m).None? { BrokenElsewhere(m, m'); }
    if Workloads(m').None? { BrokenElsewhere(m', m); }
  }

  lemma BrokenElsewhere(m: Manifest, m': Manifest)
    requires multiset(m) == multiset(m') && exists i :: 0 <= i < |m| && m[i].Broken?
    ensures exists i :: 0 <= i < |m'| && m'[i].Broken?
  {
    var i :| 0 <= i < |m| && m[i].Broken?;
    assert m[i] in multiset(m);
    assert m[i] in m';
  }

  /** What reading one workload yielded; an Uncomputable one ends the sweep with an error. */
  datatype Reading = Reading(workload: Doc, live: Live)

  datatype Assessment = Assessment(grade: Grade, detail: Text)

  const NO_WORKLOADS := Assessment(Current, Plain("no workloads to check"))
  const ALL_CURRENT := Assessment(Current, Plain("all workloads current"))

  function Kind(d: Doc): string { if d.Object? then d.kind else "" }
  function NameOf(d: Doc): Name { if d.Object? then d.name else "" }

  /** One turn of the sweep. */
  function Absorb(a: Assessment, r: Reading): Assessment {
    match r.live
    case Missing => Assessment(InProgress, NotCreatedYet(Kind(r.workload), NameOf(r.workload)))
    case Uncomputable => a
    case Computed(grade, message) =>
      match grade
      case Current => a
      case Failing => Assessment(Failing, Observed(Kind(r.workload), NameOf(r.workload), message))
      case _ => Assessment(InProgress, Observed(Kind(r.workload), NameOf(r.workload), message))
  }

  function Tally(readings: seq<Reading>): Assessment {
    if readings == [] then ALL_CURRENT
    else Absorb(Tally(readings[..|readings| - 1]), readings[|readings| - 1])
  }

  // ---------- the order-free specification ----------

  /** How bad one workload is: Failing, Current, or (for everything else, absence included) InProgress. */
  function Severity(live: Live): Grade {
    match live
    case Computed(Current, _) => Current
    case Computed(Failing, _) => Failing
    case _ => InProgress
  }

  function Worse(a: Grade, b: Grade): Grade {
    if a == Failing || b == Failing then Failing
    else if a == Current then b
    else a
  }

  /** The workloads that were read, in order. */
  function Subjects(readings: seq<Reading>): (ws: seq<Doc>)
    ensures |ws| == |readings|
    ensures forall i :: 0 <= i < |ws| ==> ws[i] == readings[i].workload
  {
    seq(|readings|, i requires 0 <= i < |readings| => readings[i].workload)
  }

  /** The grade is Failing if a workload was seen failing, Current if all were seen current, else InProgress. */
  ghost predicate WorstSeen(grade: Grade, readings: seq<Reading>) {
    && grade in {Failing, Current, InProgress}
    && (grade == Failing <==> exists i :: 0 <= i < |readings| && Severity(readings[i].live) == Failing)
    && (grade == Current <==> forall i :: 0 <= i < |readings| ==> Severity(readings[i].live) == Current)
  }

  /** One more reading, after none that failed. */
  lemma WorstSeenMore(a: Assessment, readings: seq<Reading>, r: Reading)
    requires WorstSeen(a.grade, readings) && a.grade != Failing && !r.live.Uncomputable?
    ensures WorstSeen(Absorb(a, r).grade, readings + [r])
    ensures Subjects(readings + [r]) == Subjects(readings) + [r.workload]
  {
    var more := readings + [r];
    assert more[|readings|] == r;
    assert forall i :: 0 <= i < |readings| ==> more[i] == readings[i];
    if Absorb(a, r).grade == Current {
      assert forall i :: 0 <= i < |more| ==> Severity(more[i].live) == Current;
    } else if a.grade != Current {
      var i :| 0 <= i < |readings| && Severity(readings[i].live) != Current;
      assert Severity(more[i].live) != Current;
    }
  }

  /** Readings after which a sweep goes on. */
  predicate GoesOn(readings: seq<Reading>) {
    forall i :: 0 <= i < |readings| ==> !readings[i].live.Uncomputable? && Severity(readings[i].live) != Failing
  }

  lemma {:induction false} TallyGoesOn(readings: seq<Reading>)
    requires GoesOn(readings)
    ensures Tally(readings).grade != Failing && WorstSeen(Tally(readings).grade, readings)
  {
    if readings != [] {
      var n := |readings| - 1;
      TallyGoesOn(readings[..n]);
      WorstSeenMore(Tally(readings[..n]), readings[..n], readings[n]);
      assert readings[..n] + [readings[n]] == readings;
    }
  }

  /** The tally of a sweep, at every point it can stop at, is the worst that was seen. */
  lemma TallyIsWorst(before: seq<Reading>, last: Reading)
    requires GoesOn(before) && !last.live.Uncomputable?
    ensures WorstSeen(Tally(before + [last]).grade, before + [last])
    ensures GoesOn(before + [last]) <==> Tally(before + [last]).grade != Failing
    ensures Subjects(before + [last]) == Subjects(before) + [last.workload]
  {
    TallyGoesOn(before);
    WorstSeenMore(Tally(before), before, last);
    assert (before + [last])[..|before|] == before;
    assert (before + [last])[|before|] == last;
    assert forall i :: 0 <= i < |before| ==> (before + [last])[i] == before[i];
  }

  // ---------- the sweep over what the workloads would show ----------

  /** What a Get and a status computation of one workload would give. */
  datatype Sight = Unreadable | Saw(live: Live)

  predicate Bad(s: Sight) { s.Unreadable? || s.live.Uncomputable? }
  predicate Fails(s: Sight) { !Bad(s) && Severity(s.live) == Failing }
  predicate Fine(s: Sight) { !Bad(s) && Severity(s.live) == Current }

  predicate Usable(sights: seq<Sight>) {
    forall i :: 0 <= i < |sights| ==> !Bad(sights[i])
  }

  /** The order-free status: Failing if some workload can be seen failing, Current if all can be seen current. */
  ghost function Worst(sights: set<Sight>): Grade {
    if exists s :: s in sights && Fails(s) then Failing
    else if forall s :: s in sights ==> Fine(s) then Current
    else InProgress
  }

  function All(sights: seq<Sight>): set<Sight> { set s | s in sights }

  lemma WorstOfUnion(a: set<Sight>, b: set<Sight>)
    ensures Worst(a + b) == Worse(Worst(a), Worst(b))
  {
  }

  datatype Verdict = Error | Verdict(assessment: Assessment)

  /** The loop of releaseHealth: it stops with an error at the first sight it cannot use, stops at the
      first Failed workload, and otherwise keeps the last workload that is not Current. */
  function Sweep(workloads: seq<Doc>, sights: seq<Sight>, a: Assessment): Verdict
    requires |workloads| == |sights|
  {
    if workloads == [] then Verdict(a)
    else if Bad(sights[0]) then Error
    else
      var next := Absorb(a, Reading(workloads[0], sights[0].live));
      if next.grade == Failing then Verdict(next)
      else Sweep(workloads[1..], sights[1..], next)
  }

  lemma {:induction false} SweepGrade(workloads: seq<Doc>, sights: seq<Sight>, a: Assessment)
    requires |workloads| == |sights|
    requires a.grade in {InProgress, Current}
    ensures var v := Sweep(workloads, sights, a);
            v.Verdict? ==> v.assessment.grade == Worse(a.grade, Worst(All(sights)))
  {
    if workloads != [] && !Bad(sights[0]) {
      var next := Absorb(a, Reading(workloads[0], sights[0].live));
      assert sights == [sights[0]] + sights[1..];
      assert All(sights) == {sights[0]} + All(sights[1..]);
      WorstOfUnion({sights[0]}, All(sights[1..]));
      assert Worst({sights[0]}) == Severity(sights[0].live) by { assert sights[0] in {sights[0]}; }
      if next.grade != Failing { SweepGrade(workloads[1..], sights[1..], next); }
    }
  }

  /** Whenever the sweep ends without an error, its status is the worst of the workloads' states: also when it stops at
      a Failed workload and never gets to one it could not read. */
  lemma SweepIsWorst(workloads: seq<Doc>, sights: seq<Sight>)
    requires |workloads| == |sights|
    ensures var v := Sweep(workloads, sights, ALL_CURRENT);
            v.Verdict? ==> v.assessment.grade == Worst(All(sights))
  {
    SweepGrade(workloads, sights, ALL_CURRENT);
  }

  /** The sweep of a concatenation goes on, from where the first part's sweep got to, with the second part. */
  lemma {:induction false} SweepContinues(ws: seq<Doc>, sights: seq<Sight>, ws': seq<Doc>, sights': seq<Sight>,
                                          a: Assessment)
    requires |ws| == |sights| && |ws'| == |sights'|
    requires a.grade in {InProgress, Current}
    ensures var first := Sweep(ws, sights, a);
            Sweep(ws + ws', sights + sights', a) ==
            if first.Error? || first.assessment.grade == Failing then first else Sweep(ws', sights', first.assessment)
  {
    if ws == [] {
      assert ws + ws' == ws' && sights + sights' == sights';
    } else {
      assert (ws + ws')[1..] == ws[1..] + ws' && (sights + sights')[1..] == sights[1..] + sights';
      if !Bad(sights[0]) {
        var next := Absorb(a, Reading(ws[0], sights[0].live));
        if next.grade != Failing { SweepContinues(ws[1..], sights[1..], ws', sights', next); }
      }
    }
  }

  /** Whether the sweep ends in an error does not depend on the aggregate it starts with. */
  lemma {:induction false} SweepErrorAnyStart(ws: seq<Doc>, sights: seq<Sight>, a: Assessment, b: Assessment)
    requires |ws| == |sights|
    requires a.grade in {InProgress, Current} && b.grade in {InProgress, Current}
    ensures Sweep(ws, sights, a).Error? <==> Sweep(ws, sights, b).Error?
  {
    if ws != [] && !Bad(sights[0]) {
      var r := Reading(ws[0], sights[0].live);
      if Absorb(a, r).grade != Failing { SweepErrorAnyStart(ws[1..], sights[1..], Absorb(a, r), Absorb(b, r)); }
    }
  }

  lemma {:induction false} SweepKeepsGrade(ws: seq<Doc>, sights: seq<Sight>, a: Assessment)
    requires |ws| == |sights| && a.grade in {InProgress, Current}
    ensures var v := Sweep(ws, sights, a); v.Verdict? ==> v.assessment.grade in {Failing, InProgress, Current}
  {
    if ws != [] && !Bad(sights[0]) {
      var next := Absorb(a, Reading(ws[0], sights[0].live));
      if next.grade != Failing { SweepKeepsGrade(ws[1..], sights[1..], next); }
    }
  }

  /** The status of two lists of workloads swept together is the worse of the two swept apart. */
  lemma SweepOfConcat(ws: seq<Doc>, sights: seq<Sight>, ws': seq<Doc>, sights': seq<Sight>)
    requires |ws| == |sights| && |ws'| == |sights'|
    requires Sweep(ws, sights, ALL_CURRENT).Verdict? && Sweep(ws', sights', ALL_CURRENT).Verdict?
    ensures var v, first, second :=
              Sweep(ws + ws', sights + sights', ALL_CURRENT),
              Sweep(ws, sights, ALL_CURRENT), Sweep(ws', sights', ALL_CURRENT);
            v.Verdict? && v.assessment.grade == Worse(first.assessment.grade, second.assessment.grade)
  {
    var first := Sweep(ws, sights, ALL_CURRENT).assessment;
    SweepContinues(ws, sights, ws', sights', ALL_CURRENT);
    SweepKeepsGrade(ws, sights, ALL_CURRENT);
    SweepIsWorst(ws, sights);
    SweepIsWorst(ws', sights');
    SweepIsWorst(ws + ws', sights + sights');
    assert All(sights + sights') == All(sights) + All(sights');
    WorstOfUnion(All(sights), All(sights'));
    if first.grade != Failing { SweepErrorAnyStart(ws', sights', first, ALL_CURRENT); }
  }

  /** The status depends only on which sights there are, not on their order; and if all are usable, no order of them
      ends in an error. */
  lemma SweepPermutation(ws: seq<Doc>, sights: seq<Sight>, ws': seq<Doc>, sights': seq<Sight>)
    requires |ws| == |sights| && |ws'| == |sights'|
    requires All(sights) == All(sights')
    ensures var v, v' := Sweep(ws, sights, ALL_CURRENT), Sweep(ws', sights', ALL_CURRENT);
            (Usable(sights) ==> v.Verdict? && v'.Verdict?) &&
            (v.Verdict? && v'.Verdict? ==> v.assessment.grade == v'.assessment.grade)
  {
    SweepIsWorst(ws, sights);
    SweepIsWorst(ws', sights');
    if Usable(sights) {
      forall i | 0 <= i < |sights'| ensures !Bad(sights'[i]) { assert sights'[i] in All(sights); }
      SweepErrorExactly(ws, sights, ALL_CURRENT);
      SweepErrorExactly(ws', sights', ALL_CURRENT);
    }
  }

  /** Exactly when the sweep ends in an error: some sight is unusable and no Failed workload comes before it.
      So an error hidden behind a Failed workload never surfaces. */
  lemma {:induction false} SweepErrorExactly(workloads: seq<Doc>, sights: seq<Sight>, a: Assessment)
    requires |workloads| == |sights|
    requires a.grade in {InProgress, Current}
    ensures Sweep(workloads, sights, a).Error? <==>
            exists i :: 0 <= i < |sights| && Bad(sights[i]) &&
                        forall j :: 0 <= j < i ==> !Bad(sights[j]) && Severity(sights[j].live) != Failing
  {
    if workloads != [] && !Bad(sights[0]) {
      var next := Absorb(a, Reading(workloads[0], sights[0].live));
      if next.grade != Failing {
        SweepErrorExactly(workloads[1..], sights[1..], next);
        assert forall j :: 0 < j < |sights| ==> sights[1..][j - 1] == sights[j];
        if Sweep(workloads, sights, a).Error? {
          var i :| 0 <= i < |sights[1..]| && Bad(sights[1..][i]) &&
                   forall j :: 0 <= j < i ==> !Bad(sights[1..][j]) && Severity(sights[1..][j].live) != Failing;
          assert Bad(sights[i + 1]);
          forall j | 0 <= j < i + 1 ensures !Bad(sights[j]) && Severity(sights[j].live) != Failing {
            if j > 0 { assert sights[1..][j - 1] == sights[j]; }
          }
        } else {
          forall i | 0 <= i < |sights| && Bad(sights[i])
            ensures exists j :: 0 <= j < i && (Bad(sights[j]) || Severity(sights[j].live) == Failing)
          {
            assert i > 0 && Bad(sights[1..][i - 1]);
            var j :| 0 <= j < i - 1 && (Bad(sights[1..][j]) || Severity(sights[1..][j].live) == Failing);
            assert sights[1..][j] == sights[j + 1];
          }
        }
      }
    } else if workloads != [] {
      assert Bad(sights[0]);
    }
  }

  // ---------- what the sweep says ----------

  /** The words for a workload that is absent, or in this state. */
  predicate Describes(detail: Text, d: Doc, s: Sight) {
    !Bad(s) && d.Object? &&
    match s.live
    case Missing => detail == NotCreatedYet(d.kind, d.name)
    case Computed(_, message) => detail == Observed(d.kind, d.name, message)
    case _ => false
  }

  /** Which workload the sweep's detail is about: the first failed one; or the last that was not current, if none
      failed; or none, if all were. */
  predicate Blamed(i: int, sights: seq<Sight>) {
    && -1 <= i < |sights|
    && (forall j :: 0 <= j < |sights| && !(0 <= i && Fails(sights[i]) && i < j) ==> !Bad(sights[j]))
    && (if i < 0 then forall j :: 0 <= j < |sights| ==> Fine(sights[j])
        else if Fails(sights[i]) then forall j :: 0 <= j < i ==> !Fails(sights[j])
        else !Fine(sights[i]) && (forall j :: 0 <= j < |sights| ==> !Fails(sights[j])) &&
             forall j :: i < j < |sights| ==> Fine(sights[j]))
  }

  lemma {:induction false} SweepBlames(ws: seq<Doc>, sights: seq<Sight>, a: Assessment) returns (i: int)
    requires |ws| == |sights| && (forall j :: 0 <= j < |ws| ==> ws[j].Object?) && a.grade in {InProgress, Current}
    requires Sweep(ws, sights, a).Verdict?
    ensures Blamed(i, sights)
    ensures var v := Sweep(ws, sights, a).assessment;
            if i < 0 then v == a else Describes(v.detail, ws[i], sights[i]) && v.grade == Severity(sights[i].live)
  {
    i := -1;
    if ws != [] {
      var next := Absorb(a, Reading(ws[0], sights[0].live));
      if next.grade == Failing {
        i := 0;
      } else {
        var k := SweepBlames(ws[1..], sights[1..], next);
        i := if 0 <= k then k + 1 else if Fine(sights[0]) then -1 else 0;
        BlameShifts(sights, k, i);
      }
    }
  }

  lemma BlameShifts(sights: seq<Sight>, k: int, i: int)
    requires sights != [] && !Bad(sights[0]) && !Fails(sights[0]) && Blamed(k, sights[1..])
    requires i == if 0 <= k then k + 1 else if Fine(sights[0]) then -1 else 0
    ensures Blamed(i, sights)
  {
    assert forall j :: 0 < j < |sights| ==> sights[1..][j - 1] == sights[j];
    if 0 <= k { assert sights[1..][k] == sights[i]; }
    forall j | 0 <= j < |sights| && !(0 <= i && Fails(sights[i]) && i < j) ensures !Bad(sights[j]) {
      if 0 < j { assert !Bad(sights[1..][j - 1]); }
    }
  }

  /** The detail that goes with the status: it is about the first failed workload, or else about the last one that is
      not current, and says what that one shows; only if all are current does it say so. */
  lemma DetailIsAboutTheBlamed(ws: seq<Doc>, sights: seq<Sight>) returns (i: int)
    requires |ws| == |sights| && (forall j :: 0 <= j < |ws| ==> ws[j].Object?)
    requires Sweep(ws, sights, ALL_CURRENT).Verdict?
    ensures Blamed(i, sights)
    ensures var v := Sweep(ws, sights, ALL_CURRENT).assessment;
            if i < 0 then v.grade == Current && v.detail == Plain("all workloads current")
            else v.grade != Current && Describes(v.detail, ws[i], sights[i])
  {
    i := SweepBlames(ws, sights, ALL_CURRENT);
  }
}
