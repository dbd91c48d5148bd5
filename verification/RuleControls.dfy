/** Core re-sends its whole control list on every claim: progress counted for it is bounded, so the rule loop cannot spin. */
module RuleControls {
  import opened Wrappers
  import opened RuleStore

  datatype RuleOp =
    | Claim(controls: seq<Control>)
    | Apply(rule: string, package: Package)
    | Activate(now: int)

  /** The active packages, the progress counted for controls so far, and the packages ever applied. */
  datatype Tally = Tally(packages: Packages, progress: nat, applied: nat)

  function Step(t: Tally, op: RuleOp): Tally {
    match op
    case Claim(controls) =>
      var (p, counted) := ProcessControls(t.packages, controls);
      t.(packages := p, progress := t.progress + if counted.Ok? then counted.value else 0)
    case Apply(rule, package) =>
      var (p, applied) := ApplyPackage(t.packages, rule, package);
      t.(packages := p, applied := t.applied + if applied then 1 else 0)
    case Activate(now) => t.(packages := DropExpired(t.packages, now))
  }

  function Run(t: Tally, ops: seq<RuleOp>): Tally
    decreases |ops|
  {
    if ops == [] then t else Run(Step(t, ops[0]), ops[1..])
  }

  lemma {:induction false} SubmapIsSmaller(a: Packages, b: Packages)
    requires forall r :: r in a ==> r in b
    ensures |a| <= |b|
    ensures (exists r :: r in b && r !in a) ==> |a| < |b|
  {
    var rest := b.Keys - a.Keys;
    assert b.Keys == a.Keys + rest;
    if r :| r in b && r !in a { assert r in rest; }
  }

  lemma DeleteShrinks(p: Packages, id: string)
    ensures |Delete(p, id)| + (if Active(p, id) then 1 else 0) <= |p|
  {
    SubmapIsSmaller(Delete(p, id), p);
    if Active(p, id) {
      var r :| r in p && p[r].packageId == id;
      assert r !in Delete(p, id);
    }
  }

  /** Every counted control took at least one package away. */
  lemma {:induction false} ProgressIsPaidFor(p: Packages, controls: seq<Control>)
    ensures var (q, counted) := ProcessControls(p, controls);
      |q| + (if counted.Ok? then counted.value else 0) <= |p|
    decreases |controls|
  {
    if controls != [] {
      var last := |controls| - 1;
      ProgressIsPaidFor(p, controls[..last]);
      DeleteShrinks(ProcessControls(p, controls[..last]).0, controls[last].packageId);
    }
  }

  lemma StepKeepsPotential(t: Tally, op: RuleOp)
    requires t.progress + |t.packages| <= t.applied
    ensures Step(t, op).progress + |Step(t, op).packages| <= Step(t, op).applied
  {
    match op
    case Claim(controls) => ProgressIsPaidFor(t.packages, controls);
    case Apply(rule, package) =>
      assert t.packages[rule := package].Keys == t.packages.Keys + {rule};
    case Activate(now) => SubmapIsSmaller(DropExpired(t.packages, now), t.packages);
  }

  lemma {:induction false} RunKeepsPotential(t: Tally, ops: seq<RuleOp>)
    requires t.progress + |t.packages| <= t.applied
    ensures Run(t, ops).progress + |Run(t, ops).packages| <= Run(t, ops).applied
    decreases |ops|
  {
    if ops != [] {
      StepKeepsPotential(t, ops[0]);
      RunKeepsPotential(Step(t, ops[0]), ops[1..]);
    }
  }

  /** Over every run, the progress counted for controls is at most the number of packages ever applied. */
  lemma ControlProgressIsBounded(ops: seq<RuleOp>)
    ensures Run(Tally(map[], 0, 0), ops).progress <= Run(Tally(map[], 0, 0), ops).applied
  {
    RunKeepsPotential(Tally(map[], 0, 0), ops);
  }

  /** No package named by the list is active. */
  predicate Cleared(p: Packages, controls: seq<Control>) {
    forall i :: 0 <= i < |controls| ==> !Active(p, controls[i].packageId)
  }

  predicate SubsetOf(p: Packages, q: Packages) { forall r :: r in p ==> r in q && p[r] == q[r] }

  lemma {:induction false} ControlsOnlyDelete(p: Packages, controls: seq<Control>)
    ensures SubsetOf(ProcessControls(p, controls).0, p)
    ensures ProcessControls(p, controls).1.Ok? ==> Cleared(ProcessControls(p, controls).0, controls)
    decreases |controls|
  {
    if controls != [] {
      var last := |controls| - 1;
      ControlsOnlyDelete(p, controls[..last]);
      var q := ProcessControls(p, controls[..last]).0;
      if ProcessControls(p, controls).1.Ok? {
        forall i | 0 <= i < |controls| ensures !Active(Delete(q, controls[last].packageId), controls[i].packageId) {
          if i < last { assert !Active(q, controls[..last][i].packageId); }
        }
      }
    }
  }

  /** Some control of the list names the package. */
  predicate Named(controls: seq<Control>, packageId: string) {
    exists i :: 0 <= i < |controls| && controls[i].packageId == packageId
  }

  lemma NamedSplit(controls: seq<Control>, packageId: string)
    requires controls != []
    ensures var last := |controls| - 1;
      Named(controls, packageId) <==> Named(controls[..last], packageId) || controls[last].packageId == packageId
  {
    var last := |controls| - 1;
    if i :| 0 <= i < last && controls[i].packageId == packageId { assert controls[..last][i] == controls[i]; }
  }

  /**
   A list is processed to its end exactly when every control revokes or expires a package. Then exactly the
   packages it names are gone, and it counts progress exactly when there was one.
   */
  lemma {:induction false} ControlsMean(p: Packages, controls: seq<Control>)
    ensures var (q, counted) := ProcessControls(p, controls);
      && (counted.Ok? <==> forall i :: 0 <= i < |controls| ==> controls[i].status == "revoked" || controls[i].status == "expired")
      && (counted.Ok? ==> forall r :: r in q <==> r in p && !Named(controls, p[r].packageId))
      && (counted.Ok? ==> (counted.value > 0 <==> exists r :: r in p && Named(controls, p[r].packageId)))
    decreases |controls|
  {
    if controls != [] {
      var last := |controls| - 1;
      var front := controls[..last];
      ControlsMean(p, front);
      assert forall i :: 0 <= i < last ==> front[i] == controls[i];
      ControlsOnlyDelete(p, front);
      forall r | r in p
        ensures Named(controls, p[r].packageId) <==> Named(front, p[r].packageId) || controls[last].packageId == p[r].packageId
      {
        NamedSplit(controls, p[r].packageId);
      }
    }
  }

  lemma {:induction false} ClearedAddsNothing(p: Packages, controls: seq<Control>)
    requires Cleared(p, controls)
    ensures ProcessControls(p, controls).1.Ok? ==> ProcessControls(p, controls).1.value == 0
    decreases |controls|
  {
    if controls != [] {
      var last := |controls| - 1;
      assert forall i :: 0 <= i < last ==> controls[..last][i] == controls[i];
      ClearedAddsNothing(p, controls[..last]);
      ControlsOnlyDelete(p, controls[..last]);
      assert !Active(p, controls[last].packageId);
    }
  }

  lemma {:induction false} RunWithoutApplyOnlyDeletes(t: Tally, ops: seq<RuleOp>)
    requires forall i :: 0 <= i < |ops| ==> !ops[i].Apply?
    ensures SubsetOf(Run(t, ops).packages, t.packages)
    decreases |ops|
  {
    if ops != [] {
      if ops[0].Claim? { ControlsOnlyDelete(t.packages, ops[0].controls); }
      RunWithoutApplyOnlyDeletes(Step(t, ops[0]), ops[1..]);
    }
  }

  /** Claiming the same list again, with anything but an applied package in between, counts no progress. */
  lemma RepeatedListAddsNothing(t: Tally, controls: seq<Control>, between: seq<RuleOp>)
    requires ProcessControls(t.packages, controls).1.Ok?
    requires forall i :: 0 <= i < |between| ==> !between[i].Apply?
    ensures var u := Run(Step(t, Claim(controls)), between);
      Step(u, Claim(controls)).progress == u.progress
  {
    var s := Step(t, Claim(controls));
    var u := Run(s, between);
    ControlsOnlyDelete(t.packages, controls);
    RunWithoutApplyOnlyDeletes(s, between);
    forall i | 0 <= i < |controls| ensures !Active(u.packages, controls[i].packageId) {
      assert !Active(s.packages, controls[i].packageId);
    }
    ClearedAddsNothing(u.packages, controls);
  }
}
