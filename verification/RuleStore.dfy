/**
 The local rule store of src/zediot_ha_hub_connector/rule_store.py: the active packages with Core's control
 list, and the execution ledger with its ranked pruning. The execution id is an injective digest of the
 idempotency key, so ledger rows are named by their key.
 */
module RuleStore {
  import opened Wrappers

  // ---------- packages ----------

  datatype Package = Package(packageId: string, validUntil: int)

  /** rule_id is UNIQUE, so the table maps rules to packages. */
  type Packages = map<string, Package>

  datatype Control = Control(packageId: string, status: string)

  predicate Active(p: Packages, packageId: string) { exists r :: r in p && p[r].packageId == packageId }

  /** A package id belongs to one rule: applying it for another rule fails and changes nothing. */
  function ApplyPackage(p: Packages, rule: string, package: Package): (Packages, bool) {
    if exists r :: r in p && r != rule && p[r].packageId == package.packageId then (p, false)
    else (p[rule := package], true)
  }

  function Delete(p: Packages, packageId: string): Packages {
    map r | r in p && p[r].packageId != packageId :: p[r]
  }

  /** Whether a row was deleted, or the control is invalid. */
  function ApplyControl(p: Packages, c: Control): (Packages, Result<bool, string>) {
    if c.status != "revoked" && c.status != "expired" then (p, Err("RULE_PACKAGE_CONTROL_INVALID"))
    else (Delete(p, c.packageId), Ok(Active(p, c.packageId)))
  }

  function DropExpired(p: Packages, now: int): Packages {
    map r | r in p && p[r].validUntil > now :: p[r]
  }

  /** The control loop of `process_rule_packages_once`: the progress it counts, or the error it raises. */
  function ProcessControls(p: Packages, controls: seq<Control>): (Packages, Result<nat, string>)
    decreases |controls|
  {
    if controls == [] then (p, Ok(0))
    else
      var last := |controls| - 1;
      var (q, before) := ProcessControls(p, controls[..last]);
      if before.Err? then (q, before)
      else
        var (r, deleted) := ApplyControl(q, controls[last]);
        match deleted
        case Err(e) => (r, Err(e))
        case Ok(d) => (r, Ok(before.value + if d then 1 else 0))
  }

  // ---------- the execution ledger ----------

  datatype Upload = Held | Pending | Uploaded

  datatype Execution = Execution(complete: bool, upload: Upload, createdAt: int, updatedAt: int)

  type Ledger = map<string, Execution>

  /** Eviction order: rows whose evidence has been uploaded come before all others, and older rows before newer ones. */
  predicate RankedAtMost(a: Execution, b: Execution) {
    if a.upload == Uploaded && b.upload != Uploaded then true
    else if a.upload != Uploaded && b.upload == Uploaded then false
    else a.createdAt <= b.createdAt
  }

  function Unexpired(rows: Ledger, cutoff: int): Ledger {
    map k | k in rows && !(rows[k].upload == Uploaded && rows[k].updatedAt < cutoff) :: rows[k]
  }

  function Room(count: nat, maxRows: int): nat {
    if maxRows <= 0 then 0 else if count <= maxRows then count else maxRows
  }

  predicate Sublist(a: Ledger, b: Ledger) { forall k :: k in a ==> k in b && a[k] == b[k] }

  /** What `_prune` leaves: nothing expired, at most `maxRows`, and nothing ranked before an evicted row. */
  ghost predicate PrunedTo(rows: Ledger, left: Ledger, cutoff: int, maxRows: int) {
    var live := Unexpired(rows, cutoff);
    && Sublist(left, live)
    && |left| == Room(|live|, maxRows)
    && forall evicted, kept :: evicted in live && evicted !in left && kept in left ==>
         RankedAtMost(live[evicted], live[kept])
  }

  function Reserve(rows: Ledger, key: string, now: int): Ledger { rows[key := Execution(false, Held, now, now)] }

  function Finalize(rows: Ledger, key: string, now: int): Ledger
    requires key in rows
  {
    rows[key := Execution(true, Pending, rows[key].createdAt, now)]
  }

  function MarkUploaded(rows: Ledger, ids: set<string>, now: int): Ledger {
    map k | k in rows :: if k in ids then rows[k].(upload := Uploaded, updatedAt := now) else rows[k]
  }

  /** The clock has advanced past every reservation. */
  predicate Newer(rows: Ledger, now: int) { forall k :: k in rows ==> rows[k].createdAt < now }

  /** The newest row, if its evidence is not uploaded, survives a prune exactly when any row may stay. */
  lemma NewestSurvives(rows: Ledger, left: Ledger, key: string, cutoff: int, maxRows: int)
    requires PrunedTo(rows, left, cutoff, maxRows)
    requires key in rows && rows[key].upload != Uploaded
    requires forall k :: k in rows && k != key ==> rows[k].createdAt < rows[key].createdAt
    ensures key in left <==> maxRows >= 1
  {
    var live := Unexpired(rows, cutoff);
    assert key in live;
    assert live.Keys == {key} + (live.Keys - {key});
    assert forall k :: k in left && k != key ==> k in live && !RankedAtMost(live[key], live[k]);
    if key !in left {
      assert left.Keys == {};
    } else {
      assert left.Keys == {key} + (left.Keys - {key});
    }
  }

  lemma SublistSize(a: Ledger, b: Ledger)
    requires Sublist(a, b)
    ensures |a| <= |b| && (|a| == |b| ==> a == b)
  {
    var rest := b.Keys - a.Keys;
    assert b.Keys == a.Keys + rest;
  }

  lemma PruneBounds(rows: Ledger, left: Ledger, cutoff: int, maxRows: int)
    requires PrunedTo(rows, left, cutoff, maxRows)
    ensures maxRows >= 0 ==> |left| <= maxRows
    ensures Sublist(left, rows)
    ensures |rows| <= maxRows ==> left == Unexpired(rows, cutoff)
  {
    var live := Unexpired(rows, cutoff);
    SublistSize(live, rows);
    SublistSize(left, live);
  }

  /** A newly reserved row survives its own prune. */
  lemma ReservationStays(before: Ledger, reserved: Ledger, key: string, now: int, cutoff: int, maxRows: int)
    requires PrunedTo(Reserve(before, key, now), reserved, cutoff, maxRows)
    requires maxRows >= 1 && key !in before && Newer(before, now)
    ensures key in reserved && reserved[key] == Execution(false, Held, now, now) && |reserved| <= maxRows
  {
    NewestSurvives(Reserve(before, key, now), reserved, key, cutoff, maxRows);
    PruneBounds(Reserve(before, key, now), reserved, cutoff, maxRows);
  }

  /** A finalized row stays while the ledger is within its maximum. */
  lemma FinalizedStays(reserved: Ledger, after: Ledger, key: string, now: int, cutoff: int, maxRows: int)
    requires key in reserved && |reserved| <= maxRows
    requires PrunedTo(Finalize(reserved, key, now), after, cutoff, maxRows)
    ensures key in after && after[key] == Execution(true, Pending, reserved[key].createdAt, now)
  {
    var done := Finalize(reserved, key, now);
    assert done.Keys == reserved.Keys && |done.Keys| == |reserved.Keys|;
    PruneBounds(done, after, cutoff, maxRows);
  }

  lemma {:induction false} LeastExists(rows: Ledger) returns (least: string)
    requires rows != map[]
    ensures least in rows && forall k :: k in rows ==> RankedAtMost(rows[least], rows[k])
    decreases |rows|
  {
    var k :| k in rows;
    var rest := rows - {k};
    if rest == map[] {
      least := k;
      assert rows.Keys == {k} + rest.Keys;
    } else {
      least := LeastExists(rest);
      if RankedAtMost(rows[k], rows[least]) { least := k; }
      assert forall j :: j in rows ==> j == k || j in rest;
    }
  }

  class LocalRuleStore {
    var packages: Packages
    var rows: Ledger
    const maxRows: int
    const retention: int

    constructor (maxRows: int, retention: int)
      ensures packages == map[] && rows == map[] && this.maxRows == maxRows && this.retention == retention
    {
      this.maxRows, this.retention := maxRows, retention;
      packages, rows := map[], map[];
    }

    method ActivatePackage(rule: string, package: Package) returns (applied: bool)
      modifies this`packages
      ensures (packages, applied) == ApplyPackage(old(packages), rule, package)
      ensures applied <==> forall r :: r in old(packages) && old(packages)[r].packageId == package.packageId ==> r == rule
      ensures applied ==> packages == old(packages)[rule := package]
      ensures !applied ==> packages == old(packages)
    {
      if exists r :: r in packages && r != rule && packages[r].packageId == package.packageId { return false; }
      packages := packages[rule := package];
      return true;
    }

    method ActiveDocuments(now: int) returns (active: set<string>)
      modifies this`packages
      ensures packages == DropExpired(old(packages), now)
      ensures active == packages.Keys
      ensures forall r :: r in active <==> r in old(packages) && old(packages)[r].validUntil > now
      ensures forall r :: r in active ==> packages[r] == old(packages)[r]
    {
      packages := DropExpired(packages, now);
      active := packages.Keys;
    }

    method ProcessControlList(controls: seq<Control>) returns (progress: Result<nat, string>)
      modifies this`packages
      ensures (packages, progress) == ProcessControls(old(packages), controls)
    {
      var processed := 0;
      var i := 0;
      while i < |controls|
        invariant 0 <= i <= |controls|
        invariant (packages, Ok(processed)) == ProcessControls(old(packages), controls[..i])
      {
        assert controls[..i + 1][..i] == controls[..i];
        var result := ApplyControl(packages, controls[i]);
        packages := result.0;
        if result.1.Err? {
          ErrorsStick(old(packages), controls, i + 1);
          return Err(result.1.error);
        }
        if result.1.value { processed := processed + 1; }
        i := i + 1;
      }
      assert controls[..i] == controls;
      return Ok(processed);
    }

    /** Deletes expired evidence, then the lowest-ranked rows beyond the maximum. */
    method Prune(now: int)
      modifies this`rows
      ensures PrunedTo(old(rows), rows, now - retention, maxRows)
      ensures forall k :: k in rows ==> k in old(rows) && rows[k] == old(rows)[k]
      ensures forall k :: k in rows && rows[k].upload == Uploaded ==> rows[k].updatedAt >= now - retention
      ensures |rows| <= (if maxRows > 0 then maxRows else 0)
      ensures forall k :: k in old(rows) && k !in rows ==>
        (old(rows)[k].upload == Uploaded && old(rows)[k].updatedAt < now - retention) || maxRows <= |rows|
    {
      rows := Unexpired(rows, now - retention);
      ghost var live := rows;
      var room := Room(|rows|, maxRows);
      while |rows| > room
        invariant Sublist(rows, live) && |rows| >= room
        invariant forall evicted, kept :: evicted in live && evicted !in rows && kept in rows ==>
          RankedAtMost(live[evicted], live[kept])
        decreases |rows|
      {
        ghost var lowest := LeastExists(rows);
        var least :| least in rows && forall k :: k in rows ==> RankedAtMost(rows[least], rows[k]);
        ghost var before := rows;
        rows := rows - {least};
        assert before.Keys == rows.Keys + {least};
      }
      SublistSize(rows, live);
    }

    /** Returns whether the row was created; a key that is already there is left alone. */
    method ReserveExecution(key: string, now: int, pruneNow: int) returns (created: bool)
      modifies this`rows
      ensures created <==> key !in old(rows)
      ensures !created ==> rows == old(rows)
      ensures created ==> PrunedTo(Reserve(old(rows), key, now), rows, pruneNow - retention, maxRows)
      ensures created && maxRows >= 1 && Newer(old(rows), now) ==>
        key in rows && rows[key] == Execution(false, Held, now, now) && |rows| <= maxRows
    {
      if key in rows { return false; }
      rows := Reserve(rows, key, now);
      Prune(pruneNow);
      if maxRows >= 1 && Newer(old(rows), now) {
        ReservationStays(old(rows), rows, key, now, pruneNow - retention, maxRows);
      }
      return true;
    }

    /** The error is LOCAL_RULE_EXECUTION_RESERVATION_MISSING. */
    method FinalizeExecution(key: string, now: int, pruneNow: int) returns (found: bool)
      modifies this`rows
      ensures found <==> key in old(rows)
      ensures !found ==> rows == old(rows)
      ensures found ==> PrunedTo(Finalize(old(rows), key, now), rows, pruneNow - retention, maxRows)
      ensures found && |old(rows)| <= maxRows ==>
        key in rows && rows[key] == Execution(true, Pending, old(rows)[key].createdAt, now)
    {
      if key !in rows { return false; }
      rows := Finalize(rows, key, now);
      Prune(pruneNow);
      if |old(rows)| <= maxRows { FinalizedStays(old(rows), rows, key, now, pruneNow - retention, maxRows); }
      return true;
    }

    method MarkEvidenceUploaded(ids: set<string>, now: int, pruneNow: int)
      modifies this`rows
      ensures ids == {} ==> rows == old(rows)
      ensures ids != {} ==> PrunedTo(MarkUploaded(old(rows), ids, now), rows, pruneNow - retention, maxRows)
      ensures ids != {} ==> forall k :: k in rows ==> k in old(rows)
      ensures ids != {} ==> forall k :: k in rows && k in ids ==> rows[k] == old(rows)[k].(upload := Uploaded, updatedAt := now)
      ensures ids != {} ==> forall k :: k in rows && k !in ids ==> rows[k] == old(rows)[k]
    {
      if ids == {} { return; }
      rows := MarkUploaded(rows, ids, now);
      Prune(pruneNow);
    }
  }

  lemma {:induction false} ErrorsStick(p: Packages, controls: seq<Control>, i: nat)
    requires i <= |controls| && ProcessControls(p, controls[..i]).1.Err?
    ensures ProcessControls(p, controls) == ProcessControls(p, controls[..i])
    decreases |controls|
  {
    if i == |controls| {
      assert controls[..i] == controls;
    } else {
      assert controls[..|controls| - 1][..i] == controls[..i];
      ErrorsStick(p, controls[..|controls| - 1], i);
    }
  }
}
