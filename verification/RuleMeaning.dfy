/** What each operator of a condition means, stated without the evaluator's own helper functions. */
module RuleMeaning {
  import opened Wrappers
  import opened RuleConditions
  import opened RuleTraces

  // ---------- equality ----------

  /** The value with every boolean, at any depth, replaced by the number it equals. */
  function Plain(v: Json): Json
    decreases v
  {
    match v
    case Bool(b) => Num(if b then 1.0 else 0.0)
    case List(items) => List(PlainAll(items))
    case Obj(fields) => Obj(map k | k in fields :: Plain(fields[k]))
    case _ => v
  }

  function PlainAll(items: seq<Json>): (r: seq<Json>)
    ensures |r| == |items| && forall i :: 0 <= i < |items| ==> r[i] == Plain(items[i])
    decreases items
  {
    if items == [] then [] else [Plain(items[0])] + PlainAll(items[1..])
  }

  /** Two values are equal exactly when they are the same once True is read as 1 and False as 0. */
  lemma {:induction false} EqualIffPlainAlike(a: Json, b: Json)
    ensures Equal(a, b) <==> Plain(a) == Plain(b)
    decreases a
  {
    match (a, b)
    case (List(s), List(t)) =>
      if |s| == |t| { ListsPlainAlike(s, t, a); }
    case (Obj(f), Obj(g)) =>
      assert Plain(a).fields.Keys == f.Keys && Plain(b).fields.Keys == g.Keys;
      if f.Keys == g.Keys { ObjectsPlainAlike(f, g, a); }
    case _ =>
  }

  lemma {:induction false} ListsPlainAlike(s: seq<Json>, t: seq<Json>, whole: Json)
    requires |s| == |t| && whole == List(s)
    ensures (forall i | 0 <= i < |s| :: Equal(s[i], t[i])) <==> Plain(List(s)) == Plain(List(t))
    decreases whole, 0
  {
    forall i | 0 <= i < |s| ensures Equal(s[i], t[i]) <==> Plain(s[i]) == Plain(t[i]) {
      EqualIffPlainAlike(s[i], t[i]);
    }
    var p, q := PlainAll(s), PlainAll(t);
    assert Plain(List(s)) == List(p) && Plain(List(t)) == List(q);
    assert p == q <==> forall i | 0 <= i < |s| :: p[i] == q[i];
  }

  lemma {:induction false} ObjectsPlainAlike(f: map<string, Json>, g: map<string, Json>, whole: Json)
    requires f.Keys == g.Keys && whole == Obj(f)
    ensures (forall k | k in f :: Equal(f[k], g[k])) <==> Plain(Obj(f)) == Plain(Obj(g))
    decreases whole, 0
  {
    forall k | k in f ensures Equal(f[k], g[k]) <==> Plain(f[k]) == Plain(g[k]) {
      EqualIffPlainAlike(f[k], g[k]);
    }
    var p, q := Plain(Obj(f)).fields, Plain(Obj(g)).fields;
    assert p == q <==> forall k | k in f :: p[k] == q[k];
  }

  // ---------- order ----------

  /** a comes before b: they agree up to k, where a has ended or has the smaller character. */
  ghost predicate LexBefore(a: string, b: string) {
    exists k: nat :: LessAt(a, b, k)
  }

  predicate LessAt(a: string, b: string, k: nat) {
    && k <= |a| && k < |b| && a[..k] == b[..k]
    && (k == |a| || a[k] < b[k])
  }

  lemma {:induction false} BeforeIsLexicographic(a: string, b: string)
    ensures Before(a, b) <==> LexBefore(a, b)
    decreases |a|
  {
    if a == "" {
      if b != "" { assert LessAt(a, b, 0); }
    } else if b != "" && a[0] < b[0] {
      assert LessAt(a, b, 0);
    } else if b != "" && a[0] == b[0] {
      BeforeIsLexicographic(a[1..], b[1..]);
      if k: nat :| LessAt(a[1..], b[1..], k) {
        assert a[..k + 1] == [a[0]] + a[1..][..k] && b[..k + 1] == [b[0]] + b[1..][..k];
        assert LessAt(a, b, k + 1);
      }
      if k: nat :| LessAt(a, b, k) {
        assert k > 0;
        assert a[1..][..k - 1] == a[..k][1..] && b[1..][..k - 1] == b[..k][1..];
        assert LessAt(a[1..], b[1..], k - 1);
      }
    }
  }

  lemma {:induction false} BeforeIsTotal(a: string, b: string)
    ensures Before(a, b) <==> !Before(b, a) && a != b
    decreases |a|
  {
    if a != "" && b != "" && a[0] == b[0] {
      BeforeIsTotal(a[1..], b[1..]);
      assert a == [a[0]] + a[1..] && b == [b[0]] + b[1..];
    }
  }

  // ---------- comparisons ----------

  lemma EqualityMeans(a: Json, b: Json)
    ensures Compare("eq", a, b) == Ok(Plain(a) == Plain(b))
    ensures Compare("ne", a, b) == Ok(Plain(a) != Plain(b))
  {
    EqualIffPlainAlike(a, b);
  }

  lemma NumberOrderMeans(x: real, y: real)
    ensures Compare("gt", Num(x), Num(y)) == Ok(x > y) && Compare("gte", Num(x), Num(y)) == Ok(x >= y)
    ensures Compare("lt", Num(x), Num(y)) == Ok(x < y) && Compare("lte", Num(x), Num(y)) == Ok(x <= y)
  {
  }

  lemma StringOrderMeans(a: string, b: string)
    ensures Compare("gt", Str(a), Str(b)) == Ok(LexBefore(b, a))
    ensures Compare("gte", Str(a), Str(b)) == Ok(!LexBefore(a, b))
    ensures Compare("lt", Str(a), Str(b)) == Ok(LexBefore(a, b))
    ensures Compare("lte", Str(a), Str(b)) == Ok(!LexBefore(b, a))
  {
    BeforeIsLexicographic(a, b);
    BeforeIsLexicographic(b, a);
    BeforeIsTotal(a, b);
  }

  /** Only two numbers or two strings can be ordered: not booleans, although they equal numbers. */
  lemma OrderNeedsLikeOperands(op: string, a: Json, b: Json)
    requires op in {"gt", "gte", "lt", "lte"}
    ensures Compare(op, a, b).Ok? <==> (a.Num? && b.Num?) || (a.Str? && b.Str?)
    ensures Compare(op, a, b).Err? ==> Compare(op, a, b) == Err(TypeMismatch)
  {
  }

  lemma SubstringMeans(part: string, whole: string)
    ensures Substring(part, whole) <==> exists before: string, after: string :: whole == before + part + after
  {
    if Substring(part, whole) {
      var i :| 0 <= i <= |whole| && part <= whole[i..];
      assert whole == whole[..i] + part + whole[i + |part|..];
    }
    forall before: string, after: string | whole == before + part + after ensures Substring(part, whole) {
      assert whole[|before|..] == part + after;
    }
  }

  lemma MemberMeans(items: seq<Json>, v: Json)
    ensures (exists i | 0 <= i < |items| :: Equal(items[i], v))
       <==> exists i :: 0 <= i < |items| && Plain(items[i]) == Plain(v)
  {
    forall i | 0 <= i < |items| ensures Equal(items[i], v) <==> Plain(items[i]) == Plain(v) {
      EqualIffPlainAlike(items[i], v);
    }
  }

  /** A text contains its substrings, a list what equals one of its items. */
  lemma ContainsMeans(a: Json, b: Json)
    ensures a.Str? && b.Str? ==>
      Compare("contains", a, b) == Ok(exists before: string, after: string :: a.s == before + b.s + after)
    ensures a.List? ==> Compare("contains", a, b) == Ok(exists i :: 0 <= i < |a.items| && Plain(a.items[i]) == Plain(b))
    ensures !(a.Str? && b.Str?) && !a.List? ==> Compare("contains", a, b) == Err(TypeMismatch)
  {
    if a.Str? && b.Str? { SubstringMeans(b.s, a.s); }
    if a.List? { MemberMeans(a.items, b); }
  }

  // ---------- what kind of node a mapping is ----------

  /** The node's operator is the given text. */
  predicate HasOp(fields: map<string, Json>, op: string) { "op" in fields && fields["op"] == Str(op) }

  lemma OperatorsAreRecognised(fields: map<string, Json>, op: string)
    requires op != "" && HasOp(fields, op)
    ensures op == "and" || op == "or" ==> FormOf(fields) == JunctionForm(op)
    ensures op == "not" ==> FormOf(fields) == NotForm
    ensures op in {"eq", "ne", "gt", "gte", "lt", "lte", "contains"} ==> FormOf(fields) == ComparisonForm(op)
    ensures op == "exists" ==> FormOf(fields).ExistsForm?
    ensures op !in {"and", "or", "not", "exists", "eq", "ne", "gt", "gte", "lt", "lte", "contains"} ==>
      FormOf(fields) == UnknownForm
  {
  }

  /** Without an operator, a node that names a path reads it. */
  lemma PathsAreRecognised(fields: map<string, Json>, path: string)
    requires "var" in fields && fields["var"] == Str(path)
    ensures "op" !in fields || fields["op"] == Null || fields["op"] == Str("") ==> FormOf(fields) == VarForm(path)
    ensures HasOp(fields, "exists") ==> FormOf(fields) == ExistsForm(path)
  {
  }

  // ---------- connectives ----------

  /**
   A junction that has a value has a boolean one: for `and` it is true exactly when every child evaluates to
   true, for `or` exactly when some child does.
   */
  lemma JunctionMeans(node: Json, context: Json)
    requires node.Obj? && FormOf(node.fields).JunctionForm? && Eval(node, context).Ok?
    ensures "args" in node.fields && node.fields["args"].List? && node.fields["args"].items != []
    ensures Eval(node, context).value.value.Bool?
    ensures var value, children := Eval(node, context).value.value, node.fields["args"].items;
      && (FormOf(node.fields).op == "and" ==>
            (value == Bool(true) <==>
              forall i :: 0 <= i < |children| ==> EvaluatesTo(children[i], context, Bool(true))))
      && (FormOf(node.fields).op == "or" ==>
            (value == Bool(true) <==>
              exists i :: 0 <= i < |children| && EvaluatesTo(children[i], context, Bool(true))))
  {
    var children := node.fields["args"].items;
    EvalAllIsPointwise(children, context);
    var es := EvalAll(children, context).value;
    assert forall i :: 0 <= i < |children| ==>
      (EvaluatesTo(children[i], context, Bool(true)) <==> Values(es)[i] == Bool(true));
  }

  /** The node has this value in the context. */
  predicate EvaluatesTo(node: Json, context: Json, value: Json) {
    Eval(node, context).Ok? && Eval(node, context).value.value == value
  }

  /** A negation has a value exactly when its argument is a boolean, and then it is the other one. */
  lemma NegationMeans(node: Json, context: Json, b: bool)
    requires node.Obj? && FormOf(node.fields) == NotForm
    ensures EvaluatesTo(node, context, Bool(b)) <==>
      "arg" in node.fields && EvaluatesTo(node.fields["arg"], context, Bool(!b))
    ensures Eval(node, context).Ok? ==> Eval(node, context).value.value.Bool?
  {
    var child := EvalField(node, "arg", context);
    assert Eval(node, context) == Negate(child);
    if "arg" in node.fields { assert child == Eval(node.fields["arg"], context); }
  }

  /** An operand that is absent counts as null. */
  function Operand(node: Json, key: string): Json
    requires node.Obj?
  {
    if key in node.fields then node.fields[key] else Null
  }

  /** A comparison compares the values of its two operands, the left one's error coming first. */
  lemma ComparisonMeans(node: Json, context: Json)
    requires node.Obj? && FormOf(node.fields).ComparisonForm?
    ensures var l, r := Eval(Operand(node, "left"), context), Eval(Operand(node, "right"), context);
      && (l.Err? ==> Eval(node, context) == Err(l.error))
      && (l.Ok? && r.Err? ==> Eval(node, context) == Err(r.error))
      && (l.Ok? && r.Ok? ==>
            var result := Compare(FormOf(node.fields).op, l.value.value, r.value.value);
            && (result.Ok? ==> EvaluatesTo(node, context, Bool(result.value)))
            && (result.Err? ==> Eval(node, context) == Err(result.error)))
  {
  }

  /** Reading a path gives what it resolves to; `exists` only tells whether it does, and forgives only a missing field. */
  lemma PathNodesMean(node: Json, context: Json, path: string)
    requires node.Obj?
    ensures FormOf(node.fields) == VarForm(path) && Resolve(path, context).Ok? ==>
      EvaluatesTo(node, context, Resolve(path, context).value)
    ensures FormOf(node.fields) == ExistsForm(path) && Resolve(path, context).Ok? ==>
      EvaluatesTo(node, context, Bool(true))
    ensures FormOf(node.fields) == ExistsForm(path) && Resolve(path, context) == Err(MissingField) ==>
      EvaluatesTo(node, context, Bool(false))
    ensures FormOf(node.fields) == VarForm(path) || FormOf(node.fields) == ExistsForm(path) ==>
      Resolve(path, context) == Err(AccessDenied) ==> Eval(node, context) == Err(AccessDenied)
    ensures FormOf(node.fields) == VarForm(path) && Resolve(path, context).Err? ==>
      Eval(node, context) == Err(Resolve(path, context).error)
  {
  }

  /** Anything but a mapping is its own value, and an operator that is not known is an error. */
  lemma OtherNodesMean(node: Json, context: Json)
    ensures !node.Obj? ==> EvaluatesTo(node, context, node)
    ensures node.Obj? && FormOf(node.fields) == UnknownForm ==> Eval(node, context) == Err(InvalidOperator)
  {
  }

  /** The empty condition always holds; any other holds or fails only by a boolean. */
  lemma RootMeans(condition: map<string, Json>, context: Json, b: bool)
    ensures condition == map[] ==> EvaluateCondition(condition, context).Ok? && EvaluateCondition(condition, context).value.value == Bool(true)
    ensures condition != map[] ==>
      ((EvaluateCondition(condition, context).Ok? && EvaluateCondition(condition, context).value.value == Bool(b))
        <==> EvaluatesTo(Obj(condition), context, Bool(b)))
    ensures condition != map[] && Eval(Obj(condition), context).Err? ==>
      EvaluateCondition(condition, context) == Err(Eval(Obj(condition), context).error)
  {
  }

  // ---------- paths ----------

  /** Following the segments one by one leads from the context to the value. */
  predicate IsTrail(parts: seq<string>, context: Json, value: Json, trail: seq<Json>) {
    && |trail| == |parts| + 1 && trail[0] == context && trail[|parts|] == value
    && forall i | 0 <= i < |parts| ::
         trail[i].Obj? && parts[i] in trail[i].fields && trail[i + 1] == trail[i].fields[parts[i]]
  }

  lemma {:induction false} WalkLeavesTrail(parts: seq<string>, context: Json) returns (trail: seq<Json>)
    requires Walk(parts, context).Ok?
    ensures IsTrail(parts, context, Walk(parts, context).value, trail)
    decreases |parts|
  {
    if parts == [] {
      trail := [context];
    } else {
      var rest := WalkLeavesTrail(parts[1..], context.fields[parts[0]]);
      trail := [context] + rest;
    }
  }

  lemma {:induction false} TrailIsWalked(parts: seq<string>, context: Json, value: Json, trail: seq<Json>)
    requires IsTrail(parts, context, value, trail)
    ensures Walk(parts, context) == Ok(value)
    decreases |parts|
  {
    if parts != [] { TrailIsWalked(parts[1..], trail[1], value, trail[1..]); }
  }

  /**
   A path resolves to a value exactly when its first segment is one of the five roots, no segment is one of
   the five denied ones, and its segments lead there through nested mappings. Denial comes before absence.
   */
  lemma ResolveMeans(path: string, context: Json, value: Json)
    ensures var parts := Split(path);
      && (Resolve(path, context) == Ok(value) <==>
            && parts[0] in {"event", "latest_state", "device", "space", "time"}
            && (forall i :: 0 <= i < |parts| ==> parts[i] !in {"raw", "raw_payload", "provider_payload", "provider_raw", "source_payload"})
            && exists trail :: IsTrail(parts, context, value, trail))
      && (Resolve(path, context) == Err(AccessDenied) <==>
            && parts[0] in {"event", "latest_state", "device", "space", "time"}
            && exists i :: 0 <= i < |parts| && parts[i] in {"raw", "raw_payload", "provider_payload", "provider_raw", "source_payload"})
      && (Resolve(path, context).Err? ==> Resolve(path, context).error in {AccessDenied, MissingField})
  {
    var parts := Split(path);
    EmptyPathHasNoRoot();
    WalkNeverDenies(parts, context);
    if Walk(parts, context) == Ok(value) {
      var trail := WalkLeavesTrail(parts, context);
    }
    forall trail | IsTrail(parts, context, value, trail) ensures Walk(parts, context) == Ok(value) {
      TrailIsWalked(parts, context, value, trail);
    }
  }
}
