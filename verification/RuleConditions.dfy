/**
 The condition evaluator of src/zediot_ha_hub_connector/rule_runtime.py over JSON values. Numbers are reals;
 as in Python, True equals 1 and False equals 0. A value other than a string used as an operator or a path is
 rendered as text that is neither an operator nor below an allowed root.
 */
module RuleConditions {
  import opened Wrappers

  datatype Json =
    | Null
    | Bool(b: bool)
    | Num(n: real)
    | Str(s: string)
    | List(items: seq<Json>)
    | Obj(fields: map<string, Json>)

  datatype Reason = MissingField | AccessDenied | InvalidCondition | InvalidOperator | TypeMismatch

  datatype Trace =
    | Always
    | Literal(value: Json)
    | Var(path: string, value: Json)
    | Exists(path: string, result: bool)
    | Junction(op: string, args: seq<Trace>, result: bool)
    | Not(arg: Trace, result: bool)
    | Comparison(op: string, left: Trace, right: Trace, result: bool)

  const ALLOWED_ROOTS := {"event", "latest_state", "device", "space", "time"}
  const DENIED_SEGMENTS := {"raw", "raw_payload", "provider_payload", "provider_raw", "source_payload"}
  const COMPARISONS := {"eq", "ne", "gt", "gte", "lt", "lte", "contains"}

  // ---------- Python values ----------

  predicate Falsy(v: Json) {
    match v
    case Null => true
    case Bool(b) => !b
    case Num(n) => n == 0.0
    case Str(s) => s == ""
    case List(items) => items == []
    case Obj(fields) => fields == map[]
  }

  function Get(fields: map<string, Json>, key: string): Json {
    if key in fields then fields[key] else Null
  }

  /** str(value or "") */
  function Text(v: Json): string {
    if Falsy(v) then "" else if v.Str? then v.s else "<value>"
  }

  predicate Equal(a: Json, b: Json)
    decreases a
  {
    match (a, b)
    case (Obj(f), Obj(g)) => f.Keys == g.Keys && forall k | k in f :: k in g && Equal(f[k], g[k])
    case (List(s), List(t)) => |s| == |t| && forall i | 0 <= i < |s| :: Equal(s[i], t[i])
    case (Bool(x), Num(y)) => y == if x then 1.0 else 0.0
    case (Num(x), Bool(y)) => x == if y then 1.0 else 0.0
    case _ => a == b
  }

  predicate Before(a: string, b: string) {
    b != "" && (a == "" || a[0] < b[0] || (a[0] == b[0] && Before(a[1..], b[1..])))
  }

  predicate Substring(part: string, whole: string) {
    exists i | 0 <= i <= |whole| :: part <= whole[i..]
  }

  function Order(op: string, less: bool, same: bool): bool {
    if op == "gt" then !less && !same
    else if op == "gte" then !less
    else if op == "lt" then less
    else less || same
  }

  function Compare(op: string, left: Json, right: Json): Result<bool, Reason> {
    if op == "eq" then Ok(Equal(left, right))
    else if op == "ne" then Ok(!Equal(left, right))
    else if op == "contains" then
      if left.Str? && right.Str? then Ok(Substring(right.s, left.s))
      else if left.List? then Ok(exists i | 0 <= i < |left.items| :: Equal(left.items[i], right))
      else Err(TypeMismatch)
    else if left.Num? && right.Num? then Ok(Order(op, left.n < right.n, left.n == right.n))
    else if left.Str? && right.Str? then Ok(Order(op, Before(left.s, right.s), left.s == right.s))
    else Err(TypeMismatch)
  }

  // ---------- paths ----------

  /** path.split(".") */
  function Split(path: string): (parts: seq<string>)
    ensures |parts| >= 1
  {
    if path == "" then [""]
    else
      var rest := Split(path[1..]);
      if path[0] == '.' then [""] + rest else [[path[0]] + rest[0]] + rest[1..]
  }

  function Join(parts: seq<string>): string
    requires |parts| >= 1
  {
    if |parts| == 1 then parts[0] else parts[0] + "." + Join(parts[1..])
  }

  /** Splitting loses nothing, and no segment contains a dot: a denied segment cannot hide in another one. */
  lemma {:induction false} SplitIsExact(path: string)
    ensures Join(Split(path)) == path
    ensures forall i :: 0 <= i < |Split(path)| ==> '.' !in Split(path)[i]
  {
    if path != "" {
      SplitIsExact(path[1..]);
      var rest := Split(path[1..]);
      assert path == [path[0]] + path[1..];
      if path[0] == '.' {
        assert ([""] + rest)[1..] == rest;
      } else {
        var parts := Split(path);
        assert parts[1..] == rest[1..];
        assert Join(parts) == [path[0]] + Join(rest);
      }
    }
  }

  predicate DeniedPath(path: string) {
    Split(path)[0] in ALLOWED_ROOTS && exists i | 0 <= i < |Split(path)| :: Split(path)[i] in DENIED_SEGMENTS
  }

  function Walk(parts: seq<string>, current: Json): Result<Json, Reason> {
    if parts == [] then Ok(current)
    else if current.Obj? && parts[0] in current.fields then Walk(parts[1..], current.fields[parts[0]])
    else Err(MissingField)
  }

  function Resolve(path: string, context: Json): Result<Json, Reason> {
    if path == "" || Split(path)[0] !in ALLOWED_ROOTS then Err(MissingField)
    else if DeniedPath(path) then Err(AccessDenied)
    else Walk(Split(path), context)
  }

  /** `_resolve` with its loop over the path's segments. */
  method ResolvePath(path: string, context: Json) returns (r: Result<Json, Reason>)
    ensures r == Resolve(path, context)
    ensures r == Err(AccessDenied) <==> DeniedPath(path)
  {
    var parts := Split(path);
    WalkNeverDenies(parts, context);
    EmptyPathHasNoRoot();
    if path == "" || parts[0] !in ALLOWED_ROOTS { return Err(MissingField); }
    if exists i | 0 <= i < |parts| :: parts[i] in DENIED_SEGMENTS { return Err(AccessDenied); }
    var current := context;
    var i := 0;
    while i < |parts|
      invariant 0 <= i <= |parts|
      invariant Walk(parts, context) == Walk(parts[i..], current)
    {
      assert parts[i..][1..] == parts[i + 1..];
      if !(current.Obj? && parts[i] in current.fields) { return Err(MissingField); }
      current := current.fields[parts[i]];
      i := i + 1;
    }
    return Ok(current);
  }

  lemma EmptyPathHasNoRoot()
    ensures Split("")[0] !in ALLOWED_ROOTS
  {
  }

  lemma {:induction false} WalkNeverDenies(parts: seq<string>, current: Json)
    ensures Walk(parts, current).Err? ==> Walk(parts, current).error == MissingField
  {
    if parts != [] && current.Obj? && parts[0] in current.fields {
      WalkNeverDenies(parts[1..], current.fields[parts[0]]);
    }
  }

  // ---------- evaluation ----------

  datatype Evaluated = Evaluated(value: Json, trace: Trace)

  function AllTrue(values: seq<Json>): bool {
    forall i | 0 <= i < |values| :: values[i] == Bool(true)
  }

  function AnyTrue(values: seq<Json>): bool {
    exists i | 0 <= i < |values| :: values[i] == Bool(true)
  }

  predicate AllBool(values: seq<Json>) { forall i | 0 <= i < |values| :: values[i].Bool? }

  function Combine(op: string, values: seq<Json>): bool {
    if op == "and" then AllTrue(values) else AnyTrue(values)
  }

  function Values(es: seq<Evaluated>): (r: seq<Json>)
    ensures |r| == |es| && forall i :: 0 <= i < |es| ==> r[i] == es[i].value
  {
    seq(|es|, i requires 0 <= i < |es| => es[i].value)
  }

  function Traces(es: seq<Evaluated>): (r: seq<Trace>)
    ensures |r| == |es| && forall i :: 0 <= i < |es| ==> r[i] == es[i].trace
  {
    seq(|es|, i requires 0 <= i < |es| => es[i].trace)
  }

  function EvalExists(path: string, context: Json): Result<Evaluated, Reason> {
    match Resolve(path, context)
    case Ok(_) => Ok(Evaluated(Bool(true), Exists(path, true)))
    case Err(reason) =>
      if reason != MissingField then Err(reason) else Ok(Evaluated(Bool(false), Exists(path, false)))
  }

  function EvalVar(path: string, context: Json): Result<Evaluated, Reason> {
    match Resolve(path, context)
    case Ok(value) => Ok(Evaluated(value, Var(path, value)))
    case Err(reason) => Err(reason)
  }

  function JoinChildren(op: string, children: Result<seq<Evaluated>, Reason>): Result<Evaluated, Reason> {
    match children
    case Err(reason) => Err(reason)
    case Ok(es) =>
      if !AllBool(Values(es)) then Err(TypeMismatch)
      else
        var result := Combine(op, Values(es));
        Ok(Evaluated(Bool(result), Junction(op, Traces(es), result)))
  }

  function Negate(child: Result<Evaluated, Reason>): Result<Evaluated, Reason> {
    match child
    case Err(reason) => Err(reason)
    case Ok(e) =>
      if !e.value.Bool? then Err(TypeMismatch) else Ok(Evaluated(Bool(!e.value.b), Not(e.trace, !e.value.b)))
  }

  function CompareChildren(op: string, left: Result<Evaluated, Reason>, right: Result<Evaluated, Reason>)
    : Result<Evaluated, Reason>
  {
    if left.Err? then left
    else if right.Err? then right
    else
      match Compare(op, left.value.value, right.value.value)
      case Err(reason) => Err(reason)
      case Ok(result) => Ok(Evaluated(Bool(result), Comparison(op, left.value.trace, right.value.trace, result)))
  }

  /** What kind of node a mapping is; the order of the tests is the evaluator's. */
  datatype Form = VarForm(path: string) | ExistsForm(path: string) | JunctionForm(op: string) | NotForm
                | ComparisonForm(op: string) | UnknownForm

  function FormOf(fields: map<string, Json>): Form {
    var op := Text(Get(fields, "op"));
    if "var" in fields && Falsy(Get(fields, "op")) then VarForm(Text(fields["var"]))
    else if op == "exists" then ExistsForm(Text(Get(fields, "var")))
    else if op == "and" || op == "or" then JunctionForm(op)
    else if op == "not" then NotForm
    else if op in COMPARISONS then ComparisonForm(op)
    else UnknownForm
  }

  function Eval(node: Json, context: Json): Result<Evaluated, Reason>
    decreases node, 1
  {
    if !node.Obj? then Ok(Evaluated(node, Literal(node)))
    else
      match FormOf(node.fields)
      case VarForm(path) => EvalVar(path, context)
      case ExistsForm(path) => EvalExists(path, context)
      case JunctionForm(op) =>
        if "args" !in node.fields || !node.fields["args"].List? || node.fields["args"].items == [] then
          Err(InvalidCondition)
        else JoinChildren(op, EvalAll(node.fields["args"].items, context))
      case NotForm => Negate(EvalField(node, "arg", context))
      case ComparisonForm(op) =>
        CompareChildren(op, EvalField(node, "left", context), EvalField(node, "right", context))
      case UnknownForm => Err(InvalidOperator)
  }

  /** A missing operand evaluates as the literal None. */
  function EvalField(node: Json, key: string, context: Json): Result<Evaluated, Reason>
    requires node.Obj?
    decreases node, 0
  {
    if key in node.fields then Eval(node.fields[key], context) else Ok(Evaluated(Null, Literal(Null)))
  }

  /** Every child is evaluated, in order; the leftmost error is raised. */
  function EvalAll(nodes: seq<Json>, context: Json): Result<seq<Evaluated>, Reason>
    decreases nodes
  {
    if nodes == [] then Ok([])
    else
      match Eval(nodes[0], context)
      case Err(reason) => Err(reason)
      case Ok(e) =>
        match EvalAll(nodes[1..], context)
        case Err(reason) => Err(reason)
        case Ok(es) => Ok([e] + es)
  }

  function EvaluateCondition(condition: map<string, Json>, context: Json): Result<Evaluated, Reason> {
    if condition == map[] then Ok(Evaluated(Bool(true), Always))
    else
      match Eval(Obj(condition), context)
      case Err(reason) => Err(reason)
      case Ok(e) => if e.value.Bool? then Ok(e) else Err(TypeMismatch)
  }
}
