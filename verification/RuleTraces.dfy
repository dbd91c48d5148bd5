/** What an evaluation depends on, and what its trace proves. */
module RuleTraces {
  import opened Wrappers
  import opened RuleConditions

  // ---------- the trace is evidence ----------

  /** The value recomputed from the trace's leaves alone, ignoring every recorded result of a connective. */
  function Replay(t: Trace): Result<Json, Reason>
    decreases t, 1
  {
    match t
    case Always => Ok(Bool(true))
    case Literal(value) => Ok(value)
    case Var(_, value) => Ok(value)
    case Exists(_, result) => Ok(Bool(result))
    case Junction(op, args, _) =>
      (match ReplayAll(args)
       case Err(reason) => Err(reason)
       case Ok(values) => if AllBool(values) then Ok(Bool(if op == "and" then Bool(false) !in values else Bool(true) in values))
         else Err(TypeMismatch))
    case Not(arg, _) =>
      (match Replay(arg)
       case Ok(Bool(b)) => Ok(Bool(!b))
       case Ok(_) => Err(TypeMismatch)
       case Err(reason) => Err(reason))
    case Comparison(op, left, right, _) =>
      var l, r := Replay(left), Replay(right);
      if l.Err? then l
      else if r.Err? then r
      else
        match Compare(op, l.value, r.value)
        case Ok(b) => Ok(Bool(b))
        case Err(reason) => Err(reason)
  }

  function ReplayAll(ts: seq<Trace>): Result<seq<Json>, Reason>
    decreases ts
  {
    if ts == [] then Ok([])
    else
      match Replay(ts[0])
      case Err(reason) => Err(reason)
      case Ok(v) =>
        match ReplayAll(ts[1..])
        case Err(reason) => Err(reason)
        case Ok(vs) => Ok([v] + vs)
  }

  /** Every recorded result, at every level, is the recomputed one. */
  predicate Faithful(t: Trace) {
    match t
    case Junction(_, args, result) =>
      Replay(t) == Ok(Bool(result)) && forall i | 0 <= i < |args| :: Faithful(args[i])
    case Not(arg, result) => Replay(t) == Ok(Bool(result)) && Faithful(arg)
    case Comparison(_, left, right, result) => Replay(t) == Ok(Bool(result)) && Faithful(left) && Faithful(right)
    case _ => true
  }

  /** Every leaf records what its path resolves to in the context. */
  predicate Grounded(t: Trace, context: Json) {
    match t
    case Var(path, value) => Resolve(path, context) == Ok(value)
    case Exists(path, result) =>
      if result then Resolve(path, context).Ok? else Resolve(path, context) == Err(MissingField)
    case Junction(_, args, _) => forall i | 0 <= i < |args| :: Grounded(args[i], context)
    case Not(arg, _) => Grounded(arg, context)
    case Comparison(_, left, right, _) => Grounded(left, context) && Grounded(right, context)
    case _ => true
  }

  ghost predicate Proves(e: Evaluated, context: Json) {
    Replay(e.trace) == Ok(e.value) && Faithful(e.trace) && Grounded(e.trace, context)
  }

  ghost predicate AllProve(es: seq<Evaluated>, context: Json) {
    forall i :: 0 <= i < |es| ==> Proves(es[i], context)
  }

  lemma {:induction false} ReplayOfTraces(es: seq<Evaluated>, context: Json)
    requires AllProve(es, context)
    ensures ReplayAll(Traces(es)) == Ok(Values(es))
  {
    if es != [] {
      ReplayOfTraces(es[1..], context);
      assert Proves(es[0], context);
      assert Traces(es)[1..] == Traces(es[1..]);
      assert Values(es) == [es[0].value] + Values(es[1..]);
    }
  }

  lemma JunctionProves(op: string, es: seq<Evaluated>, context: Json)
    requires AllProve(es, context) && AllBool(Values(es))
    ensures Proves(JoinChildren(op, Ok(es)).value, context)
  {
    ReplayOfTraces(es, context);
    var t := JoinChildren(op, Ok(es)).value.trace;
    assert forall i :: 0 <= i < |es| ==> Values(es)[i] in Values(es);
    forall i | 0 <= i < |t.args| ensures Faithful(t.args[i]) && Grounded(t.args[i], context) {
      assert Proves(es[i], context);
    }
  }

  lemma NegationProves(child: Result<Evaluated, Reason>, context: Json)
    requires child.Ok? ==> Proves(child.value, context)
    ensures Negate(child).Ok? ==> Proves(Negate(child).value, context)
  {
  }

  lemma ComparisonProves(op: string, left: Result<Evaluated, Reason>, right: Result<Evaluated, Reason>, context: Json)
    requires left.Ok? ==> Proves(left.value, context)
    requires right.Ok? ==> Proves(right.value, context)
    ensures CompareChildren(op, left, right).Ok? ==> Proves(CompareChildren(op, left, right).value, context)
  {
  }

  lemma {:induction false} EvalProves(node: Json, context: Json)
    ensures Eval(node, context).Ok? ==> Proves(Eval(node, context).value, context)
    decreases node, 1
  {
    if node.Obj? {
      match FormOf(node.fields)
      case JunctionForm(op) =>
        if "args" in node.fields && node.fields["args"].List? && node.fields["args"].items != [] {
          EvalAllProves(node.fields["args"].items, context);
          var children := EvalAll(node.fields["args"].items, context);
          if children.Ok? && AllBool(Values(children.value)) { JunctionProves(op, children.value, context); }
        }
      case NotForm =>
        FieldProves(node, "arg", context);
        NegationProves(EvalField(node, "arg", context), context);
      case ComparisonForm(op) =>
        FieldProves(node, "left", context);
        FieldProves(node, "right", context);
        ComparisonProves(op, EvalField(node, "left", context), EvalField(node, "right", context), context);
      case _ =>
    }
  }

  lemma {:induction false} FieldProves(node: Json, key: string, context: Json)
    requires node.Obj?
    ensures EvalField(node, key, context).Ok? ==> Proves(EvalField(node, key, context).value, context)
    decreases node, 0
  {
    if key in node.fields { EvalProves(node.fields[key], context); }
  }

  lemma {:induction false} EvalAllProves(nodes: seq<Json>, context: Json)
    ensures EvalAll(nodes, context).Ok? ==> AllProve(EvalAll(nodes, context).value, context)
    decreases nodes
  {
    if nodes != [] {
      EvalProves(nodes[0], context);
      EvalAllProves(nodes[1..], context);
    }
  }

  /**
   A returned trace proves its result: recomputing from its leaves gives the returned value and every recorded
   intermediate result, and its leaves are what the context holds.
   */
  lemma TraceIsFaithful(condition: map<string, Json>, context: Json)
    ensures EvaluateCondition(condition, context).Ok? ==>
      var e := EvaluateCondition(condition, context).value;
      && e.value.Bool? && Replay(e.trace) == Ok(e.value)
      && Faithful(e.trace) && Grounded(e.trace, context)
  {
    EvalProves(Obj(condition), context);
  }

  // ---------- evaluation depends on the named paths only ----------

  function Paths(node: Json): set<string>
    decreases node, 1
  {
    if !node.Obj? then {}
    else
      match FormOf(node.fields)
      case VarForm(path) => {path}
      case ExistsForm(path) => {path}
      case JunctionForm(_) =>
        if "args" in node.fields && node.fields["args"].List? then PathsOfAll(node.fields["args"].items) else {}
      case NotForm => PathsOfField(node, "arg")
      case ComparisonForm(_) => PathsOfField(node, "left") + PathsOfField(node, "right")
      case UnknownForm => {}
  }

  function PathsOfField(node: Json, key: string): set<string>
    requires node.Obj?
    decreases node, 0
  {
    if key in node.fields then Paths(node.fields[key]) else {}
  }

  function PathsOfAll(nodes: seq<Json>): set<string>
    decreases nodes
  {
    if nodes == [] then {} else Paths(nodes[0]) + PathsOfAll(nodes[1..])
  }

  predicate ResolveAlike(paths: set<string>, a: Json, b: Json) {
    forall p | p in paths :: Resolve(p, a) == Resolve(p, b)
  }

  lemma {:induction false} EvalAlike(node: Json, a: Json, b: Json)
    requires ResolveAlike(Paths(node), a, b)
    ensures Eval(node, a) == Eval(node, b)
    decreases node, 1
  {
    if node.Obj? {
      match FormOf(node.fields)
      case VarForm(path) => assert path in Paths(node);
      case ExistsForm(path) => assert path in Paths(node);
      case JunctionForm(_) =>
        if "args" in node.fields && node.fields["args"].List? { EvalAllAlike(node.fields["args"].items, a, b); }
      case NotForm => FieldAlike(node, "arg", a, b);
      case ComparisonForm(_) =>
        FieldAlike(node, "left", a, b);
        FieldAlike(node, "right", a, b);
      case UnknownForm =>
    }
  }

  lemma {:induction false} FieldAlike(node: Json, key: string, a: Json, b: Json)
    requires node.Obj? && ResolveAlike(PathsOfField(node, key), a, b)
    ensures EvalField(node, key, a) == EvalField(node, key, b)
    decreases node, 0
  {
    if key in node.fields { EvalAlike(node.fields[key], a, b); }
  }

  lemma {:induction false} EvalAllAlike(nodes: seq<Json>, a: Json, b: Json)
    requires ResolveAlike(PathsOfAll(nodes), a, b)
    ensures EvalAll(nodes, a) == EvalAll(nodes, b)
    decreases nodes
  {
    if nodes != [] {
      EvalAlike(nodes[0], a, b);
      EvalAllAlike(nodes[1..], a, b);
    }
  }

  /** Contexts that resolve alike at every named path give the same value, trace and error. */
  lemma OnlyNamedPathsMatter(condition: map<string, Json>, a: Json, b: Json)
    requires ResolveAlike(Paths(Obj(condition)), a, b)
    ensures EvaluateCondition(condition, a) == EvaluateCondition(condition, b)
  {
    EvalAlike(Obj(condition), a, b);
  }

  // ---------- denied paths ----------

  lemma {:induction false} DeniedEval(node: Json, path: string, context: Json)
    requires DeniedPath(path) && path in Paths(node)
    ensures Eval(node, context).Err?
    decreases node, 1
  {
    DeniedResolve(path, context);
    match FormOf(node.fields)
    case JunctionForm(_) => DeniedAll(node.fields["args"].items, path, context);
    case NotForm => DeniedField(node, "arg", path, context);
    case ComparisonForm(_) =>
      if path in PathsOfField(node, "left") { DeniedField(node, "left", path, context); }
      if path in PathsOfField(node, "right") { DeniedField(node, "right", path, context); }
    case _ =>
  }

  lemma DeniedResolve(path: string, context: Json)
    requires DeniedPath(path)
    ensures Resolve(path, context) == Err(AccessDenied)
  {
    EmptyPathHasNoRoot();
  }

  lemma {:induction false} DeniedField(node: Json, key: string, path: string, context: Json)
    requires node.Obj? && DeniedPath(path) && path in PathsOfField(node, key)
    ensures EvalField(node, key, context).Err?
    decreases node, 0
  {
    DeniedEval(node.fields[key], path, context);
  }

  lemma {:induction false} DeniedAll(nodes: seq<Json>, path: string, context: Json)
    requires DeniedPath(path) && path in PathsOfAll(nodes)
    ensures EvalAll(nodes, context).Err?
    decreases nodes
  {
    if path in Paths(nodes[0]) {
      DeniedEval(nodes[0], path, context);
    } else {
      DeniedAll(nodes[1..], path, context);
    }
  }

  /**
   A condition that names a denied segment below an allowed root anywhere, even under `exists` or behind a
   connective that is already decided, never evaluates to a value in any context.
   */
  lemma DeniedPathNeverEvaluates(condition: map<string, Json>, path: string, context: Json)
    requires DeniedPath(path) && path in Paths(Obj(condition))
    ensures EvaluateCondition(condition, context).Err?
  {
    DeniedEval(Obj(condition), path, context);
    assert condition != map[];
  }

  // ---------- connectives are strict ----------

  lemma {:induction false} LeftmostErrorWins(nodes: seq<Json>, context: Json, i: nat)
    requires i < |nodes| && Eval(nodes[i], context).Err?
    requires forall j :: 0 <= j < i ==> Eval(nodes[j], context).Ok?
    ensures EvalAll(nodes, context) == Err(Eval(nodes[i], context).error)
    decreases i
  {
    if i > 0 {
      assert forall j :: 0 <= j < i - 1 ==> nodes[1..][j] == nodes[j + 1];
      LeftmostErrorWins(nodes[1..], context, i - 1);
    }
  }

  lemma {:induction false} EvalAllIsPointwise(nodes: seq<Json>, context: Json)
    ensures EvalAll(nodes, context).Ok? <==> forall i :: 0 <= i < |nodes| ==> Eval(nodes[i], context).Ok?
    ensures EvalAll(nodes, context).Ok? ==>
      && |EvalAll(nodes, context).value| == |nodes|
      && forall i :: 0 <= i < |nodes| ==> Eval(nodes[i], context) == Ok(EvalAll(nodes, context).value[i])
  {
    if nodes != [] {
      EvalAllIsPointwise(nodes[1..], context);
      assert forall i :: 0 < i < |nodes| ==> nodes[i] == nodes[1..][i - 1];
    }
  }

  /** `and` and `or` succeed exactly when every child evaluates to a boolean, whatever the others say. */
  lemma JunctionIsStrict(op: string, nodes: seq<Json>, context: Json)
    ensures JoinChildren(op, EvalAll(nodes, context)).Ok? <==>
      forall i :: 0 <= i < |nodes| ==> Eval(nodes[i], context).Ok? && Eval(nodes[i], context).value.value.Bool?
  {
    EvalAllIsPointwise(nodes, context);
    var children := EvalAll(nodes, context);
    if children.Ok? {
      assert forall i :: 0 <= i < |nodes| ==> Values(children.value)[i] == Eval(nodes[i], context).value.value;
    }
  }
}
