/** VmyTreeEvaluator (AST.java) as functions over a store that maps names
    to values. A name and a string value are both `Str`: identifiers and
    declarations evaluate to their name, and `getValue` looks a `Str` up. */
module TreeEvalSpec {
  import opened Wrappers
  import opened Nodes
  import opened Values

  type Store = map<string, Obj>

  /** getValue: a `Str` names a variable that must exist. */
  function GetValue(o: Obj, st: Store): (r: Result<Obj, EvalError>)
    ensures r.Err? <==> o.Str? && o.s !in st
    ensures r.Err? ==> r.error == VariableNotExists
    ensures r.Ok? ==> r.value == if o.Str? then st[o.s] else o
  {
    if o.Str? then
      if o.s in st then Ok(st[o.s]) else Err(VariableNotExists)
    else Ok(o)
  }

  /** A string literal assigned is stored as its text. */
  function Unwrap(v: Obj): (r: Obj)
    ensures !r.LiteralObj?
    ensures v.LiteralObj? ==> r == Str(v.text)
    ensures !v.LiteralObj? ==> r == v
  {
    if v.LiteralObj? then Str(v.text) else v
  }

  /** The operator step of a CommonNode, after both operands are evaluated:
      the null test looks at the operands as evaluated, before names are
      resolved; then the operator must be registered; then both operands
      are resolved, left first. */
  function Apply(ops: OpMap, op: string, left: Obj, right: Obj, st: Store): Result<Obj, EvalError> {
    if right.Null? || left.Null? then Err(NullOperand)
    else if op !in ops then Err(OperatorNotSupported)
    else
      var l :- GetValue(left, st);
      var r :- GetValue(right, st);
      match ops[op](l, r)
      case None => Err(OperatorFailed)
      case Some(v) => Ok(v)
  }

  /** evalsub. An evaluation only ever adds names, and only names it
      declares. */
  function Evaluate(ops: OpMap, n: Node, st: Store): (r: Run<Store>)
    ensures st.Keys <= r.store.Keys <= st.Keys + Declared(n)
    decreases n
  {
    match n
    case Val(num) => Run(Ok(NumberObj(num)), st)
    case Binary(op, l, rt) =>
      var a := Evaluate(ops, l, st);
      if a.result.Err? then a
      else
        var b := Evaluate(ops, rt, a.store);
        if b.result.Err? then b
        else Run(Apply(ops, op, a.result.value, b.result.value, b.store), b.store)
    case Assign(target, expr) =>
      var t := Evaluate(ops, target, st);
      if t.result.Err? then t
      else if !t.result.value.Str? then Run(Err(TargetNotName), t.store)
      else
        var name := t.result.value.s;
        var e := Evaluate(ops, expr, t.store);
        if e.result.Err? then e
        else
          (match GetValue(e.result.value, e.store)
           case Err(err) => Run(Err(err), e.store)
           case Ok(v) =>
             if name !in e.store then Run(Err(NotDeclared), e.store)
             else Run(Ok(Unwrap(v)), e.store[name := Unwrap(v)]))
    case Declare(_, name, _) => Run(Ok(Str(name)), st[name := Null])
    case Ident(name) => Run(Ok(Str(name)), st)
    case StrLit(text) => Run(Ok(LiteralObj(text)), st)
  }

  /** eval: a tree without a root is an unrecognizable node. */
  function EvaluateTree(ops: OpMap, tree: Tree, st: Store): (r: Run<Store>)
    ensures tree.root.None? ==> r == Run(Err(UnrecognizableNode), st)
    ensures tree.root.Some? ==> r == Evaluate(ops, tree.root.value, st)
  {
    match tree.root
    case None => Run(Err(UnrecognizableNode), st)
    case Some(n) => Evaluate(ops, n, st)
  }

  /** The name a well-formed assignment target evaluates to. */
  function TargetName(target: Node): string
    requires IsTarget(target)
  {
    target.name
  }

  // ---------------------------------------------------------------------
  // properties

  /** Evaluating a parsed tree leaves every name it neither declares nor
      assigns to as it was, even when the evaluation fails. */
  lemma {:induction false} OnlyWrittenNamesChange(ops: OpMap, n: Node, st: Store)
    requires WellFormed(n)
    ensures forall k | k in st && k !in Written(n) :: Evaluate(ops, n, st).store[k] == st[k]
    decreases n
  {
    match n
    case Binary(op, l, rt) =>
      OnlyWrittenNamesChange(ops, l, st);
      var a := Evaluate(ops, l, st);
      if a.result.Ok? {
        OnlyWrittenNamesChange(ops, rt, a.store);
      }
    case Assign(target, expr) =>
      OnlyWrittenNamesChange(ops, expr, Evaluate(ops, target, st).store);
      AssignmentKeepsUnwritten(ops, target, expr, st);
    case _ =>
  }

  /** The assignment step of OnlyWrittenNamesChange: if the value side keeps
      the names it does not write, so does the whole assignment. */
  lemma AssignmentKeepsUnwritten(ops: OpMap, target: Node, expr: Node, st: Store)
    requires IsTarget(target)
    requires var ts := Evaluate(ops, target, st).store;
      forall k | k in ts && k !in Written(expr) :: Evaluate(ops, expr, ts).store[k] == ts[k]
    ensures forall k | k in st && k !in Written(Assign(target, expr)) ::
      Evaluate(ops, Assign(target, expr), st).store[k] == st[k]
  {
    var ts := Evaluate(ops, target, st).store;
    assert forall k | k != TargetName(target) && k in st :: k in ts && ts[k] == st[k];
    AssignmentWritesOnlyTarget(ops, target, expr, st);
  }

  /** An assignment stores to no name but its target's beyond what its
      value side stores. */
  lemma AssignmentWritesOnlyTarget(ops: OpMap, target: Node, expr: Node, st: Store)
    requires IsTarget(target)
    ensures var ts := Evaluate(ops, target, st).store;
      var e := Evaluate(ops, expr, ts).store;
      forall k | k in e && k != TargetName(target) :: Evaluate(ops, Assign(target, expr), st).store[k] == e[k]
  {
  }

  /** findAndPut: an assignment succeeds only when its name was declared
      before or inside the assignment, and then that name holds the
      result: the value side's value with names resolved and a string
      literal turned into its text. */
  lemma AssignmentStoresResult(ops: OpMap, target: Node, expr: Node, st: Store)
    requires IsTarget(target)
    ensures var r := Evaluate(ops, Assign(target, expr), st);
      var e := Evaluate(ops, expr, Evaluate(ops, target, st).store);
      r.result.Ok? ==>
        && (TargetName(target) in st || TargetName(target) in Declared(target) + Declared(expr))
        && TargetName(target) in r.store
        && r.store[TargetName(target)] == r.result.value
        && !r.result.value.LiteralObj?
        && e.result.Ok? && GetValue(e.result.value, e.store).Ok?
        && r.result.value == Unwrap(GetValue(e.result.value, e.store).value)
  {
    var t := Evaluate(ops, target, st);
    var e := Evaluate(ops, expr, t.store);
    assert t.result.Ok? ==> t.result.value == Str(TargetName(target));
  }

  /** Assigning to a bare name nobody declared fails and changes nothing,
      when the value side stores nothing either; once the value is
      resolved, the failure is the name not being declared. */
  lemma UndeclaredNameRejected(ops: OpMap, name: string, expr: Node, st: Store)
    requires name !in st && WellFormed(expr) && Written(expr) == {}
    ensures var r := Evaluate(ops, Assign(Ident(name), expr), st);
      var e := Evaluate(ops, expr, st);
      && r.result.Err? && r.store == st
      && (e.result.Ok? && GetValue(e.result.value, e.store).Ok? ==> r.result == Err(NotDeclared))
  {
    var e := Evaluate(ops, expr, st);
    OnlyWrittenNamesChange(ops, expr, st);
    DeclaredAreWritten(expr);
    assert e.store.Keys == st.Keys;
    assert e.store == st;
  }

  /** A declaration that is then assigned its own name sees the fresh
      declaration: the target is evaluated first, so `let x = x` stores
      null and succeeds whatever the store held. */
  lemma SelfReferenceSeesDeclaration(ops: OpMap, keyword: string, name: string, typeName: Option<string>, st: Store)
    ensures Evaluate(ops, Assign(Declare(keyword, name, typeName), Ident(name)), st)
      == Run(Ok(Null), st[name := Null])
  {
    assert st[name := Null][name := Null] == st[name := Null];
  }

  /** The null test happens before names are resolved, so a declared but
      unassigned variable reaches the operator as null instead of failing
      with NullOperand. */
  lemma UnassignedOperandReachesOperator(ops: OpMap, op: string, name: string, num: Number, st: Store)
    requires name in st && st[name] == Null && op in ops
    ensures Evaluate(ops, Binary(op, Ident(name), Val(num)), st).result
      == match ops[op](Null, NumberObj(num)) case None => Err(OperatorFailed) case Some(v) => Ok(v)
  {
  }
}
