/** VariableStoreTreeEvaluator (AST.java) as functions over a store that
    maps names to typed variables. Names evaluate to the variable they
    denote (`Named`), and an assignment checks the value's type against the
    variable's. */
module TypedEvalSpec {
  import opened Wrappers
  import opened Nodes
  import opened Values
  import opened Utils

  type Store = map<string, Variable>

  /** get_value: a named variable stands for its current value. */
  function GetValue(o: Obj, st: Store): (r: Result<Obj, EvalError>)
    ensures r.Err? <==> o.Named? && o.name !in st
    ensures r.Err? ==> r.error == UnknownVariable
    ensures r.Ok? ==> r.value == if o.Named? then st[o.name].value else o
  {
    if o.Named? then
      if o.name in st then Ok(st[o.name].value) else Err(UnknownVariable)
    else Ok(o)
  }

  /** get_variable: the variable of that name, wrapped with its name. */
  function GetVariable(name: string, st: Store): (r: Result<Obj, EvalError>)
    ensures r.Ok? <==> name in st
    ensures r.Ok? ==> r.value == Named(name, st[name])
  {
    if name in st then Ok(VariableWithName(name, st[name])) else Err(UnknownVariable)
  }

  /** binary_op_call: null test on the operands as evaluated, then the
      operator lookup, then both operands resolved, left first. */
  function BinaryOpCall(ops: OpMap, op: string, left: Obj, right: Obj, st: Store): Result<Obj, EvalError> {
    if right.Null? || left.Null? then Err(NullOperand)
    else if op !in ops then Err(OperatorNotSupported)
    else
      var l :- GetValue(left, st);
      var r :- GetValue(right, st);
      match ops[op](l, r)
      case None => Err(OperatorFailed)
      case Some(v) => Ok(v)
  }

  /** The part of handle_assignment_node after the expression is
      evaluated: its type, its value, then the target. A name must hold a
      variable of exactly that type; a declaration takes the type it names,
      or the value's type when it names none. Mutability is not checked. */
  function AssignTo(target: Node, expression: Obj, st: Store): (r: Run<Store>)
    ensures st.Keys <= r.store.Keys <= st.Keys + Declared(target)
  {
    match ObjType(expression)
    case None => Run(Err(UnsupportedValueType), st)
    case Some(et) =>
      match GetValue(expression, st)
      case Err(err) => Run(Err(err), st)
      case Ok(v) =>
        match target
        case Ident(name) =>
          if name !in st then Run(Err(UnknownVariable), st)
          else if st[name].vtype != et then Run(Err(TypeMismatch), st)
          else Run(Ok(v), st[name := st[name].(value := v)])
        case Declare(keyword, name, typeName) =>
          var dt := if typeName.None? then Some(et) else ToType(typeName);
          if dt.None? then Run(Err(UnknownTypeName), st)
          else if dt.value != et then Run(Err(TypeMismatch), st)
          else
            (match IsMutable(keyword)
             case None => Run(Err(InvalidDeclaration), st)
             case Some(m) => Run(Ok(v), st[name := Variable(dt.value, m, v)]))
        case _ => Run(Ok(v), st)
  }

  /** eval_sub. An evaluation only ever adds names, and only names it
      declares. */
  function Evaluate(ops: OpMap, n: Node, st: Store): (r: Run<Store>)
    ensures st.Keys <= r.store.Keys <= st.Keys + Declared(n)
    decreases n
  {
    match n
    case Val(num) => Run(Ok(NumberObj(num)), st)
    case Binary(op, l, rt) =>
      var a := Evaluate(ops, l, st);
      if a.result.Err? then a
      else
        var b := Evaluate(ops, rt, a.store);
        if b.result.Err? then b
        else Run(BinaryOpCall(ops, op, a.result.value, b.result.value, b.store), b.store)
    case Assign(target, expr) =>
      var e := Evaluate(ops, expr, st);
      if e.result.Err? then e
      else AssignTo(target, e.result.value, e.store)
    case Declare(keyword, name, typeName) =>
      (match ToType(typeName)
       case None => Run(Err(UnknownTypeName), st)
       case Some(t) =>
         match IsMutable(keyword)
         case None => Run(Err(InvalidDeclaration), st)
         case Some(m) =>
           var v := Variable(t, m, Null);
           Run(Ok(VariableWithName(name, v)), st[name := v]))
    case Ident(name) => Run(GetVariable(name, st), st)
    case StrLit(text) => Run(Ok(Str(text)), st)
  }

  /** eval: a tree without a root is an unrecognizable node. */
  function EvaluateTree(ops: OpMap, tree: Tree, st: Store): (r: Run<Store>)
    ensures tree.root.None? ==> r == Run(Err(UnrecognizableNode), st)
    ensures tree.root.Some? ==> r == Evaluate(ops, tree.root.value, st)
  {
    match tree.root
    case None => Run(Err(UnrecognizableNode), st)
    case Some(n) => Evaluate(ops, n, st)
  }

  // ---------------------------------------------------------------------
  // properties

  /** Names outside the node's declarations and assignments keep their
      variable; names it only assigns to keep their type and mutability,
      since can_assign demands the exact type and nothing else rewrites a
      record. */
  lemma {:induction false} TypesChangeOnlyByDeclaration(ops: OpMap, n: Node, st: Store)
    ensures var r := Evaluate(ops, n, st);
      forall k | k in st && k !in Declared(n) ::
        && r.store[k].vtype == st[k].vtype
        && r.store[k].mutable == st[k].mutable
        && (k !in Written(n) ==> r.store[k] == st[k])
    decreases n
  {
    match n
    case Binary(op, l, rt) =>
      TypesChangeOnlyByDeclaration(ops, l, st);
      var a := Evaluate(ops, l, st);
      if a.result.Ok? {
        TypesChangeOnlyByDeclaration(ops, rt, a.store);
      }
    case Assign(target, expr) =>
      TypesChangeOnlyByDeclaration(ops, expr, st);
      var e := Evaluate(ops, expr, st);
      if e.result.Ok? {
        AssignToKeepsTypes(target, e.result.value, e.store);
      }
    case _ =>
  }

  /** The assignment step of TypesChangeOnlyByDeclaration: only the
      target's own name can change, and only its value unless the target
      declares it. */
  lemma AssignToKeepsTypes(target: Node, v: Obj, st: Store)
    ensures var r := AssignTo(target, v, st);
      forall k | k in st && k !in Declared(target) ::
        && r.store[k].vtype == st[k].vtype
        && r.store[k].mutable == st[k].mutable
        && (k !in Written(target) && !(target.Ident? && k == target.name) ==> r.store[k] == st[k])
  {
  }

  /** An assignment to a name succeeds exactly when the name holds a
      variable whose type is the value's type; the variable then holds the
      value resolved from the expression and keeps its type and mutability,
      immutable or not. */
  lemma AssignmentToNameChecksType(ops: OpMap, name: string, expr: Node, st: Store)
    ensures var e := Evaluate(ops, expr, st);
      var r := Evaluate(ops, Assign(Ident(name), expr), st);
      e.result.Ok? && ObjType(e.result.value).Some? && GetValue(e.result.value, e.store).Ok? ==>
        && (r.result.Ok? <==> name in e.store && e.store[name].vtype == ObjType(e.result.value).value)
        && (r.result.Ok? ==> r.result.value == GetValue(e.result.value, e.store).value)
        && (r.result.Ok? ==> r.store == e.store[name := e.store[name].(value := r.result.value)])
        && (r.result.Err? ==> r.store == e.store)
  {
  }

  /** A declaration with a value declares the variable with the keyword's
      mutability and the value resolved from the expression, and with the
      named type, or the value's own type when none is named. */
  lemma DeclarationTakesValue(ops: OpMap, keyword: string, name: string, typeName: Option<string>, expr: Node, st: Store)
    ensures var e := Evaluate(ops, expr, st);
      var r := Evaluate(ops, Assign(Declare(keyword, name, typeName), expr), st);
      r.result.Ok? ==>
        && e.result.Ok?
        && GetValue(e.result.value, e.store).Ok?
        && r.result.value == GetValue(e.result.value, e.store).value
        && name in r.store
        && r.store[name].value == r.result.value
        && r.store[name].mutable == (keyword == "let")
        && Some(r.store[name].vtype) == ObjType(e.result.value)
        && (typeName.Some? ==> typeName == Some(TypeName(r.store[name].vtype)))
  {
  }

  /** The check of a declaration target runs before the variable is
      declared: it passes exactly when no type is named or the named type
      is the value's, and a failure declares nothing. */
  lemma DeclarationChecksTypeFirst(keyword: string, name: string, typeName: Option<string>, v: Obj, st: Store)
    ensures var r := AssignTo(Declare(keyword, name, typeName), v, st);
      && (r.result.Err? ==> r.store == st)
      && (ObjType(v).Some? && GetValue(v, st).Ok? && IsMutable(keyword).Some? ==>
            (r.result.Ok? <==> typeName.None? || ToType(typeName) == ObjType(v)))
  {
  }

  /** A declaration on its own needs a type name: without one, to_type
      throws and nothing is declared. */
  lemma UntypedDeclarationAloneFails(ops: OpMap, keyword: string, name: string, st: Store)
    ensures Evaluate(ops, Declare(keyword, name, None), st) == Run(Err(UnknownTypeName), st)
  {
  }

  /** The expression is evaluated before the target, so `let x = x` on a
      store without `x` fails and declares nothing. */
  lemma SelfReferenceFails(ops: OpMap, keyword: string, name: string, typeName: Option<string>, st: Store)
    requires name !in st
    ensures Evaluate(ops, Assign(Declare(keyword, name, typeName), Ident(name)), st)
      == Run(Err(UnknownVariable), st)
  {
  }
}
