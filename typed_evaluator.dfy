/** VariableStoreTreeEvaluator as the source writes it: a recursive walk
    over the typed store. Each method is proved to leave the store and
    return the result `TypedEvalSpec` describes. */
module TypedEvaluator {
  import opened Wrappers
  import opened Nodes
  import opened Values
  import opened Utils
  import opened Stores
  import Spec = TypedEvalSpec

  class TypedEvaluator {
    const g: VariableStore
    /** BinaryOps.OpsMapper. */
    const ops: OpMap

    constructor (g: VariableStore, ops: OpMap)
      ensures this.g == g && this.ops == ops
    {
      this.g := g;
      this.ops := ops;
    }

    /** eval(Tree). */
    method Eval(tree: Tree) returns (r: Result<Obj, EvalError>)
      modifies g
      ensures Run(r, g.vars) == Spec.EvaluateTree(ops, tree, old(g.vars))
    {
      if tree.root.None? {
        return Err(UnrecognizableNode);
      }
      r := EvalSub(tree.root.value);
    }

    /** eval_sub. */
    method EvalSub(n: Node) returns (r: Result<Obj, EvalError>)
      modifies g
      ensures Run(r, g.vars) == Spec.Evaluate(ops, n, old(g.vars))
      decreases n
    {
      match n
      case Val(num) =>
        r := Ok(NumberObj(num));
      case Binary(op, left, right) =>
        var a := EvalSub(left);
        if a.Err? {
          return a;
        }
        var b := EvalSub(right);
        if b.Err? {
          return b;
        }
        r := BinaryOpCall(op, a.value, b.value);
      case Assign(target, expr) =>
        var e := EvalSub(expr);
        if e.Err? {
          return e;
        }
        r := HandleAssignment(target, e.value);
      case Declare(keyword, name, typeName) =>
        var t := ToType(typeName);
        if t.None? {
          return Err(UnknownTypeName);
        }
        var m := IsMutable(keyword);
        if m.None? {
          return Err(InvalidDeclaration);
        }
        var v := g.DeclareVariable(name, t.value, m.value);
        r := Ok(VariableWithName(name, v));
      case Ident(name) =>
        r := GetVariable(name);
      case StrLit(text) =>
        r := Ok(Str(text));
    }

    /** handle_assignment_node, from the evaluated expression on. */
    method HandleAssignment(target: Node, expression: Obj) returns (r: Result<Obj, EvalError>)
      modifies g
      ensures Run(r, g.vars) == Spec.AssignTo(target, expression, old(g.vars))
    {
      var expressionType := ObjType(expression);
      if expressionType.None? {
        return Err(UnsupportedValueType);
      }
      var value := GetValue(expression);
      if value.Err? {
        return value;
      }
      match target
      case Ident(name) =>
        var variable := GetVariable(name);
        if variable.Err? {
          return variable;
        }
        var checked := CanAssign(variable.value.variable.vtype, expressionType.value);
        if checked.Fail? {
          return Err(checked.error);
        }
        g.Put(name, variable.value.variable, value.value);
        r := value;
      case Declare(keyword, name, typeName) =>
        var declarationType := if typeName.None? then expressionType else ToType(typeName);
        if declarationType.None? {
          return Err(UnknownTypeName);
        }
        var checked := CanAssign(declarationType.value, expressionType.value);
        if checked.Fail? {
          return Err(checked.error);
        }
        var m := IsMutable(keyword);
        if m.None? {
          return Err(InvalidDeclaration);
        }
        ghost var before := g.vars;
        var variable := g.DeclareVariable(name, declarationType.value, m.value);
        g.Put(name, variable, value.value);
        assert g.vars == before[name := Variable(declarationType.value, m.value, value.value)];
        r := value;
      case _ =>
        r := value;
    }

    /** binary_op_call. */
    method BinaryOpCall(op: string, left: Obj, right: Obj) returns (r: Result<Obj, EvalError>)
      ensures r == Spec.BinaryOpCall(ops, op, left, right, g.vars)
    {
      if right.Null? || left.Null? {
        return Err(NullOperand);
      }
      if op !in ops {
        return Err(OperatorNotSupported);
      }
      var l := GetValue(left);
      if l.Err? {
        return l;
      }
      var rv := GetValue(right);
      if rv.Err? {
        return rv;
      }
      var applied := ops[op](l.value, rv.value);
      if applied.None? {
        return Err(OperatorFailed);
      }
      r := Ok(applied.value);
    }

    /** can_assign: the types must be equal. */
    method CanAssign(variableType: VType, expressionType: VType) returns (res: Outcome<EvalError>)
      ensures res == Pass <==> variableType == expressionType
      ensures res.Fail? ==> res.error == TypeMismatch
    {
      if variableType != expressionType {
        return Fail(TypeMismatch);
      }
      res := Pass;
    }

    /** get_variable. */
    method GetVariable(name: string) returns (r: Result<Obj, EvalError>)
      ensures r == Spec.GetVariable(name, g.vars)
    {
      var v := g.Local(name);
      if v.None? {
        return Err(UnknownVariable);
      }
      r := Ok(VariableWithName(name, v.value));
    }

    /** get_value. */
    method GetValue(o: Obj) returns (r: Result<Obj, EvalError>)
      ensures r == Spec.GetValue(o, g.vars)
    {
      if o.Named? {
        var v := g.Local(o.name);
        if v.None? {
          return Err(UnknownVariable);
        }
        return Ok(v.value.value);
      }
      r := Ok(o);
    }
  }
}
