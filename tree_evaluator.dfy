/** VmyTreeEvaluator as the source writes it: a recursive walk that reads
    and writes the shared store as it goes. Each method is proved to leave
    the store and return the result `TreeEvalSpec` describes. */
module TreeEvaluator {
  import opened Wrappers
  import opened Nodes
  import opened Values
  import opened Stores
  import Spec = TreeEvalSpec

  class TreeEvaluator {
    const g: ValueStore
    /** BinaryOps.OpsMapper. */
    const ops: OpMap

    constructor (g: ValueStore, ops: OpMap)
      ensures this.g == g && this.ops == ops
    {
      this.g := g;
      this.ops := ops;
    }

    /** eval(Tree). */
    method Eval(tree: Tree) returns (r: Result<Obj, EvalError>)
      modifies g
      ensures Run(r, g.values) == Spec.EvaluateTree(ops, tree, old(g.values))
    {
      if tree.root.None? {
        return Err(UnrecognizableNode);
      }
      r := EvalSub(tree.root.value);
    }

    /** evalsub. */
    method EvalSub(n: Node) returns (r: Result<Obj, EvalError>)
      modifies g
      ensures Run(r, g.values) == Spec.Evaluate(ops, n, old(g.values))
      decreases n
    {
      match n
      case Val(num) =>
        r := Ok(NumberObj(num));
      case Binary(op, left, right) =>
        var a := EvalSub(left);
        if a.Err? {
          return a;
        }
        var b := EvalSub(right);
        if b.Err? {
          return b;
        }
        if b.value.Null? || a.value.Null? {
          return Err(NullOperand);
        }
        if op !in ops {
          return Err(OperatorNotSupported);
        }
        var l := GetValue(a.value);
        if l.Err? {
          return l;
        }
        var rv := GetValue(b.value);
        if rv.Err? {
          return rv;
        }
        var applied := ops[op](l.value, rv.value);
        if applied.None? {
          return Err(OperatorFailed);
        }
        r := Ok(applied.value);
      case Assign(target, expr) =>
        var t := EvalSub(target);
        if t.Err? {
          return t;
        }
        if !t.value.Str? {
          return Err(TargetNotName);
        }
        var e := EvalSub(expr);
        if e.Err? {
          return e;
        }
        var v := GetValue(e.value);
        if v.Err? {
          return v;
        }
        var value := Spec.Unwrap(v.value);
        var put := FindAndPut(t.value.s, value);
        if put.Fail? {
          return Err(put.error);
        }
        r := Ok(value);
      case Declare(_, name, _) =>
        g.Put(name, Null);
        r := Ok(Str(name));
      case Ident(name) =>
        r := Ok(Str(name));
      case StrLit(text) =>
        r := Ok(LiteralObj(text));
    }

    /** getValue. */
    method GetValue(o: Obj) returns (r: Result<Obj, EvalError>)
      ensures r == Spec.GetValue(o, g.values)
    {
      if o.Str? {
        if !g.Exists(o.s) {
          return Err(VariableNotExists);
        }
        var v := g.Get(o.s);
        return Ok(v);
      }
      r := Ok(o);
    }

    /** findAndPut: only a declared name may be assigned. */
    method FindAndPut(name: string, value: Obj) returns (res: Outcome<EvalError>)
      modifies g
      ensures name in old(g.values) ==> res == Pass && g.values == old(g.values)[name := value]
      ensures name !in old(g.values) ==> res == Fail(NotDeclared) && g.values == old(g.values)
    {
      if !g.Exists(name) {
        return Fail(NotDeclared);
      }
      g.Put(name, value);
      res := Pass;
    }
  }
}
