/** The runtime objects the evaluators pass around. The Java classes behind
    them (Runtime, VmyTypes, BinaryOps) are not part of this model; only the
    shapes AST.java and Utils.java observe are kept. */
module Values {
  import opened Wrappers
  import opened Nodes

  /** VmyTypes.BuiltinType, as far as Utils.get_obj_type names it. */
  datatype VType = StringType | CharType | IntType | BooleanType | DoubleType

  /** A Java object as the evaluators see it. `Str` is any `String`: a
      variable name and a string value are the same kind of object, which
      the untyped evaluator relies on. `LiteralObj` is a string-literal node
      returned unevaluated; `Named` is a `Runtime.VariableWithName`. */
  datatype Obj =
    | Null
    | IntObj(i: int)
    | DoubleObj(text: string)
    | Str(s: string)
    | CharObj(c: char)
    | BoolObj(b: bool)
    | LiteralObj(text: string)
    | Named(name: string, variable: Variable)

  /** A typed store's variable record: type, mutability and the current
      value (`Null` until assigned). */
  datatype Variable = Variable(vtype: VType, mutable: bool, value: Obj)

  /** A registry entry of BinaryOps.OpsMapper; `None` stands for the
      operator throwing on these operands. */
  type BinaryOp = (Obj, Obj) -> Option<Obj>

  type OpMap = map<string, BinaryOp>

  /** Failures of either evaluator, by kind. */
  datatype EvalError =
    | UnrecognizableNode      // "unrecognizable AST node"
    | NullOperand             // "<op> can't handle null object"
    | OperatorNotSupported    // "op(<op>) not support!"
    | OperatorFailed          // the registered operator threw
    | VariableNotExists       // getValue: "variable (<name>) not exists"
    | NotDeclared             // findAndPut: "<name> haven't declared!"
    | TargetNotName           // the assignment target did not evaluate to a name
    | UnknownVariable         // the typed store has no variable of that name
    | TypeMismatch            // can_assign: "type .. can not be assigned to type .."
    | InvalidDeclaration      // is_mutable: "<kw> is not valid declaration identifier!"
    | UnsupportedValueType    // get_obj_type: "current version not support this type"
    | UnknownTypeName         // to_type: no builtin type of that name (or none given)

  /** What evaluating a node produced, and the store it left behind. A
      failure keeps the changes made before it, as an exception thrown
      half-way through a Java evaluation does. */
  datatype Run<S> = Run(result: Result<Obj, EvalError>, store: S)

  /** ValNode.value: the boxed Integer or Double. */
  function NumberObj(n: Number): (o: Obj)
    ensures o.IntObj? <==> n.IntNum?
    ensures n.IntNum? ==> o == IntObj(n.i)
    ensures n.DoubleNum? ==> o == DoubleObj(n.text)
  {
    match n
    case IntNum(i) => IntObj(i)
    case DoubleNum(text) => DoubleObj(text)
  }
}
