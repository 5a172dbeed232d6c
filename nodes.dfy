/** The AST node classes of AST.java as one closed datatype. */
module Nodes {
  import opened Wrappers
  import Identifiers

  /** A numeric literal's value: `Integer` or `Double`. Floating point is not
      modelled, so a double keeps the text it was written with. */
  datatype Number = IntNum(i: int) | DoubleNum(text: string)

  datatype Node =
    | Val(num: Number)                                         // ValNode
    | Binary(op: string, left: Node, right: Node)              // CommonNode
    | StrLit(text: string)                                     // StringLiteral
    | Ident(name: string)                                      // IdentifierNode
    | Declare(keyword: string, name: string, typeName: Option<string>)  // DeclareNode
    | Assign(target: Node, expr: Node)                         // AssignNode

  /** VmyAST: a tree whose root is absent for empty input. */
  datatype Tree = Tree(root: Option<Node>)

  /** mergeTwoNodes: the operator node over two operands. */
  function MergeTwoNodes(left: Node, right: Node, op: string): Node {
    Binary(op, left, right)
  }

  /** What an assignment may have on its left: a name or a declaration. */
  predicate IsTarget(n: Node) {
    n.Ident? || n.Declare?
  }

  predicate IsArithmetic(op: string) {
    op in {Identifiers.Add, Identifiers.Sub, Identifiers.Multi, Identifiers.Divide}
  }

  /** The shape every tree the parser builds has: operator nodes carry one
      of the four arithmetic operators and assignments assign to a name or
      a declaration. */
  predicate WellFormed(n: Node) {
    match n
    case Binary(op, l, r) => IsArithmetic(op) && WellFormed(l) && WellFormed(r)
    case Assign(t, e) => IsTarget(t) && WellFormed(e)
    case _ => true
  }

  /** The names a node declares anywhere inside it. */
  function Declared(n: Node): set<string> {
    match n
    case Binary(_, l, r) => Declared(l) + Declared(r)
    case Assign(t, e) => Declared(t) + Declared(e)
    case Declare(_, name, _) => {name}
    case _ => {}
  }

  /** The names a node may store to: its declarations and the names its
      assignments assign to. */
  function Written(n: Node): set<string> {
    match n
    case Binary(_, l, r) => Written(l) + Written(r)
    case Assign(t, e) => Written(t) + Written(e) + (if t.Ident? then {t.name} else {})
    case Declare(_, name, _) => {name}
    case _ => {}
  }

  lemma DeclaredAreWritten(n: Node)
    ensures Declared(n) <= Written(n)
  {
  }
}
