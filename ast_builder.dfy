/** `AST.build(Scanner)` as the source writes it: a scanner position and
    two stacks that the seven chained handlers change in place. Every
    method of `Parser` is proved to do to its stacks exactly what the
    matching function of `ParseSpec` says, so `Build` returns `Parse`. */
module AstBuilder {
  import opened Wrappers
  import opened Tokens
  import opened Nodes
  import opened ParseSpec
  import Identifiers

  /** The scanner over `toks` together with the operator and node stacks
      that the handlers share. A stack's top is the end of its sequence. */
  class Parser {
    const toks: seq<Token>
    var pos: nat
    var ops: seq<string>
    var nodes: seq<Node>

    constructor (toks: seq<Token>)
      ensures this.toks == toks && St() == Start
    {
      this.toks := toks;
      pos := 0;
      ops := [];
      nodes := [];
    }

    /** The current scanner position and stacks as a value. */
    function St(): State
      reads this
    {
      State(pos, ops, nodes)
    }

    /** `res` and the current state are what the specification result `r`
        says: the same failure, or success with exactly its state. */
    predicate Agrees(res: Outcome<ParseError>, r: Result<State, ParseError>)
      reads this
    {
      match r
      case Ok(s) => res == Pass && St() == s
      case Err(e) => res == Fail(e)
    }

    /** Scanner.next(). */
    method Next() returns (t: Token)
      requires pos < |toks|
      modifies this
      ensures t == toks[old(pos)] && St() == old(St()).(pos := old(pos) + 1)
    {
      t := toks[pos];
      pos := pos + 1;
    }

    /** BaseHandler.handle from the head of the chain. */
    method Dispatch(t: Token) returns (res: Outcome<ParseError>)
      requires pos <= |toks|
      modifies this
      ensures Agrees(res, Handle(toks, t, old(St())))
      decreases |toks| - pos, 3
    {
      match Select(t)
      case Err(e) =>
        res := Fail(e);
      case Ok(NumberRule) =>
        if t.tag == IntLiteral {
          var n := ParseInt(t.value);
          if n.None? {
            return Fail(MalformedNumber);
          }
          nodes := nodes + [Val(IntNum(n.value))];
        } else {
          nodes := nodes + [Val(DoubleNum(t.value))];
        }
        res := Pass;
      case Ok(OperatorRule) =>
        res := HandleOperator(t);
      case Ok(AssignmentRule) =>
        res := HandleAssignment(t);
      case Ok(DeclarationRule) =>
        res := HandleDeclaration(t);
      case Ok(VariableNameRule) =>
        nodes := nodes + [Ident(t.value)];
        res := Pass;
      case Ok(LiteralRule) =>
        nodes := nodes + [StrLit(t.value)];
        res := Pass;
      case Ok(DefaultRule) =>
        res := Fail(UnsupportedToken);
    }

    /** OperatorHandler.doHandle. */
    method HandleOperator(t: Token) returns (res: Outcome<ParseError>)
      requires pos <= |toks|
      modifies this
      ensures Agrees(res, ParseSpec.HandleOperator(toks, t, old(St())))
      decreases |toks| - pos, 2
    {
      if t.value == Identifiers.Add || t.value == Identifiers.Sub {
        ops := ops + [t.value];
        res := Pass;
      } else if t.value == Identifiers.Multi || t.value == Identifiers.Divide {
        res := HandleTight(t);
      } else if t.value == Identifiers.OpenParenthesis {
        res := HandleParenthesis(t);
      } else {
        res := Fail(UnsupportedOperator);
      }
    }

    /** "*" and "/": pop the left operand, dispatch the next token, and
        combine the node it pushes with the left operand. */
    method HandleTight(t: Token) returns (res: Outcome<ParseError>)
      requires pos <= |toks| && (t.value == Identifiers.Multi || t.value == Identifiers.Divide)
      modifies this
      ensures Agrees(res, ParseSpec.HandleOperator(toks, t, old(St())))
      decreases |toks| - pos, 1
    {
      if pos == |toks| {
        return Fail(MissingRightOperand);
      }
      if nodes == [] {
        return Fail(MissingLeftOperand);
      }
      var left := Top(nodes);
      nodes := Pop(nodes);
      var next := Next();
      res := Dispatch(next);
      if res.Fail? {
        return;
      }
      if nodes == [] {
        return Fail(EmptyStack);
      }
      var right := Top(nodes);
      nodes := Pop(nodes) + [Binary(t.value, left, right)];
    }

    /** "(": push the marker, dispatch tokens up to ")" or the end of
        input, then close the group. */
    method HandleParenthesis(t: Token) returns (res: Outcome<ParseError>)
      requires pos <= |toks| && t.value == Identifiers.OpenParenthesis
      modifies this
      ensures Agrees(res, ParseSpec.HandleOperator(toks, t, old(St())))
      decreases |toks| - pos, 1
    {
      ops := ops + [t.value];
      res := ScanGroup();
      if res.Fail? {
        return;
      }
      res := CloseParenthesis();
    }

    /** The loop of the parenthesis rule. */
    method ScanGroup() returns (res: Outcome<ParseError>)
      requires pos <= |toks|
      modifies this
      ensures Agrees(res, ParenScan(toks, old(St())))
      decreases |toks| - pos, 0
    {
      var closed := false;
      while pos < |toks| && !closed
        invariant old(pos) <= pos <= |toks|
        invariant closed ==> ParenScan(toks, old(St())) == Ok(St())
        invariant !closed ==> ParenScan(toks, old(St())) == ParenScan(toks, St())
        decreases |toks| - pos
      {
        var next := Next();
        if next.value == Identifiers.ClosingParenthesis {
          closed := true;
        } else {
          res := Dispatch(next);
          if res.Fail? {
            return;
          }
        }
      }
      res := Pass;
    }

    /** Pop an operator and a left operand onto the accumulator until a
        stack runs out or the operator on top is `stop`. */
    method FoldStacks(acc: Node, stop: Option<string>) returns (merged: Node)
      modifies this
      ensures (ops, nodes, merged) == Fold(old(ops), old(nodes), acc, stop) && pos == old(pos)
    {
      merged := acc;
      while ops != [] && nodes != [] && Some(Top(ops)) != stop
        invariant Fold(ops, nodes, merged, stop) == Fold(old(ops), old(nodes), acc, stop)
        invariant pos == old(pos)
        decreases |nodes|
      {
        var op := Top(ops);
        ops := Pop(ops);
        var left := Top(nodes);
        nodes := Pop(nodes);
        merged := MergeTwoNodes(left, merged, op);
      }
    }

    /** The closing half of the parenthesis rule. */
    method CloseParenthesis() returns (res: Outcome<ParseError>)
      modifies this
      ensures Agrees(res, ParseSpec.CloseParenthesis(old(St())))
    {
      if nodes == [] {
        return Fail(EmptyParenthesis);
      }
      var merged := Top(nodes);
      nodes := Pop(nodes);
      merged := FoldStacks(merged, Some(Identifiers.OpenParenthesis));
      if ops == [] || Top(ops) != Identifiers.OpenParenthesis {
        return Fail(UnbalancedParenthesis);
      }
      ops := Pop(ops);
      nodes := nodes + [merged];
      res := Pass;
    }

    /** AssignmentHandler.doHandle. */
    method HandleAssignment(t: Token) returns (res: Outcome<ParseError>)
      requires pos <= |toks|
      modifies this
      ensures Agrees(res, ParseSpec.HandleAssignment(toks, t, old(St())))
      decreases |toks| - pos, 2
    {
      if nodes == [] || !IsTarget(Top(nodes)) {
        return Fail(AssignmentNoTarget);
      }
      var target := Top(nodes);
      nodes := Pop(nodes);
      ops := ops + [t.value];
      res := ScanLine();
      if res.Fail? {
        return;
      }
      res := CloseAssignment(target);
    }

    /** The loop of the assignment rule. */
    method ScanLine() returns (res: Outcome<ParseError>)
      requires pos <= |toks|
      modifies this
      ensures Agrees(res, AssignScan(toks, old(St())))
      decreases |toks| - pos, 1
    {
      var closed := false;
      while pos < |toks| && !closed
        invariant old(pos) <= pos <= |toks|
        invariant closed ==> AssignScan(toks, old(St())) == Ok(St())
        invariant !closed ==> AssignScan(toks, old(St())) == AssignScan(toks, St())
        decreases |toks| - pos
      {
        var next := Next();
        if next.tag == NewLine {
          closed := true;
        } else {
          res := Dispatch(next);
          if res.Fail? {
            return;
          }
        }
      }
      res := Pass;
    }

    /** The closing half of the assignment rule: fold down to "=", push
        the assignment, then pop the "=". */
    method CloseAssignment(target: Node) returns (res: Outcome<ParseError>)
      modifies this
      ensures Agrees(res, ParseSpec.CloseAssignment(target, old(St())))
    {
      if nodes == [] {
        return Fail(AssignmentNoValue);
      }
      var value := Top(nodes);
      nodes := Pop(nodes);
      ghost var (ops0, nodes0, value0) := (ops, nodes, value);
      while ops != [] && Top(ops) != Identifiers.Assignment
        invariant FoldToAssignment(ops, nodes, value) == FoldToAssignment(ops0, nodes0, value0)
        invariant pos == old(pos)
        decreases |ops|
      {
        if nodes == [] {
          return Fail(EmptyStack);
        }
        var left := Top(nodes);
        nodes := Pop(nodes);
        var op := Top(ops);
        ops := Pop(ops);
        value := MergeTwoNodes(left, value, op);
      }
      nodes := nodes + [Assign(target, value)];
      if ops == [] {
        return Fail(EmptyStack);
      }
      ops := Pop(ops);
      res := Pass;
    }

    /** DeclarationHandler.doHandle. */
    method HandleDeclaration(t: Token) returns (res: Outcome<ParseError>)
      requires pos <= |toks|
      modifies this
      ensures Agrees(res, ParseSpec.HandleDeclaration(toks, t, old(St())))
    {
      if pos == |toks| {
        return Fail(PastEnd);
      }
      var name := Next();
      if name.tag != Identifier {
        return Fail(DeclarationNoIdentifier);
      }
      if pos < |toks| && toks[pos].value == Identifiers.Colon {
        var _ := Next();
        if pos < |toks| && toks[pos].tag != Identifier {
          return Fail(InvalidType);
        }
        if pos == |toks| {
          return Fail(PastEnd);
        }
        var typeName := Next();
        nodes := nodes + [Declare(t.value, name.value, Some(typeName.value))];
      } else {
        nodes := nodes + [Declare(t.value, name.value, None)];
      }
      res := Pass;
    }

    /** The end of `build`: fold both stacks into the root. */
    method Finish() returns (r: Result<Tree, ParseError>)
      modifies this
      ensures r == ParseSpec.Finish(old(St()))
    {
      if nodes == [] {
        return Ok(Tree(None));
      }
      var merged := Top(nodes);
      nodes := Pop(nodes);
      merged := FoldStacks(merged, None);
      if nodes != [] || ops != [] {
        return Err(ExpressionWrong);
      }
      r := Ok(Tree(Some(merged)));
    }
  }

  /** AST.build(Scanner): dispatch every token, then fold the stacks. */
  method Build(toks: seq<Token>) returns (r: Result<Tree, ParseError>)
    ensures r == Parse(toks)
  {
    var p := new Parser(toks);
    while p.pos < |toks|
      invariant p.toks == toks && p.pos <= |toks|
      invariant BuildScan(toks, p.St()) == BuildScan(toks, Start)
      decreases |toks| - p.pos
    {
      var t := p.Next();
      var res := p.Dispatch(t);
      if res.Fail? {
        return Err(res.error);
      }
    }
    r := p.Finish();
  }
}
