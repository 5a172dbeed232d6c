/** Properties of the parser specification: the dispatch order, what each
    handler does to the stacks, the shape of every tree `build` returns, and
    the parses of a few telling inputs. */
module ParseLemmas {
  import opened Wrappers
  import opened Tokens
  import opened Nodes
  import opened ParseSpec
  import Identifiers

  // ---------------------------------------------------------------------
  // dispatch order

  /** A token goes to the first handler, in chain order, whose canHandle
      holds (for every token whose canHandle tests do not throw). */
  lemma SelectIsFirstMatch(t: Token, rule: Rule)
    requires !(t.tag == Identifier && t.value == [])
    ensures Select(t) == Ok(rule) <==>
      CanHandle(rule, t) && forall r: Rule | Rank(r) < Rank(rule) :: !CanHandle(r, t)
  {
    if Select(t) == Ok(rule) {
      forall r: Rule | Rank(r) < Rank(rule) ensures !CanHandle(r, t) {
      }
    }
    if CanHandle(rule, t) && forall r: Rule | Rank(r) < Rank(rule) :: !CanHandle(r, t) {
      assert Rank(NumberRule) == 0 && Rank(OperatorRule) == 1 && Rank(AssignmentRule) == 2;
      assert Rank(DeclarationRule) == 3 && Rank(VariableNameRule) == 4 && Rank(LiteralRule) == 5;
    }
  }

  /** A token no earlier handler takes always fails. */
  lemma DefaultRuleFails(toks: seq<Token>, t: Token, s: State)
    requires s.pos <= |toks|
    requires Select(t) == Ok(DefaultRule)
    ensures Handle(toks, t, s) == Err(UnsupportedToken)
  {
  }

  /** Newline, end-of-stream and identifiers holding characters of no class
      (such as "a1") reach the default handler. */
  lemma UnclassifiedTokensReachDefault(t: Token)
    requires t.tag == NewLine || t.tag == EndOfStream
      || (t.tag == Identifier && |t.value| > 0 && t.value[0] in Identifiers.IdentifierCharacters
          && exists i | 0 <= i < |t.value| :: t.value[i] !in Identifiers.IdentifierCharacters)
    ensures Select(t) == Ok(DefaultRule)
  {
    if t.tag == Identifier {
      Identifiers.CharacterClassesDisjoint();
    }
  }

  // ---------------------------------------------------------------------
  // one step of each handler

  lemma IntegerPushesValue(toks: seq<Token>, t: Token, s: State, n: int)
    requires s.pos <= |toks|
    requires t.tag == IntLiteral && ParseInt(t.value) == Some(n)
    ensures Handle(toks, t, s) == Ok(s.(nodes := s.nodes + [Val(IntNum(n))]))
  {
  }

  /** "+" and "-" only push themselves onto the operator stack. */
  lemma LooseOperatorDefers(toks: seq<Token>, t: Token, s: State)
    requires s.pos <= |toks|
    requires t.tag == Identifier && (t.value == "+" || t.value == "-")
    ensures Handle(toks, t, s) == Ok(s.(ops := s.ops + [t.value]))
  {
    assert t.value[0] in Identifiers.OperatorCharacters;
  }

  predicate IsTight(t: Token) {
    t.tag == Identifier && (t.value == "*" || t.value == "/")
  }

  /** "*" and "/" with nothing after them, or with no node before them, fail. */
  lemma TightOperatorNeedsOperands(toks: seq<Token>, t: Token, s: State)
    requires s.pos <= |toks| && IsTight(t)
    requires s.pos == |toks| || s.nodes == []
    ensures s.pos == |toks| ==> Handle(toks, t, s) == Err(MissingRightOperand)
    ensures s.pos < |toks| ==> Handle(toks, t, s) == Err(MissingLeftOperand)
  {
    assert t.value[0] in Identifiers.OperatorCharacters;
  }

  /** "*" and "/" take the node on top as the left operand and, as the
      right operand, the node that dispatching exactly the next token
      pushes. */
  lemma TightOperatorBindsNextOperand(toks: seq<Token>, t: Token, s: State, s1: State, right: Node)
    requires s.pos < |toks| && IsTight(t) && s.nodes != []
    requires Handle(toks, toks[s.pos], State(s.pos + 1, s.ops, Pop(s.nodes))) == Ok(s1)
    requires s1.nodes == Pop(s.nodes) + [right]
    ensures Handle(toks, t, s)
      == Ok(s1.(nodes := Pop(s.nodes) + [Binary(t.value, Top(s.nodes), right)]))
  {
    assert t.value[0] in Identifiers.OperatorCharacters;
    assert Pop(s1.nodes) == Pop(s.nodes);
  }

  /** ")" and every other operator spelling reaching the operator handler
      fail; only the first character decides that the handler is asked. */
  lemma OtherOperatorsUnsupported(toks: seq<Token>, t: Token, s: State)
    requires s.pos <= |toks|
    requires OperatorCanHandle(t) && t.value !in {"+", "-", "*", "/", "("}
    ensures Handle(toks, t, s) == Err(UnsupportedOperator)
  {
  }

  /** `*` and `/` followed by a token that pushes no node (such as `+`)
      take their right operand from below their left one: with `a b` on
      the stack, `*` then `+` leaves `b * a`. */
  lemma TightOperatorTakesOperandFromBelow(toks: seq<Token>, t: Token, s: State, below: seq<Node>, a: Node, b: Node)
    requires s.pos < |toks| && IsTight(t) && s.nodes == below + [a, b]
    requires toks[s.pos].tag == Identifier && toks[s.pos].value in {"+", "-"}
    ensures Handle(toks, t, s)
      == Ok(State(s.pos + 1, s.ops + [toks[s.pos].value], below + [Binary(t.value, b, a)]))
  {
    assert t.value[0] in Identifiers.OperatorCharacters;
    assert Pop(s.nodes) == below + [a] && Top(s.nodes) == b;
    var next := State(s.pos + 1, s.ops, below + [a]);
    LooseOperatorDefers(toks, toks[s.pos], next);
    var s1 := next.(ops := s.ops + [toks[s.pos].value]);
    assert Pop(s1.nodes) == below && Top(s1.nodes) == a;
    assert HandleOperator(toks, t, s) == Ok(s1.(nodes := below + [Binary(t.value, b, a)]));
  }

  /** A declaration keyword followed by a name token: a `Declare` node
      without a type; with ":" and a type token after the name, one with
      that type. The name's characters are never checked, only its tag. */
  lemma DeclarationPushesDeclare(toks: seq<Token>, t: Token, s: State)
    requires s.pos < |toks| && t.tag == Declaration
    requires toks[s.pos].tag == Identifier
    ensures !(s.pos + 1 < |toks| && toks[s.pos + 1].value == Identifiers.Colon) ==>
      Handle(toks, t, s) == Ok(State(s.pos + 1, s.ops, s.nodes + [Declare(t.value, toks[s.pos].value, None)]))
    ensures s.pos + 2 < |toks| && toks[s.pos + 1].value == Identifiers.Colon && toks[s.pos + 2].tag == Identifier ==>
      Handle(toks, t, s) == Ok(State(s.pos + 3, s.ops,
        s.nodes + [Declare(t.value, toks[s.pos].value, Some(toks[s.pos + 2].value))]))
    ensures s.pos + 2 < |toks| && toks[s.pos + 1].value == Identifiers.Colon && toks[s.pos + 2].tag != Identifier ==>
      Handle(toks, t, s) == Err(InvalidType)
  {
  }

  /** A declaration pushes one `Declare` node, and it has a type exactly
      when a colon was consumed; the name token is an identifier token. */
  lemma DeclarationShape(toks: seq<Token>, t: Token, s: State, s1: State)
    requires s.pos <= |toks| && t.tag == Declaration
    requires Handle(toks, t, s) == Ok(s1)
    ensures s1.ops == s.ops && |s1.nodes| == |s.nodes| + 1 && Pop(s1.nodes) == s.nodes
    ensures Top(s1.nodes).Declare? && Top(s1.nodes).keyword == t.value
    ensures toks[s.pos].tag == Identifier && Top(s1.nodes).name == toks[s.pos].value
    ensures Top(s1.nodes).typeName.Some? <==> s1.pos == s.pos + 3
    ensures Top(s1.nodes).typeName.Some? ==>
      && toks[s.pos + 1].value == Identifiers.Colon
      && toks[s.pos + 2].tag == Identifier
      && Top(s1.nodes).typeName.value == toks[s.pos + 2].value
    ensures Top(s1.nodes).typeName.None? ==> s1.pos == s.pos + 1
  {
    assert Pop(s1.nodes) == s.nodes;
  }

  /** "=" needs a name or a declaration on top of the node stack. */
  lemma AssignmentNeedsTarget(toks: seq<Token>, t: Token, s: State)
    requires s.pos <= |toks| && t.tag == Tokens.Assignment
    requires s.nodes == [] || !IsTarget(Top(s.nodes))
    ensures Handle(toks, t, s) == Err(AssignmentNoTarget)
  {
  }

  /** Closing an assignment after `a op b`: the operator above "=" and
      the two nodes become its value, and "=" is popped. */
  lemma AssignmentFoldsToMarker(target: Node, pos: nat, below: seq<string>, op: string, nodes: seq<Node>, a: Node, b: Node)
    requires op != Identifiers.Assignment
    ensures CloseAssignment(target, State(pos, below + [Identifiers.Assignment, op], nodes + [a, b]))
      == Ok(State(pos, below, nodes + [Assign(target, Binary(op, a, b))]))
  {
    var ops := below + [Identifiers.Assignment, op];
    assert Pop(nodes + [a, b]) == nodes + [a] && Top(nodes + [a, b]) == b;
    assert Pop(nodes + [a]) == nodes && Top(nodes + [a]) == a;
    assert Pop(ops) == below + [Identifiers.Assignment] && Top(ops) == op;
    assert Top(Pop(ops)) == Identifiers.Assignment && Pop(Pop(ops)) == below;
    assert FoldToAssignment(Pop(ops), nodes, Binary(op, a, b)) == Ok((Pop(ops), nodes, Binary(op, a, b)));
    assert FoldToAssignment(ops, nodes + [a], b) == Ok((Pop(ops), nodes, Binary(op, a, b)));
  }

  /** An operator after "=" with only one value node (`x = + 1`) makes
      the assignment fold pop an empty node stack. */
  lemma AssignedOperatorWithoutLeftOperand(target: Node, pos: nat, below: seq<string>, op: string, value: Node)
    requires op != Identifiers.Assignment
    ensures CloseAssignment(target, State(pos, below + [Identifiers.Assignment, op], [value])) == Err(EmptyStack)
  {
    assert Pop([value]) == [] && Top(below + [Identifiers.Assignment, op]) == op;
  }

  // ---------------------------------------------------------------------
  // the folds

  /** The right-nested chain `n0 o0 (n1 o1 (... (nk ok acc)))`: operators
      and nodes paired oldest first, each pair the left operand and the
      operator over everything newer. */
  function RightChain(nodes: seq<Node>, ops: seq<string>, acc: Node): Node
    requires |nodes| == |ops|
    decreases |nodes|
  {
    if nodes == [] then acc
    else Binary(ops[0], nodes[0], RightChain(nodes[1..], ops[1..], acc))
  }

  /** Adding the newest pair to a chain is the same as putting that pair
      over the accumulator. */
  lemma {:induction false} RightChainSnoc(nodes: seq<Node>, ops: seq<string>, n: Node, o: string, acc: Node)
    requires |nodes| == |ops|
    ensures RightChain(nodes + [n], ops + [o], acc) == RightChain(nodes, ops, Binary(o, n, acc))
    decreases |nodes|
  {
    if nodes == [] {
      assert RightChain([n], [o], acc) == Binary(o, n, RightChain([], [], acc));
    } else {
      assert (nodes + [n])[1..] == nodes[1..] + [n];
      assert (ops + [o])[1..] == ops[1..] + [o];
      RightChainSnoc(nodes[1..], ops[1..], n, o, acc);
    }
  }

  /** Folding over operators `hiOps` and nodes `hiNodes` on top of the
      stacks, none of those operators the stop marker, makes them the
      right-nested chain over the accumulator and leaves what is below. */
  lemma {:induction false} FoldBuildsRightChain(lo: seq<string>, hiOps: seq<string>,
                                                nodesLo: seq<Node>, hiNodes: seq<Node>,
                                                acc: Node, stop: Option<string>)
    requires |hiOps| == |hiNodes|
    requires forall o | o in hiOps :: Some(o) != stop
    ensures Fold(lo + hiOps, nodesLo + hiNodes, acc, stop)
      == Fold(lo, nodesLo, RightChain(hiNodes, hiOps, acc), stop)
    decreases |hiOps|
  {
    if hiOps == [] {
      assert lo + hiOps == lo && nodesLo + hiNodes == nodesLo;
    } else {
      StackOnTop(lo, hiOps);
      StackOnTop(nodesLo, hiNodes);
      assert Top(hiOps) in hiOps;
      assert forall o | o in Pop(hiOps) :: o in hiOps;
      FoldBuildsRightChain(lo, Pop(hiOps), nodesLo, Pop(hiNodes),
                           MergeTwoNodes(Top(hiNodes), acc, Top(hiOps)), stop);
      RightChainSnoc(Pop(hiNodes), Pop(hiOps), Top(hiNodes), Top(hiOps), acc);
    }
  }

  /** The top of a stack `lo + hi` with `hi` non-empty is in `hi`. */
  lemma StackOnTop<T>(lo: seq<T>, hi: seq<T>)
    requires hi != []
    ensures Top(lo + hi) == Top(hi) && Pop(lo + hi) == lo + Pop(hi)
    ensures Pop(hi) + [Top(hi)] == hi
  {
    assert (lo + hi)[..|lo + hi| - 1] == lo + hi[..|hi| - 1];
  }

  /** The end of `build`: no node means no root; otherwise it succeeds
      exactly when there is one operator fewer than nodes ("expression
      wrong" when not), and the root is the right-nested chain of all of
      them, so the newest operator binds tightest. */
  lemma FinishFoldsEverything(s: State)
    ensures s.nodes == [] ==> Finish(s) == Ok(Tree(None))
    ensures s.nodes != [] && |s.ops| + 1 != |s.nodes| ==> Finish(s) == Err(ExpressionWrong)
    ensures s.nodes != [] && |s.ops| + 1 == |s.nodes| ==>
      Finish(s) == Ok(Tree(Some(RightChain(Pop(s.nodes), s.ops, Top(s.nodes)))))
  {
    if s.nodes != [] {
      var rest := Pop(s.nodes);
      if |s.ops| < |rest| {
        var cut := |rest| - |s.ops|;
        assert rest == rest[..cut] + rest[cut..];
        assert s.ops == [] + s.ops;
        FoldBuildsRightChain([], s.ops, rest[..cut], rest[cut..], Top(s.nodes), None);
      } else {
        var cut := |s.ops| - |rest|;
        assert s.ops == s.ops[..cut] + s.ops[cut..];
        assert rest == [] + rest;
        FoldBuildsRightChain(s.ops[..cut], s.ops[cut..], [], rest, Top(s.nodes), None);
      }
    }
  }

  /** Closing a group whose newest "(" has `above` on top of it: with
      enough nodes, the nodes and operators above the marker become one
      right-nested chain, exactly that marker is popped, and everything
      below is kept; with too few nodes the fold stops short of the marker
      and the group is unbalanced. With no node at all it is empty. */
  lemma GroupClosesOnMarker(s: State, below: seq<string>, above: seq<string>)
    requires s.ops == below + [Identifiers.OpenParenthesis] + above
    requires Identifiers.OpenParenthesis !in above
    ensures s.nodes == [] ==> CloseParenthesis(s) == Err(EmptyParenthesis)
    ensures s.nodes != [] && |above| < |s.nodes| ==>
      var cut := |s.nodes| - 1 - |above|;
      CloseParenthesis(s) == Ok(State(s.pos, below,
        s.nodes[..cut] + [RightChain(s.nodes[cut..|s.nodes| - 1], above, Top(s.nodes))]))
    ensures s.nodes != [] && |above| >= |s.nodes| ==> CloseParenthesis(s) == Err(UnbalancedParenthesis)
  {
    if s.nodes != [] {
      if |above| < |s.nodes| {
        GroupAboveMarkerCloses(s, below, above);
      } else {
        GroupShortOfMarkerFails(s, below, above);
      }
    }
  }

  lemma GroupAboveMarkerCloses(s: State, below: seq<string>, above: seq<string>)
    requires s.ops == below + [Identifiers.OpenParenthesis] + above
    requires Identifiers.OpenParenthesis !in above
    requires s.nodes != [] && |above| < |s.nodes|
    ensures var cut := |s.nodes| - 1 - |above|;
      CloseParenthesis(s) == Ok(State(s.pos, below,
        s.nodes[..cut] + [RightChain(s.nodes[cut..|s.nodes| - 1], above, Top(s.nodes))]))
  {
    var rest := Pop(s.nodes);
    var cut := |s.nodes| - 1 - |above|;
    var lo := below + [Identifiers.OpenParenthesis];
    assert rest == rest[..cut] + rest[cut..];
    assert rest[..cut] == s.nodes[..cut] && rest[cut..] == s.nodes[cut..|s.nodes| - 1];
    FoldBuildsRightChain(lo, above, rest[..cut], rest[cut..], Top(s.nodes), Some(Identifiers.OpenParenthesis));
    assert Top(lo) == Identifiers.OpenParenthesis && Pop(lo) == below;
  }

  lemma GroupShortOfMarkerFails(s: State, below: seq<string>, above: seq<string>)
    requires s.ops == below + [Identifiers.OpenParenthesis] + above
    requires Identifiers.OpenParenthesis !in above
    requires s.nodes != [] && |above| >= |s.nodes|
    ensures CloseParenthesis(s) == Err(UnbalancedParenthesis)
  {
    var rest := Pop(s.nodes);
    var cut := |above| - |rest|;
    var lo := below + [Identifiers.OpenParenthesis] + above[..cut];
    assert above == above[..cut] + above[cut..];
    assert s.ops == lo + above[cut..];
    assert rest == [] + rest;
    forall o | o in above[cut..] ensures Some(o) != Some(Identifiers.OpenParenthesis) {
      assert o in above;
    }
    FoldBuildsRightChain(lo, above[cut..], [], rest, Top(s.nodes), Some(Identifiers.OpenParenthesis));
    assert Top(lo) == above[cut - 1] && above[cut - 1] in above;
  }

  /** The assignment fold over operators `hiOps` and nodes `hiNodes` on top
      of the stacks, none of those operators "=", makes them the
      right-nested chain over the accumulator and leaves what is below. */
  lemma {:induction false} FoldToAssignmentBuildsRightChain(lo: seq<string>, hiOps: seq<string>,
                                                            nodesLo: seq<Node>, hiNodes: seq<Node>, acc: Node)
    requires |hiOps| == |hiNodes|
    requires Identifiers.Assignment !in hiOps
    ensures FoldToAssignment(lo + hiOps, nodesLo + hiNodes, acc)
      == FoldToAssignment(lo, nodesLo, RightChain(hiNodes, hiOps, acc))
    decreases |hiOps|
  {
    if hiOps == [] {
      assert lo + hiOps == lo && nodesLo + hiNodes == nodesLo;
    } else {
      StackOnTop(lo, hiOps);
      StackOnTop(nodesLo, hiNodes);
      assert Top(hiOps) in hiOps;
      assert forall o | o in Pop(hiOps) :: o in hiOps;
      FoldToAssignmentBuildsRightChain(lo, Pop(hiOps), nodesLo, Pop(hiNodes),
                                       MergeTwoNodes(Top(hiNodes), acc, Top(hiOps)));
      RightChainSnoc(Pop(hiNodes), Pop(hiOps), Top(hiNodes), Top(hiOps), acc);
    }
  }

  /** Closing an assignment whose "=" has `above` on top of it: with no
      value node it fails; with more nodes than operators above the "=",
      those become one right-nested chain assigned to the target, exactly
      that "=" is popped and everything below is kept; with fewer, the fold
      pops an empty node stack. */
  lemma AssignmentClosesOnMarker(target: Node, s: State, below: seq<string>, above: seq<string>)
    requires s.ops == below + [Identifiers.Assignment] + above
    requires Identifiers.Assignment !in above
    ensures s.nodes == [] ==> CloseAssignment(target, s) == Err(AssignmentNoValue)
    ensures s.nodes != [] && |above| < |s.nodes| ==>
      var cut := |s.nodes| - 1 - |above|;
      CloseAssignment(target, s) == Ok(State(s.pos, below,
        s.nodes[..cut] + [Assign(target, RightChain(s.nodes[cut..|s.nodes| - 1], above, Top(s.nodes)))]))
    ensures s.nodes != [] && |above| >= |s.nodes| ==> CloseAssignment(target, s) == Err(EmptyStack)
  {
    if s.nodes != [] {
      if |above| < |s.nodes| {
        AssignmentAboveMarkerCloses(target, s, below, above);
      } else {
        AssignmentShortOfMarkerFails(target, s, below, above);
      }
    }
  }

  lemma AssignmentAboveMarkerCloses(target: Node, s: State, below: seq<string>, above: seq<string>)
    requires s.ops == below + [Identifiers.Assignment] + above
    requires Identifiers.Assignment !in above
    requires s.nodes != [] && |above| < |s.nodes|
    ensures var cut := |s.nodes| - 1 - |above|;
      CloseAssignment(target, s) == Ok(State(s.pos, below,
        s.nodes[..cut] + [Assign(target, RightChain(s.nodes[cut..|s.nodes| - 1], above, Top(s.nodes)))]))
  {
    var rest := Pop(s.nodes);
    var cut := |s.nodes| - 1 - |above|;
    var lo := below + [Identifiers.Assignment];
    assert rest == rest[..cut] + rest[cut..];
    assert rest[..cut] == s.nodes[..cut] && rest[cut..] == s.nodes[cut..|s.nodes| - 1];
    FoldToAssignmentBuildsRightChain(lo, above, rest[..cut], rest[cut..], Top(s.nodes));
    assert Top(lo) == Identifiers.Assignment && Pop(lo) == below;
  }

  lemma AssignmentShortOfMarkerFails(target: Node, s: State, below: seq<string>, above: seq<string>)
    requires s.ops == below + [Identifiers.Assignment] + above
    requires Identifiers.Assignment !in above
    requires s.nodes != [] && |above| >= |s.nodes|
    ensures CloseAssignment(target, s) == Err(EmptyStack)
  {
    var rest := Pop(s.nodes);
    var cut := |above| - |rest|;
    var lo := below + [Identifiers.Assignment] + above[..cut];
    assert above == above[..cut] + above[cut..];
    assert s.ops == lo + above[cut..];
    assert rest == [] + rest;
    assert forall o | o in above[cut..] :: o in above;
    FoldToAssignmentBuildsRightChain(lo, above[cut..], [], rest, Top(s.nodes));
    assert Top(lo) == above[cut - 1] && above[cut - 1] in above;
  }

  /** A group closed when no "(" is on the operator stack at all is
      unbalanced. */
  lemma GroupWithoutMarkerFails(s: State)
    requires s.nodes != [] && Identifiers.OpenParenthesis !in s.ops
    ensures CloseParenthesis(s) == Err(UnbalancedParenthesis)
  {
    if |s.ops| < |s.nodes| - 1 {
      GroupFoldRunsOutOfOperators(s);
    } else {
      GroupFoldRunsOutOfNodes(s);
    }
  }

  lemma GroupFoldRunsOutOfOperators(s: State)
    requires s.nodes != [] && Identifiers.OpenParenthesis !in s.ops
    requires |s.ops| < |s.nodes| - 1
    ensures CloseParenthesis(s) == Err(UnbalancedParenthesis)
  {
    var rest := Pop(s.nodes);
    var cut := |rest| - |s.ops|;
    assert rest == rest[..cut] + rest[cut..];
    assert s.ops == [] + s.ops;
    assert forall o | o in s.ops :: Some(o) != Some(Identifiers.OpenParenthesis);
    FoldBuildsRightChain([], s.ops, rest[..cut], rest[cut..], Top(s.nodes), Some(Identifiers.OpenParenthesis));
  }

  lemma GroupFoldRunsOutOfNodes(s: State)
    requires s.nodes != [] && Identifiers.OpenParenthesis !in s.ops
    requires |s.ops| >= |s.nodes| - 1
    ensures CloseParenthesis(s) == Err(UnbalancedParenthesis)
  {
    var rest := Pop(s.nodes);
    var cut := |s.ops| - |rest|;
    var lo := s.ops[..cut];
    assert s.ops == lo + s.ops[cut..];
    assert rest == [] + rest;
    assert forall o | o in s.ops[cut..] :: o in s.ops;
    FoldBuildsRightChain(lo, s.ops[cut..], [], rest, Top(s.nodes), Some(Identifiers.OpenParenthesis));
    if cut > 0 {
      assert Top(lo) == s.ops[cut - 1] && s.ops[cut - 1] in s.ops;
    }
  }

  /** build on no tokens gives a tree without a root. */
  lemma EmptyInputHasNoRoot()
    ensures Parse([]) == Ok(Tree(None))
  {
  }
}
