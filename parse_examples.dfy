/** Parses of short token sequences, showing the grouping the handler
    chain produces (including where it differs from the usual one). Each
    parse is proved one dispatch at a time. */
module ParseExamples {
  import opened Wrappers
  import opened Tokens
  import opened Nodes
  import opened ParseSpec
  import opened ParseLemmas
  import Identifiers

  function IntTok(text: string): Token { Token(IntLiteral, text) }
  function Sym(text: string): Token { Token(Identifier, text) }
  function Int(n: int): Node { Val(IntNum(n)) }

  lemma SmallLiterals()
    ensures ParseInt("1") == Some(1) && ParseInt("2") == Some(2)
    ensures ParseInt("3") == Some(3) && ParseInt("4") == Some(4)
  {
    ParseIntRoundTrip(1);
    ParseIntRoundTrip(2);
    ParseIntRoundTrip(3);
    ParseIntRoundTrip(4);
  }

  // ---------------------------------------------------------------------
  // one dispatch inside each of the three scanning loops

  lemma BuildScanStep(toks: seq<Token>, s: State, s1: State)
    requires s.pos < |toks|
    requires Handle(toks, toks[s.pos], s.(pos := s.pos + 1)) == Ok(s1)
    ensures BuildScan(toks, s) == BuildScan(toks, s1)
  {
  }

  lemma ParenScanStep(toks: seq<Token>, s: State, s1: State)
    requires s.pos < |toks| && toks[s.pos].value != Identifiers.ClosingParenthesis
    requires Handle(toks, toks[s.pos], s.(pos := s.pos + 1)) == Ok(s1)
    ensures ParenScan(toks, s) == ParenScan(toks, s1)
  {
  }

  lemma AssignScanStep(toks: seq<Token>, s: State, s1: State)
    requires s.pos < |toks| && toks[s.pos].tag != NewLine
    requires Handle(toks, toks[s.pos], s.(pos := s.pos + 1)) == Ok(s1)
    ensures AssignScan(toks, s) == AssignScan(toks, s1)
  {
  }

  /** "(" is taken by the operator handler, which scans the group and
      closes it. */
  lemma ParenthesisStep(toks: seq<Token>, t: Token, s: State)
    requires s.pos <= |toks| && t == Token(Identifier, Identifiers.OpenParenthesis)
    ensures Handle(toks, t, s) ==
      match ParenScan(toks, s.(ops := s.ops + [t.value]))
      case Err(e) => Err(e)
      case Ok(s1) => CloseParenthesis(s1)
  {
    assert t.value[0] in Identifiers.CommonIdentifiers;
  }

  /** "=" on a target is taken by the assignment handler, which scans the
      rest of the line and closes the assignment onto that target. */
  lemma AssignmentStep(toks: seq<Token>, t: Token, s: State)
    requires s.pos <= |toks| && t.tag == Tokens.Assignment
    requires s.nodes != [] && IsTarget(Top(s.nodes))
    ensures Handle(toks, t, s) ==
      match AssignScan(toks, State(s.pos, s.ops + [t.value], Pop(s.nodes)))
      case Err(e) => Err(e)
      case Ok(s1) => CloseAssignment(Top(s.nodes), s1)
  {
  }

  // ---------------------------------------------------------------------
  // a + b * c, for any integers and any of the two operators of each kind

  /** `a loose b tight c` with integer literals `a`, `b`, `c` of values
      `x`, `y`, `z`, `loose` one of `+ -` and `tight` one of `* /`. */
  predicate IsProductInput(toks: seq<Token>, loose: string, tight: string, x: int, y: int, z: int) {
    && |toks| == 5
    && toks[0].tag == IntLiteral && ParseInt(toks[0].value) == Some(x)
    && toks[1] == Sym(loose) && loose in {"+", "-"}
    && toks[2].tag == IntLiteral && ParseInt(toks[2].value) == Some(y)
    && toks[3] == Sym(tight) && tight in {"*", "/"}
    && toks[4].tag == IntLiteral && ParseInt(toks[4].value) == Some(z)
  }

  lemma ProductStep1(toks: seq<Token>, loose: string, tight: string, x: int, y: int, z: int)
    requires IsProductInput(toks, loose, tight, x, y, z)
    ensures BuildScan(toks, Start) == BuildScan(toks, State(1, [], [Int(x)]))
  {
    IntegerPushesValue(toks, toks[0], State(1, [], []), x);
    assert [] + [Int(x)] == [Int(x)];
    BuildScanStep(toks, State(0, [], []), State(1, [], [Int(x)]));
  }

  lemma ProductStep2(toks: seq<Token>, loose: string, tight: string, x: int, y: int, z: int)
    requires IsProductInput(toks, loose, tight, x, y, z)
    ensures BuildScan(toks, State(1, [], [Int(x)])) == BuildScan(toks, State(2, [loose], [Int(x)]))
  {
    LooseOperatorDefers(toks, toks[1], State(2, [], [Int(x)]));
    assert [] + [loose] == [loose];
    BuildScanStep(toks, State(1, [], [Int(x)]), State(2, [loose], [Int(x)]));
  }

  lemma ProductStep3(toks: seq<Token>, loose: string, tight: string, x: int, y: int, z: int)
    requires IsProductInput(toks, loose, tight, x, y, z)
    ensures BuildScan(toks, State(2, [loose], [Int(x)])) == BuildScan(toks, State(3, [loose], [Int(x), Int(y)]))
  {
    IntegerPushesValue(toks, toks[2], State(3, [loose], [Int(x)]), y);
    assert [Int(x)] + [Int(y)] == [Int(x), Int(y)];
    BuildScanStep(toks, State(2, [loose], [Int(x)]), State(3, [loose], [Int(x), Int(y)]));
  }

  lemma ProductStep4(toks: seq<Token>, loose: string, tight: string, x: int, y: int, z: int)
    requires IsProductInput(toks, loose, tight, x, y, z)
    ensures BuildScan(toks, State(3, [loose], [Int(x), Int(y)]))
      == Ok(State(5, [loose], [Int(x), Binary(tight, Int(y), Int(z))]))
  {
    var product := Binary(tight, Int(y), Int(z));
    IntegerPushesValue(toks, toks[4], State(5, [loose], [Int(x)]), z);
    assert [Int(x)] + [Int(z)] == [Int(x), Int(z)];
    assert Pop([Int(x), Int(y)]) == [Int(x)];
    TightOperatorBindsNextOperand(toks, toks[3], State(4, [loose], [Int(x), Int(y)]),
      State(5, [loose], [Int(x), Int(z)]), Int(z));
    assert [Int(x)] + [product] == [Int(x), product];
    BuildScanStep(toks, State(3, [loose], [Int(x), Int(y)]), State(5, [loose], [Int(x), product]));
  }

  /** `a + b * c` (and `-`, `/` alike): the product is built first and
      becomes the right operand of the sum, whatever the literals are. */
  lemma ProductBindsTighter(toks: seq<Token>, loose: string, tight: string, x: int, y: int, z: int)
    requires IsProductInput(toks, loose, tight, x, y, z)
    ensures Parse(toks) == Ok(Tree(Some(Binary(loose, Int(x), Binary(tight, Int(y), Int(z))))))
  {
    ProductStep1(toks, loose, tight, x, y, z);
    ProductStep2(toks, loose, tight, x, y, z);
    ProductStep3(toks, loose, tight, x, y, z);
    ProductStep4(toks, loose, tight, x, y, z);
    var product := Binary(tight, Int(y), Int(z));
    FinishFoldsEverything(State(5, [loose], [Int(x), product]));
    assert Pop([Int(x), product]) == [Int(x)];
    assert RightChain([Int(x)], [loose], product) == Binary(loose, Int(x), RightChain([], [], product));
  }

  /** `2 + 3 * 4` parses to `2 + (3 * 4)`. */
  lemma SumOfProduct()
    ensures Parse([IntTok("2"), Sym("+"), IntTok("3"), Sym("*"), IntTok("4")])
      == Ok(Tree(Some(Binary("+", Int(2), Binary("*", Int(3), Int(4))))))
  {
    SmallLiterals();
    ProductBindsTighter([IntTok("2"), Sym("+"), IntTok("3"), Sym("*"), IntTok("4")], "+", "*", 2, 3, 4);
  }

  // ---------------------------------------------------------------------
  // 1 - 2 - 3

  predicate IsChainInput(toks: seq<Token>) {
    toks == [IntTok("1"), Sym("-"), IntTok("2"), Sym("-"), IntTok("3")]
  }

  lemma ChainStep1(toks: seq<Token>)
    requires IsChainInput(toks)
    ensures BuildScan(toks, Start) == BuildScan(toks, State(2, ["-"], [Int(1)]))
  {
    SmallLiterals();
    IntegerPushesValue(toks, toks[0], State(1, [], []), 1);
    assert [] + [Int(1)] == [Int(1)];
    BuildScanStep(toks, State(0, [], []), State(1, [], [Int(1)]));
    LooseOperatorDefers(toks, toks[1], State(2, [], [Int(1)]));
    assert [] + ["-"] == ["-"];
    BuildScanStep(toks, State(1, [], [Int(1)]), State(2, ["-"], [Int(1)]));
  }

  lemma ChainStep2(toks: seq<Token>)
    requires IsChainInput(toks)
    ensures BuildScan(toks, State(2, ["-"], [Int(1)])) == BuildScan(toks, State(4, ["-", "-"], [Int(1), Int(2)]))
  {
    SmallLiterals();
    IntegerPushesValue(toks, toks[2], State(3, ["-"], [Int(1)]), 2);
    assert [Int(1)] + [Int(2)] == [Int(1), Int(2)];
    BuildScanStep(toks, State(2, ["-"], [Int(1)]), State(3, ["-"], [Int(1), Int(2)]));
    LooseOperatorDefers(toks, toks[3], State(4, ["-"], [Int(1), Int(2)]));
    assert ["-"] + ["-"] == ["-", "-"];
    BuildScanStep(toks, State(3, ["-"], [Int(1), Int(2)]), State(4, ["-", "-"], [Int(1), Int(2)]));
  }

  lemma ChainStep3(toks: seq<Token>)
    requires IsChainInput(toks)
    ensures BuildScan(toks, State(4, ["-", "-"], [Int(1), Int(2)])) == Ok(State(5, ["-", "-"], [Int(1), Int(2), Int(3)]))
  {
    SmallLiterals();
    IntegerPushesValue(toks, toks[4], State(5, ["-", "-"], [Int(1), Int(2)]), 3);
    assert [Int(1), Int(2)] + [Int(3)] == [Int(1), Int(2), Int(3)];
    BuildScanStep(toks, State(4, ["-", "-"], [Int(1), Int(2)]), State(5, ["-", "-"], [Int(1), Int(2), Int(3)]));
  }

  lemma ChainParse(toks: seq<Token>)
    requires IsChainInput(toks)
    ensures Parse(toks) == Ok(Tree(Some(Binary("-", Int(1), Binary("-", Int(2), Int(3))))))
  {
    ChainStep1(toks);
    ChainStep2(toks);
    ChainStep3(toks);
    assert Pop([Int(1), Int(2), Int(3)]) == [Int(1), Int(2)];
    assert Pop(["-", "-"]) == ["-"];
    assert Pop([Int(1), Int(2)]) == [Int(1)];
  }

  /** `1 - 2 - 3`: the final fold pops the newest operator first, so the
      chain nests to the right, as 1 - (2 - 3). */
  lemma LooseChainNestsRight()
    ensures Parse([IntTok("1"), Sym("-"), IntTok("2"), Sym("-"), IntTok("3")])
      == Ok(Tree(Some(Binary("-", Int(1), Binary("-", Int(2), Int(3))))))
  {
    ChainParse([IntTok("1"), Sym("-"), IntTok("2"), Sym("-"), IntTok("3")]);
  }

  // ---------------------------------------------------------------------
  // parentheses

  /** The scan inside `( 1 + 2`, from just after "(" over the three
      tokens at `start`. */
  lemma SumInsideParenthesis(toks: seq<Token>, start: nat, below: seq<string>)
    requires start + 3 <= |toks|
    requires toks[start] == IntTok("1") && toks[start + 1] == Sym("+") && toks[start + 2] == IntTok("2")
    ensures ParenScan(toks, State(start, below, [])) == ParenScan(toks, State(start + 3, below + ["+"], [Int(1), Int(2)]))
  {
    SumFirstOperand(toks, start, below);
    SumOperatorAndSecondOperand(toks, start, below);
  }

  lemma SumFirstOperand(toks: seq<Token>, start: nat, below: seq<string>)
    requires start + 3 <= |toks|
    requires toks[start] == IntTok("1")
    ensures ParenScan(toks, State(start, below, [])) == ParenScan(toks, State(start + 1, below, [Int(1)]))
  {
    SmallLiterals();
    IntegerPushesValue(toks, toks[start], State(start + 1, below, []), 1);
    assert [] + [Int(1)] == [Int(1)];
    ParenScanStep(toks, State(start, below, []), State(start + 1, below, [Int(1)]));
  }

  lemma SumOperatorAndSecondOperand(toks: seq<Token>, start: nat, below: seq<string>)
    requires start + 3 <= |toks|
    requires toks[start + 1] == Sym("+") && toks[start + 2] == IntTok("2")
    ensures ParenScan(toks, State(start + 1, below, [Int(1)]))
      == ParenScan(toks, State(start + 3, below + ["+"], [Int(1), Int(2)]))
  {
    SmallLiterals();
    LooseOperatorDefers(toks, toks[start + 1], State(start + 2, below, [Int(1)]));
    ParenScanStep(toks, State(start + 1, below, [Int(1)]), State(start + 2, below + ["+"], [Int(1)]));
    IntegerPushesValue(toks, toks[start + 2], State(start + 3, below + ["+"], [Int(1)]), 2);
    assert [Int(1)] + [Int(2)] == [Int(1), Int(2)];
    ParenScanStep(toks, State(start + 2, below + ["+"], [Int(1)]), State(start + 3, below + ["+"], [Int(1), Int(2)]));
  }

  /** Closing a group that holds `1 + 2` over an empty stack. */
  lemma SumGroupCloses(pos: nat)
    ensures CloseParenthesis(State(pos, ["(", "+"], [Int(1), Int(2)]))
      == Ok(State(pos, [], [Binary("+", Int(1), Int(2))]))
  {
    var sum := Binary("+", Int(1), Int(2));
    assert Pop([Int(1), Int(2)]) == [Int(1)];
    assert Pop(["(", "+"]) == ["("] && Pop([Int(1)]) == [];
    assert Fold(["(", "+"], [Int(1)], Int(2), Some("(")) == (["("], [], sum);
    assert [] + [sum] == [sum];
  }

  predicate IsGroupInput(toks: seq<Token>) {
    toks == [Sym("("), IntTok("1"), Sym("+"), IntTok("2"), Sym(")"), Sym("*"), IntTok("3")]
  }

  lemma GroupScan(toks: seq<Token>)
    requires IsGroupInput(toks)
    ensures ParenScan(toks, State(1, ["("], [])) == Ok(State(5, ["(", "+"], [Int(1), Int(2)]))
  {
    SumInsideParenthesis(toks, 1, ["("]);
    assert ["("] + ["+"] == ["(", "+"];
  }

  lemma GroupStep1(toks: seq<Token>)
    requires IsGroupInput(toks)
    ensures BuildScan(toks, Start) == BuildScan(toks, State(5, [], [Binary("+", Int(1), Int(2))]))
  {
    GroupScan(toks);
    SumGroupCloses(5);
    ParenthesisStep(toks, toks[0], State(1, [], []));
    assert State(1, [], []).(ops := [] + ["("]) == State(1, ["("], []);
    BuildScanStep(toks, State(0, [], []), State(5, [], [Binary("+", Int(1), Int(2))]));
  }

  lemma GroupStep2(toks: seq<Token>)
    requires IsGroupInput(toks)
    ensures BuildScan(toks, State(5, [], [Binary("+", Int(1), Int(2))]))
      == Ok(State(7, [], [Binary("*", Binary("+", Int(1), Int(2)), Int(3))]))
  {
    var sum := Binary("+", Int(1), Int(2));
    SmallLiterals();
    IntegerPushesValue(toks, toks[6], State(7, [], []), 3);
    assert [] + [Int(3)] == [Int(3)];
    assert Pop([sum]) == [];
    TightOperatorBindsNextOperand(toks, toks[5], State(6, [], [sum]), State(7, [], [Int(3)]), Int(3));
    assert [] + [Binary("*", sum, Int(3))] == [Binary("*", sum, Int(3))];
    BuildScanStep(toks, State(5, [], [sum]), State(7, [], [Binary("*", sum, Int(3))]));
  }

  lemma GroupParse(toks: seq<Token>)
    requires IsGroupInput(toks)
    ensures Parse(toks) == Ok(Tree(Some(Binary("*", Binary("+", Int(1), Int(2)), Int(3)))))
  {
    GroupStep1(toks);
    GroupStep2(toks);
  }

  /** `( 1 + 2 ) * 3`: the group is folded when ")" is reached and then
      becomes the product's left operand. */
  lemma GroupOverridesPrecedence()
    ensures Parse([Sym("("), IntTok("1"), Sym("+"), IntTok("2"), Sym(")"), Sym("*"), IntTok("3")])
      == Ok(Tree(Some(Binary("*", Binary("+", Int(1), Int(2)), Int(3)))))
  {
    GroupParse([Sym("("), IntTok("1"), Sym("+"), IntTok("2"), Sym(")"), Sym("*"), IntTok("3")]);
  }

  predicate IsUnclosedInput(toks: seq<Token>) {
    toks == [Sym("("), IntTok("1"), Sym("+"), IntTok("2")]
  }

  lemma UnclosedGroupScan(toks: seq<Token>)
    requires IsUnclosedInput(toks)
    ensures ParenScan(toks, State(1, ["("], [])) == Ok(State(4, ["(", "+"], [Int(1), Int(2)]))
  {
    SumInsideParenthesis(toks, 1, ["("]);
    assert ["("] + ["+"] == ["(", "+"];
  }

  lemma UnclosedScan(toks: seq<Token>)
    requires IsUnclosedInput(toks)
    ensures BuildScan(toks, Start) == Ok(State(4, [], [Binary("+", Int(1), Int(2))]))
  {
    UnclosedGroupScan(toks);
    SumGroupCloses(4);
    ParenthesisStep(toks, toks[0], State(1, [], []));
    assert State(1, [], []).(ops := [] + ["("]) == State(1, ["("], []);
    BuildScanStep(toks, State(0, [], []), State(4, [], [Binary("+", Int(1), Int(2))]));
  }

  lemma UnclosedParse(toks: seq<Token>)
    requires IsUnclosedInput(toks)
    ensures Parse(toks) == Ok(Tree(Some(Binary("+", Int(1), Int(2)))))
  {
    UnclosedScan(toks);
  }

  /** `( 1 + 2`: a missing ")" is not reported; the input end closes the
      group. */
  lemma UnclosedParenthesisAccepted()
    ensures Parse([Sym("("), IntTok("1"), Sym("+"), IntTok("2")])
      == Ok(Tree(Some(Binary("+", Int(1), Int(2)))))
  {
    UnclosedParse([Sym("("), IntTok("1"), Sym("+"), IntTok("2")]);
  }

  // ---------------------------------------------------------------------
  // degenerate inputs

  /** `+` alone: no node was pushed, so build returns an empty tree and the
      operator left on its stack is never reported. */
  lemma LoneOperatorGivesEmptyTree()
    ensures Parse([Sym("+")]) == Ok(Tree(None))
  {
    LooseOperatorDefers([Sym("+")], Sym("+"), State(1, [], []));
    assert [] + ["+"] == ["+"];
    BuildScanStep([Sym("+")], State(0, [], []), State(1, ["+"], []));
  }

  predicate IsDanglingProductInput(toks: seq<Token>) {
    toks == [IntTok("2"), Sym("*"), Sym("+")]
  }

  lemma DanglingProductParse(toks: seq<Token>)
    requires IsDanglingProductInput(toks)
    ensures Parse(toks) == Err(EmptyStack)
  {
    SmallLiterals();
    IntegerPushesValue(toks, toks[0], State(1, [], []), 2);
    assert [] + [Int(2)] == [Int(2)];
    BuildScanStep(toks, State(0, [], []), State(1, [], [Int(2)]));
    LooseOperatorDefers(toks, toks[2], State(3, [], []));
    assert [] + ["+"] == ["+"];
    assert Pop([Int(2)]) == [];
    assert toks[1].value[0] in Identifiers.OperatorCharacters;
    assert Handle(toks, toks[1], State(2, [], [Int(2)])) == Err(EmptyStack);
  }

  /** `2 * +`: the right operand's dispatch pushes no node, so the pop for
      it finds the node stack empty. */
  lemma ProductWithoutRightOperand()
    ensures Parse([IntTok("2"), Sym("*"), Sym("+")]) == Err(EmptyStack)
  {
    DanglingProductParse([IntTok("2"), Sym("*"), Sym("+")]);
  }

  predicate IsSwappedInput(toks: seq<Token>) {
    toks == [IntTok("2"), IntTok("3"), Sym("*"), Sym("+"), IntTok("4")]
  }

  lemma SwappedScan(toks: seq<Token>)
    requires IsSwappedInput(toks)
    ensures BuildScan(toks, Start) == BuildScan(toks, State(2, [], [Int(2), Int(3)]))
  {
    SmallLiterals();
    IntegerPushesValue(toks, toks[0], State(1, [], []), 2);
    assert [] + [Int(2)] == [Int(2)];
    BuildScanStep(toks, State(0, [], []), State(1, [], [Int(2)]));
    IntegerPushesValue(toks, toks[1], State(2, [], [Int(2)]), 3);
    assert [Int(2)] + [Int(3)] == [Int(2), Int(3)];
    BuildScanStep(toks, State(1, [], [Int(2)]), State(2, [], [Int(2), Int(3)]));
  }

  lemma SwappedProduct(toks: seq<Token>)
    requires IsSwappedInput(toks)
    ensures BuildScan(toks, State(2, [], [Int(2), Int(3)]))
      == BuildScan(toks, State(4, ["+"], [Binary("*", Int(3), Int(2))]))
  {
    var product := Binary("*", Int(3), Int(2));
    assert [] + [Int(2), Int(3)] == [Int(2), Int(3)];
    TightOperatorTakesOperandFromBelow(toks, toks[2], State(3, [], [Int(2), Int(3)]), [], Int(2), Int(3));
    assert [] + [product] == [product] && [] + ["+"] == ["+"];
    BuildScanStep(toks, State(2, [], [Int(2), Int(3)]), State(4, ["+"], [product]));
  }

  lemma SwappedParse(toks: seq<Token>)
    requires IsSwappedInput(toks)
    ensures Parse(toks) == Ok(Tree(Some(Binary("+", Binary("*", Int(3), Int(2)), Int(4)))))
  {
    var product := Binary("*", Int(3), Int(2));
    SwappedScan(toks);
    SwappedProduct(toks);
    SmallLiterals();
    IntegerPushesValue(toks, toks[4], State(5, ["+"], [product]), 4);
    assert [product] + [Int(4)] == [product, Int(4)];
    BuildScanStep(toks, State(4, ["+"], [product]), State(5, ["+"], [product, Int(4)]));
    FinishFoldsEverything(State(5, ["+"], [product, Int(4)]));
    assert Pop([product, Int(4)]) == [product];
    assert RightChain([product], ["+"], Int(4)) == Binary("+", product, RightChain([], [], Int(4)));
  }

  /** `2 3 * + 4`: the `+` after `*` pushes no node, so `*` takes the node
      below its left operand as its right one and builds `3 * 2`. */
  lemma ProductTakesOperandFromBelow()
    ensures Parse([IntTok("2"), IntTok("3"), Sym("*"), Sym("+"), IntTok("4")])
      == Ok(Tree(Some(Binary("+", Binary("*", Int(3), Int(2)), Int(4)))))
  {
    SwappedParse([IntTok("2"), IntTok("3"), Sym("*"), Sym("+"), IntTok("4")]);
  }
}
