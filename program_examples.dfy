/** Whole lines of the language, from tokens to the store: the parse of
    `let total = 2 + 3 * 4` and what each evaluator makes of it, and short
    sessions where the two evaluators differ. Operators come from a small
    registry of integer addition and multiplication. */
module ProgramExamples {
  import opened Wrappers
  import opened Tokens
  import opened Nodes
  import opened Values
  import opened ParseSpec
  import opened ParseLemmas
  import opened ParseExamples
  import Untyped = TreeEvalSpec
  import Typed = TypedEvalSpec

  function Plus(a: Obj, b: Obj): Option<Obj> {
    if a.IntObj? && b.IntObj? then Some(IntObj(a.i + b.i)) else None
  }

  function Times(a: Obj, b: Obj): Option<Obj> {
    if a.IntObj? && b.IntObj? then Some(IntObj(a.i * b.i)) else None
  }

  const SampleOps: OpMap := map["+" := Plus, "*" := Times]

  // ---------------------------------------------------------------------
  // let total = 2 + 3 * 4

  predicate IsTotalInput(toks: seq<Token>) {
    toks == [Token(Declaration, "let"), Sym("total"), Token(Tokens.Assignment, "="),
             IntTok("2"), Sym("+"), IntTok("3"), Sym("*"), IntTok("4")]
  }

  function TotalDeclaration(): Node { Declare("let", "total", None) }

  function TotalValue(): Node { Binary("+", Int(2), Binary("*", Int(3), Int(4))) }

  lemma TotalDeclares(toks: seq<Token>)
    requires IsTotalInput(toks)
    ensures BuildScan(toks, Start) == BuildScan(toks, State(2, [], [TotalDeclaration()]))
  {
    DeclarationPushesDeclare(toks, toks[0], State(1, [], []));
    assert [] + [TotalDeclaration()] == [TotalDeclaration()];
    BuildScanStep(toks, State(0, [], []), State(2, [], [TotalDeclaration()]));
  }

  lemma TotalScanSum(toks: seq<Token>)
    requires IsTotalInput(toks)
    ensures AssignScan(toks, State(3, ["="], [])) == AssignScan(toks, State(6, ["=", "+"], [Int(2), Int(3)]))
  {
    SmallLiterals();
    IntegerPushesValue(toks, toks[3], State(4, ["="], []), 2);
    assert [] + [Int(2)] == [Int(2)];
    AssignScanStep(toks, State(3, ["="], []), State(4, ["="], [Int(2)]));
    LooseOperatorDefers(toks, toks[4], State(5, ["="], [Int(2)]));
    assert ["="] + ["+"] == ["=", "+"];
    AssignScanStep(toks, State(4, ["="], [Int(2)]), State(5, ["=", "+"], [Int(2)]));
    IntegerPushesValue(toks, toks[5], State(6, ["=", "+"], [Int(2)]), 3);
    assert [Int(2)] + [Int(3)] == [Int(2), Int(3)];
    AssignScanStep(toks, State(5, ["=", "+"], [Int(2)]), State(6, ["=", "+"], [Int(2), Int(3)]));
  }

  lemma TotalScanProduct(toks: seq<Token>)
    requires IsTotalInput(toks)
    ensures AssignScan(toks, State(6, ["=", "+"], [Int(2), Int(3)]))
      == Ok(State(8, ["=", "+"], [Int(2), Binary("*", Int(3), Int(4))]))
  {
    var product := Binary("*", Int(3), Int(4));
    SmallLiterals();
    IntegerPushesValue(toks, toks[7], State(8, ["=", "+"], [Int(2)]), 4);
    assert [Int(2)] + [Int(4)] == [Int(2), Int(4)];
    assert Pop([Int(2), Int(3)]) == [Int(2)];
    TightOperatorBindsNextOperand(toks, toks[6], State(7, ["=", "+"], [Int(2), Int(3)]),
      State(8, ["=", "+"], [Int(2), Int(4)]), Int(4));
    assert [Int(2)] + [product] == [Int(2), product];
    AssignScanStep(toks, State(6, ["=", "+"], [Int(2), Int(3)]), State(8, ["=", "+"], [Int(2), product]));
  }

  lemma TotalAssigns(toks: seq<Token>)
    requires IsTotalInput(toks)
    ensures BuildScan(toks, State(2, [], [TotalDeclaration()]))
      == Ok(State(8, [], [Assign(TotalDeclaration(), TotalValue())]))
  {
    var product := Binary("*", Int(3), Int(4));
    TotalScanSum(toks);
    TotalScanProduct(toks);
    AssignmentStep(toks, toks[2], State(3, [], [TotalDeclaration()]));
    assert State(3, [] + ["="], Pop([TotalDeclaration()])) == State(3, ["="], []);
    AssignmentFoldsToMarker(TotalDeclaration(), 8, [], "+", [], Int(2), product);
    assert [] + ["=", "+"] == ["=", "+"] && [] + [Int(2), product] == [Int(2), product];
    assert [] + [Assign(TotalDeclaration(), TotalValue())] == [Assign(TotalDeclaration(), TotalValue())];
    BuildScanStep(toks, State(2, [], [TotalDeclaration()]), State(8, [], [Assign(TotalDeclaration(), TotalValue())]));
  }

  lemma TotalParse(toks: seq<Token>)
    requires IsTotalInput(toks)
    ensures Parse(toks) == Ok(Tree(Some(Assign(TotalDeclaration(), TotalValue()))))
  {
    TotalDeclares(toks);
    TotalAssigns(toks);
  }

  /** `let total = 2 + 3 * 4` parses to an assignment to a fresh
      declaration whose value groups the product first. */
  lemma TotalLineParses()
    ensures Parse([Token(Declaration, "let"), Sym("total"), Token(Tokens.Assignment, "="),
                   IntTok("2"), Sym("+"), IntTok("3"), Sym("*"), IntTok("4")])
      == Ok(Tree(Some(Assign(Declare("let", "total", None), Binary("+", Int(2), Binary("*", Int(3), Int(4)))))))
  {
    TotalParse([Token(Declaration, "let"), Sym("total"), Token(Tokens.Assignment, "="),
                IntTok("2"), Sym("+"), IntTok("3"), Sym("*"), IntTok("4")]);
  }

  lemma ValueIsFourteen(st: map<string, Obj>, vars: map<string, Variable>)
    ensures Untyped.Evaluate(SampleOps, TotalValue(), st) == Run(Ok(IntObj(14)), st)
    ensures Typed.Evaluate(SampleOps, TotalValue(), vars) == Run(Ok(IntObj(14)), vars)
  {
    assert Untyped.Evaluate(SampleOps, Binary("*", Int(3), Int(4)), st) == Run(Ok(IntObj(12)), st);
    assert Typed.Evaluate(SampleOps, Binary("*", Int(3), Int(4)), vars) == Run(Ok(IntObj(12)), vars);
  }

  /** The untyped evaluator declares `total` and then stores 14 in it. */
  lemma UntypedTotal()
    ensures Untyped.Evaluate(SampleOps, Assign(Declare("let", "total", None), TotalValue()), map[])
      == Run(Ok(IntObj(14)), map["total" := IntObj(14)])
  {
    ValueIsFourteen(map["total" := Null], map[]);
    assert map["total" := Null]["total" := IntObj(14)] == map["total" := IntObj(14)];
  }

  /** The typed evaluator declares `total` as a mutable Int, the type of
      the value, holding 14. */
  lemma TypedTotal()
    ensures Typed.Evaluate(SampleOps, Assign(Declare("let", "total", None), TotalValue()), map[])
      == Run(Ok(IntObj(14)), map["total" := Variable(IntType, true, IntObj(14))])
  {
    ValueIsFourteen(map[], map[]);
  }

  // ---------------------------------------------------------------------
  // sessions where the evaluators differ

  /** Untyped: after `let x`, the line `x + 1` hands null to the addition
      itself, which then fails, instead of the null-operand check firing. */
  lemma UntypedUnassignedOperand()
    ensures Untyped.Evaluate(SampleOps, Declare("let", "x", None), map[]) == Run(Ok(Str("x")), map["x" := Null])
    ensures Untyped.Evaluate(SampleOps, Binary("+", Ident("x"), Int(1)), map["x" := Null])
      == Run(Err(OperatorFailed), map["x" := Null])
  {
  }

  /** Typed: a variable declared with `val` is assigned again without
      complaint; only the type is checked. */
  lemma TypedImmutableReassigned()
    ensures Typed.Evaluate(SampleOps, Assign(Declare("val", "x", Some("Int")), Int(1)), map[])
      == Run(Ok(IntObj(1)), map["x" := Variable(IntType, false, IntObj(1))])
    ensures Typed.Evaluate(SampleOps, Assign(Ident("x"), Int(2)), map["x" := Variable(IntType, false, IntObj(1))])
      == Run(Ok(IntObj(2)), map["x" := Variable(IntType, false, IntObj(2))])
  {
    assert map["x" := Variable(IntType, false, IntObj(1))]["x" := Variable(IntType, false, IntObj(2))]
      == map["x" := Variable(IntType, false, IntObj(2))];
  }

  /** Typed: an Int value cannot go into a String declaration, and nothing
      is declared. */
  lemma TypedDeclarationMismatch()
    ensures Typed.Evaluate(SampleOps, Assign(Declare("let", "s", Some("String")), Int(1)), map[])
      == Run(Err(TypeMismatch), map[])
  {
  }
}
