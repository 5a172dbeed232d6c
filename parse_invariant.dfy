/** The shape invariant of the parse stacks. While the handler chain runs,
    every node on the node stack is well formed and each handler leaves the
    operators below its own entries untouched, adding only "+" and "-"
    (parentheses and assignments pop the marker they pushed). Hence every
    tree `build` returns is well formed. This rests on one assumption about
    the tokenizer: an assignment token is spelt "=". */
module ParseInvariant {
  import opened Wrappers
  import opened Tokens
  import opened Nodes
  import opened ParseSpec
  import Identifiers

  predicate IsLoose(op: string) {
    op == Identifiers.Add || op == Identifiers.Sub
  }

  /** Every operator from index k up is "+" or "-". */
  predicate LooseFrom(ops: seq<string>, k: nat) {
    forall i | k <= i < |ops| :: IsLoose(ops[i])
  }

  predicate AllWellFormed(nodes: seq<Node>) {
    forall i | 0 <= i < |nodes| :: WellFormed(nodes[i])
  }

  /** `after` is `before` with only loose operators pushed on top. */
  predicate ExtendsLoose(before: seq<string>, after: seq<string>) {
    |before| <= |after| && after[..|before|] == before && LooseFrom(after, |before|)
  }

  predicate AssignmentsSpellEquals(toks: seq<Token>) {
    forall i | 0 <= i < |toks| :: toks[i].tag == Tokens.Assignment ==> toks[i].value == Identifiers.Assignment
  }

  predicate Admissible(toks: seq<Token>, t: Token, s: State) {
    && s.pos <= |toks|
    && AssignmentsSpellEquals(toks)
    && (t.tag == Tokens.Assignment ==> t.value == Identifiers.Assignment)
    && AllWellFormed(s.nodes)
  }

  lemma ExtendsLooseTransitive(a: seq<string>, b: seq<string>, c: seq<string>)
    requires ExtendsLoose(a, b) && ExtendsLoose(b, c)
    ensures ExtendsLoose(a, c)
  {
    assert c[..|a|] == c[..|b|][..|a|];
    forall i | |a| <= i < |c| ensures IsLoose(c[i]) {
      if i < |b| {
        assert c[i] == c[..|b|][i] == b[i];
      }
    }
  }

  lemma PopKeepsWellFormed(nodes: seq<Node>)
    requires nodes != [] && AllWellFormed(nodes)
    ensures AllWellFormed(Pop(nodes)) && WellFormed(Top(nodes))
  {
  }

  /** The parenthesis and build folds stop at the first operator below the
      loose ones and combine only well-formed nodes with loose operators. */
  lemma {:induction false} FoldKeepsShape(ops: seq<string>, nodes: seq<Node>, acc: Node, stop: Option<string>, k: nat)
    requires k <= |ops| && LooseFrom(ops, k) && (k > 0 ==> Some(ops[k - 1]) == stop)
    requires AllWellFormed(nodes) && WellFormed(acc)
    ensures var (ops', nodes', acc') := Fold(ops, nodes, acc, stop);
      && k <= |ops'| <= |ops| && ops' == ops[..|ops'|]
      && |nodes'| <= |nodes| && nodes' == nodes[..|nodes'|]
      && AllWellFormed(nodes') && WellFormed(acc')
    decreases |nodes|
  {
    if ops == [] || nodes == [] || Some(Top(ops)) == stop {
    } else {
      assert Top(ops) == ops[|ops| - 1];
      FoldKeepsShape(Pop(ops), Pop(nodes), MergeTwoNodes(Top(nodes), acc, Top(ops)), stop, k);
      var (ops', nodes', acc') := Fold(Pop(ops), Pop(nodes), MergeTwoNodes(Top(nodes), acc, Top(ops)), stop);
      assert ops' == Pop(ops)[..|ops'|] == ops[..|ops'|];
      assert nodes' == Pop(nodes)[..|nodes'|] == nodes[..|nodes'|];
    }
  }

  /** The assignment fold, started above the "=" at index k - 1, stops
      exactly there. */
  lemma {:induction false} FoldToAssignmentKeepsShape(ops: seq<string>, nodes: seq<Node>, acc: Node, k: nat)
    requires 0 < k <= |ops| && LooseFrom(ops, k) && ops[k - 1] == Identifiers.Assignment
    requires AllWellFormed(nodes) && WellFormed(acc)
    ensures FoldToAssignment(ops, nodes, acc).Ok? ==>
      var (ops', nodes', acc') := FoldToAssignment(ops, nodes, acc).value;
      && ops' == ops[..k]
      && |nodes'| <= |nodes| && nodes' == nodes[..|nodes'|]
      && AllWellFormed(nodes') && WellFormed(acc')
    decreases |ops|
  {
    assert Top(ops) == ops[|ops| - 1];
    if Top(ops) == Identifiers.Assignment {
    } else if nodes == [] {
    } else {
      FoldToAssignmentKeepsShape(Pop(ops), Pop(nodes), MergeTwoNodes(Top(nodes), acc, Top(ops)), k);
      var r := FoldToAssignment(Pop(ops), Pop(nodes), MergeTwoNodes(Top(nodes), acc, Top(ops)));
      if r.Ok? {
        var (ops', nodes', acc') := r.value;
        assert nodes' == Pop(nodes)[..|nodes'|] == nodes[..|nodes'|];
      }
    }
  }

  lemma {:induction false} HandleKeepsShape(toks: seq<Token>, t: Token, s: State)
    requires Admissible(toks, t, s)
    ensures Handle(toks, t, s).Ok? ==>
      AllWellFormed(Handle(toks, t, s).value.nodes) && ExtendsLoose(s.ops, Handle(toks, t, s).value.ops)
    decreases |toks| - s.pos, 3
  {
    assert s.ops[..|s.ops|] == s.ops;
    match Select(t)
    case Ok(OperatorRule) => HandleOperatorKeepsShape(toks, t, s);
    case Ok(AssignmentRule) => HandleAssignmentKeepsShape(toks, t, s);
    case _ =>
  }

  /** "(" leaves the operator stack exactly as it found it. */
  lemma {:induction false} HandleOperatorKeepsShape(toks: seq<Token>, t: Token, s: State)
    requires Admissible(toks, t, s)
    ensures HandleOperator(toks, t, s).Ok? ==>
      AllWellFormed(HandleOperator(toks, t, s).value.nodes) && ExtendsLoose(s.ops, HandleOperator(toks, t, s).value.ops)
    ensures HandleOperator(toks, t, s).Ok? && t.value == Identifiers.OpenParenthesis ==>
      HandleOperator(toks, t, s).value.ops == s.ops
    decreases |toks| - s.pos, 2
  {
    assert s.ops[..|s.ops|] == s.ops;
    if t.value == Identifiers.Add || t.value == Identifiers.Sub {
      assert (s.ops + [t.value])[..|s.ops|] == s.ops;
    } else if t.value == Identifiers.Multi || t.value == Identifiers.Divide {
      TightOperatorKeepsShape(toks, t, s);
    } else if t.value == Identifiers.OpenParenthesis {
      ParenthesisKeepsShape(toks, t, s);
    }
  }

  lemma {:induction false} TightOperatorKeepsShape(toks: seq<Token>, t: Token, s: State)
    requires Admissible(toks, t, s)
    requires t.value == Identifiers.Multi || t.value == Identifiers.Divide
    ensures HandleOperator(toks, t, s).Ok? ==>
      AllWellFormed(HandleOperator(toks, t, s).value.nodes) && ExtendsLoose(s.ops, HandleOperator(toks, t, s).value.ops)
    decreases |toks| - s.pos, 1
  {
    if s.pos < |toks| && s.nodes != [] {
      PopKeepsWellFormed(s.nodes);
      HandleKeepsShape(toks, toks[s.pos], State(s.pos + 1, s.ops, Pop(s.nodes)));
      var h := Handle(toks, toks[s.pos], State(s.pos + 1, s.ops, Pop(s.nodes)));
      if h.Ok? && h.value.nodes != [] {
        PopKeepsWellFormed(h.value.nodes);
        var s' := h.value.(nodes := Pop(h.value.nodes) + [Binary(t.value, Top(s.nodes), Top(h.value.nodes))]);
        assert HandleOperator(toks, t, s) == Ok(s');
        assert AllWellFormed(s'.nodes);
      }
    }
  }

  lemma {:induction false} ParenthesisKeepsShape(toks: seq<Token>, t: Token, s: State)
    requires Admissible(toks, t, s)
    requires t.value == Identifiers.OpenParenthesis
    ensures HandleOperator(toks, t, s).Ok? ==>
      AllWellFormed(HandleOperator(toks, t, s).value.nodes) && HandleOperator(toks, t, s).value.ops == s.ops
    decreases |toks| - s.pos, 1
  {
    var base := s.ops + [t.value];
    ParenScanKeepsShape(toks, s.(ops := base));
    var p := ParenScan(toks, s.(ops := base));
    if p.Ok? && p.value.nodes != [] {
      var s1 := p.value;
      PopKeepsWellFormed(s1.nodes);
      assert s1.ops[..|base|] == base;
      assert s1.ops[|base| - 1] == Identifiers.OpenParenthesis;
      FoldKeepsShape(s1.ops, Pop(s1.nodes), Top(s1.nodes), Some(Identifiers.OpenParenthesis), |base|);
      var (ops', nodes', merged) := Fold(s1.ops, Pop(s1.nodes), Top(s1.nodes), Some(Identifiers.OpenParenthesis));
      if ops' != [] && Top(ops') == Identifiers.OpenParenthesis {
        assert Top(ops') == s1.ops[|ops'| - 1];
        assert ops' == base;
        assert Pop(ops') == s.ops;
      }
    }
  }

  lemma {:induction false} ParenScanKeepsShape(toks: seq<Token>, s: State)
    requires s.pos <= |toks| && AssignmentsSpellEquals(toks) && AllWellFormed(s.nodes)
    ensures ParenScan(toks, s).Ok? ==>
      AllWellFormed(ParenScan(toks, s).value.nodes) && ExtendsLoose(s.ops, ParenScan(toks, s).value.ops)
    decreases |toks| - s.pos, 0
  {
    assert s.ops[..|s.ops|] == s.ops;
    if s.pos < |toks| && toks[s.pos].value != Identifiers.ClosingParenthesis {
      HandleKeepsShape(toks, toks[s.pos], s.(pos := s.pos + 1));
      var h := Handle(toks, toks[s.pos], s.(pos := s.pos + 1));
      if h.Ok? {
        ParenScanKeepsShape(toks, h.value);
        if ParenScan(toks, h.value).Ok? {
          ExtendsLooseTransitive(s.ops, h.value.ops, ParenScan(toks, h.value).value.ops);
        }
      }
    }
  }

  /** An assignment leaves the operator stack exactly as it found it and
      pushes an assignment to the target it popped. */
  lemma {:induction false} HandleAssignmentKeepsShape(toks: seq<Token>, t: Token, s: State)
    requires Admissible(toks, t, s) && t.tag == Tokens.Assignment
    ensures HandleAssignment(toks, t, s).Ok? ==>
      var s' := HandleAssignment(toks, t, s).value;
      && AllWellFormed(s'.nodes) && s'.ops == s.ops
      && s'.nodes != [] && Top(s'.nodes).Assign? && Top(s'.nodes).target == Top(s.nodes)
    decreases |toks| - s.pos, 2
  {
    if s.nodes != [] && IsTarget(Top(s.nodes)) {
      var base := s.ops + [t.value];
      PopKeepsWellFormed(s.nodes);
      AssignScanKeepsShape(toks, State(s.pos, base, Pop(s.nodes)));
      var a := AssignScan(toks, State(s.pos, base, Pop(s.nodes)));
      if a.Ok? && a.value.nodes != [] {
        var s1 := a.value;
        PopKeepsWellFormed(s1.nodes);
        assert s1.ops[..|base|] == base;
        assert s1.ops[|base| - 1] == Identifiers.Assignment;
        FoldToAssignmentKeepsShape(s1.ops, Pop(s1.nodes), Top(s1.nodes), |base|);
        var f := FoldToAssignment(s1.ops, Pop(s1.nodes), Top(s1.nodes));
        if f.Ok? {
          var (ops', nodes', value) := f.value;
          assert ops' == base && Pop(ops') == s.ops;
          var s' := State(s1.pos, Pop(ops'), nodes' + [Assign(Top(s.nodes), value)]);
          assert HandleAssignment(toks, t, s) == Ok(s');
          assert AllWellFormed(s'.nodes);
        }
      }
    }
  }

  lemma {:induction false} AssignScanKeepsShape(toks: seq<Token>, s: State)
    requires s.pos <= |toks| && AssignmentsSpellEquals(toks) && AllWellFormed(s.nodes)
    ensures AssignScan(toks, s).Ok? ==>
      AllWellFormed(AssignScan(toks, s).value.nodes) && ExtendsLoose(s.ops, AssignScan(toks, s).value.ops)
    decreases |toks| - s.pos, 1
  {
    assert s.ops[..|s.ops|] == s.ops;
    if s.pos < |toks| && toks[s.pos].tag != NewLine {
      HandleKeepsShape(toks, toks[s.pos], s.(pos := s.pos + 1));
      var h := Handle(toks, toks[s.pos], s.(pos := s.pos + 1));
      if h.Ok? {
        AssignScanKeepsShape(toks, h.value);
        if AssignScan(toks, h.value).Ok? {
          ExtendsLooseTransitive(s.ops, h.value.ops, AssignScan(toks, h.value).value.ops);
        }
      }
    }
  }

  lemma {:induction false} BuildScanKeepsShape(toks: seq<Token>, s: State)
    requires s.pos <= |toks| && AssignmentsSpellEquals(toks) && AllWellFormed(s.nodes)
    ensures BuildScan(toks, s).Ok? ==>
      AllWellFormed(BuildScan(toks, s).value.nodes) && ExtendsLoose(s.ops, BuildScan(toks, s).value.ops)
    decreases |toks| - s.pos
  {
    assert s.ops[..|s.ops|] == s.ops;
    if s.pos < |toks| {
      HandleKeepsShape(toks, toks[s.pos], s.(pos := s.pos + 1));
      var h := Handle(toks, toks[s.pos], s.(pos := s.pos + 1));
      if h.Ok? {
        BuildScanKeepsShape(toks, h.value);
        if BuildScan(toks, h.value).Ok? {
          ExtendsLooseTransitive(s.ops, h.value.ops, BuildScan(toks, h.value).value.ops);
        }
      }
    }
  }

  /** Every tree `build` returns is well formed: assignments assign to a
      name or a declaration, and operator nodes carry "+", "-", "*" or "/". */
  lemma ParsedTreesAreWellFormed(toks: seq<Token>)
    requires AssignmentsSpellEquals(toks)
    ensures Parse(toks).Ok? && Parse(toks).value.root.Some? ==> WellFormed(Parse(toks).value.root.value)
  {
    BuildScanKeepsShape(toks, Start);
    var b := BuildScan(toks, Start);
    if b.Ok? && b.value.nodes != [] {
      PopKeepsWellFormed(b.value.nodes);
      FoldKeepsShape(b.value.ops, Pop(b.value.nodes), Top(b.value.nodes), None, 0);
    }
  }
}
