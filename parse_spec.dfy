/** The parser of AST.java as functions: what one dispatch of a token
    through the handler chain does to the parse state, and what `build`
    returns. The class `AstBuilder.Parser` carries out the same steps on
    mutable stacks and is proved to agree with these definitions. */
module ParseSpec {
  import opened Wrappers
  import opened Tokens
  import opened Nodes
  import Identifiers

  /** Failures of the parser, by kind. */
  datatype ParseError =
    | UnsupportedToken          // DefaultHandler: "not support token"
    | UnsupportedOperator       // OperatorHandler: "not support operator"
    | EmptyIdentifierText       // `charAt(0)` of an empty identifier throws
    | MalformedNumber           // Integer.parseInt throws
    | MissingRightOperand       // "*(multiply) doesn't have right side"
    | MissingLeftOperand        // "*(multiply) left side not exists"
    | EmptyParenthesis          // ") (closing parenthesis) has no content"
    | UnbalancedParenthesis     // "error at processing parenthesise"
    | AssignmentNoTarget        // "assignment has no variable or declare expression"
    | AssignmentNoValue         // "assignment has no value expression"
    | DeclarationNoIdentifier   // "declaration has no right identifier"
    | InvalidType               // "<text> is not a valid type"
    | PastEnd                   // the scanner's next() with nothing left
    | EmptyStack                // Stack.pop() on an empty stack
    | ExpressionWrong           // build: "expression wrong"

  /** The scanner position and the two stacks; a stack's top is the last
      element of its sequence. */
  datatype State = State(pos: nat, ops: seq<string>, nodes: seq<Node>)

  /** The seven handlers, in the order the chain tries them. */
  datatype Rule =
    | NumberRule
    | OperatorRule
    | AssignmentRule
    | DeclarationRule
    | VariableNameRule
    | LiteralRule
    | DefaultRule

  function Top<T>(s: seq<T>): T
    requires |s| > 0
  {
    s[|s| - 1]
  }

  function Pop<T>(s: seq<T>): seq<T>
    requires |s| > 0
  {
    s[..|s| - 1]
  }

  // ---------------------------------------------------------------------
  // canHandle of each handler

  predicate NumberCanHandle(t: Token) {
    t.tag == IntLiteral || t.tag == DoubleLiteral
  }

  /** Only the first character of the text is looked at. */
  predicate OperatorCanHandle(t: Token) {
    t.tag == Identifier && |t.value| > 0 &&
    (t.value[0] in Identifiers.CommonIdentifiers || t.value[0] in Identifiers.OperatorCharacters)
  }

  predicate AssignmentCanHandle(t: Token) {
    t.tag == Tokens.Assignment
  }

  predicate DeclarationCanHandle(t: Token) {
    t.tag == Declaration
  }

  predicate VariableNameCanHandle(t: Token) {
    t.tag == Identifier && forall i | 0 <= i < |t.value| :: t.value[i] in Identifiers.IdentifierCharacters
  }

  predicate LiteralCanHandle(t: Token) {
    t.tag == Literal
  }

  predicate CanHandle(rule: Rule, t: Token) {
    match rule
    case NumberRule => NumberCanHandle(t)
    case OperatorRule => OperatorCanHandle(t)
    case AssignmentRule => AssignmentCanHandle(t)
    case DeclarationRule => DeclarationCanHandle(t)
    case VariableNameRule => VariableNameCanHandle(t)
    case LiteralRule => LiteralCanHandle(t)
    case DefaultRule => true
  }

  function Rank(rule: Rule): nat {
    match rule
    case NumberRule => 0
    case OperatorRule => 1
    case AssignmentRule => 2
    case DeclarationRule => 3
    case VariableNameRule => 4
    case LiteralRule => 5
    case DefaultRule => 6
  }

  /** BaseHandler.handle walking the chain: the first handler whose
      canHandle holds. An identifier with empty text makes the operator
      handler's canHandle throw before any later handler is asked. */
  function Select(t: Token): Result<Rule, ParseError> {
    if NumberCanHandle(t) then Ok(NumberRule)
    else if t.tag == Identifier && t.value == [] then Err(EmptyIdentifierText)
    else if OperatorCanHandle(t) then Ok(OperatorRule)
    else if AssignmentCanHandle(t) then Ok(AssignmentRule)
    else if DeclarationCanHandle(t) then Ok(DeclarationRule)
    else if VariableNameCanHandle(t) then Ok(VariableNameRule)
    else if LiteralCanHandle(t) then Ok(LiteralRule)
    else Ok(DefaultRule)
  }

  // ---------------------------------------------------------------------
  // the folds

  /** The fold of `build` (stop = None) and of a closing parenthesis
      (stop = Some("(")): while both stacks are non-empty and the operator
      on top is not `stop`, pop the newest operator and the next node and
      make them the operator and left operand over the accumulator. */
  function Fold(ops: seq<string>, nodes: seq<Node>, acc: Node, stop: Option<string>)
    : (seq<string>, seq<Node>, Node)
    decreases |nodes|
  {
    if ops == [] || nodes == [] || Some(Top(ops)) == stop then (ops, nodes, acc)
    else Fold(Pop(ops), Pop(nodes), MergeTwoNodes(Top(nodes), acc, Top(ops)), stop)
  }

  /** The fold of an assignment: pop until the operator on top is "=";
      a node stack that runs out first is an empty-stack pop. */
  function FoldToAssignment(ops: seq<string>, nodes: seq<Node>, acc: Node)
    : Result<(seq<string>, seq<Node>, Node), ParseError>
    decreases |ops|
  {
    if ops == [] || Top(ops) == Identifiers.Assignment then Ok((ops, nodes, acc))
    else if nodes == [] then Err(EmptyStack)
    else FoldToAssignment(Pop(ops), Pop(nodes), MergeTwoNodes(Top(nodes), acc, Top(ops)))
  }

  // ---------------------------------------------------------------------
  // the handlers; `s.pos` is already past the token `t` being handled

  function Handle(toks: seq<Token>, t: Token, s: State): (r: Result<State, ParseError>)
    requires s.pos <= |toks|
    ensures r.Ok? ==> s.pos <= r.value.pos <= |toks|
    decreases |toks| - s.pos, 3
  {
    match Select(t)
    case Err(e) => Err(e)
    case Ok(NumberRule) =>
      if t.tag == IntLiteral then
        match ParseInt(t.value)
        case None => Err(MalformedNumber)
        case Some(n) => Ok(s.(nodes := s.nodes + [Val(IntNum(n))]))
      else
        Ok(s.(nodes := s.nodes + [Val(DoubleNum(t.value))]))
    case Ok(OperatorRule) => HandleOperator(toks, t, s)
    case Ok(AssignmentRule) => HandleAssignment(toks, t, s)
    case Ok(DeclarationRule) => HandleDeclaration(toks, t, s)
    case Ok(VariableNameRule) => Ok(s.(nodes := s.nodes + [Ident(t.value)]))
    case Ok(LiteralRule) => Ok(s.(nodes := s.nodes + [StrLit(t.value)]))
    case Ok(DefaultRule) => Err(UnsupportedToken)
  }

  /** OperatorHandler.doHandle. */
  function HandleOperator(toks: seq<Token>, t: Token, s: State): (r: Result<State, ParseError>)
    requires s.pos <= |toks|
    ensures r.Ok? ==> s.pos <= r.value.pos <= |toks|
    decreases |toks| - s.pos, 2
  {
    if t.value == Identifiers.Add || t.value == Identifiers.Sub then
      Ok(s.(ops := s.ops + [t.value]))
    else if t.value == Identifiers.Multi || t.value == Identifiers.Divide then
      if s.pos == |toks| then Err(MissingRightOperand)
      else if s.nodes == [] then Err(MissingLeftOperand)
      else
        var left := Top(s.nodes);
        var s1 :- Handle(toks, toks[s.pos], State(s.pos + 1, s.ops, Pop(s.nodes)));
        if s1.nodes == [] then Err(EmptyStack)
        else Ok(s1.(nodes := Pop(s1.nodes) + [Binary(t.value, left, Top(s1.nodes))]))
    else if t.value == Identifiers.OpenParenthesis then
      var s1 :- ParenScan(toks, s.(ops := s.ops + [t.value]));
      CloseParenthesis(s1)
    else
      Err(UnsupportedOperator)
  }

  /** The tokens after "(": each is dispatched until one whose text is ")"
      is taken, or the input ends. */
  function ParenScan(toks: seq<Token>, s: State): (r: Result<State, ParseError>)
    requires s.pos <= |toks|
    ensures r.Ok? ==> s.pos <= r.value.pos <= |toks|
    decreases |toks| - s.pos, 1
  {
    if s.pos == |toks| then Ok(s)
    else
      var t := toks[s.pos];
      if t.value == Identifiers.ClosingParenthesis then Ok(s.(pos := s.pos + 1))
      else
        var s1 :- Handle(toks, t, s.(pos := s.pos + 1));
        ParenScan(toks, s1)
  }

  /** The end of the parenthesis rule: fold down to the marker, then pop
      the marker and push the folded node. */
  function CloseParenthesis(s: State): Result<State, ParseError> {
    if s.nodes == [] then Err(EmptyParenthesis)
    else
      var (ops, nodes, merged) := Fold(s.ops, Pop(s.nodes), Top(s.nodes), Some(Identifiers.OpenParenthesis));
      if ops == [] || Top(ops) != Identifiers.OpenParenthesis then Err(UnbalancedParenthesis)
      else Ok(State(s.pos, Pop(ops), nodes + [merged]))
  }

  /** AssignmentHandler.doHandle. */
  function HandleAssignment(toks: seq<Token>, t: Token, s: State): (r: Result<State, ParseError>)
    requires s.pos <= |toks|
    ensures r.Ok? ==> s.pos <= r.value.pos <= |toks|
    decreases |toks| - s.pos, 2
  {
    if s.nodes == [] || !IsTarget(Top(s.nodes)) then Err(AssignmentNoTarget)
    else
      var s1 :- AssignScan(toks, State(s.pos, s.ops + [t.value], Pop(s.nodes)));
      CloseAssignment(Top(s.nodes), s1)
  }

  /** The tokens after "=": each is dispatched until a newline token is
      taken, or the input ends. */
  function AssignScan(toks: seq<Token>, s: State): (r: Result<State, ParseError>)
    requires s.pos <= |toks|
    ensures r.Ok? ==> s.pos <= r.value.pos <= |toks|
    decreases |toks| - s.pos, 1
  {
    if s.pos == |toks| then Ok(s)
    else
      var t := toks[s.pos];
      if t.tag == NewLine then Ok(s.(pos := s.pos + 1))
      else
        var s1 :- Handle(toks, t, s.(pos := s.pos + 1));
        AssignScan(toks, s1)
  }

  /** The end of the assignment rule: fold down to "=", push the
      assignment, pop the "=". */
  function CloseAssignment(target: Node, s: State): Result<State, ParseError> {
    if s.nodes == [] then Err(AssignmentNoValue)
    else
      var (ops, nodes, value) :- FoldToAssignment(s.ops, Pop(s.nodes), Top(s.nodes));
      if ops == [] then Err(EmptyStack)
      else Ok(State(s.pos, Pop(ops), nodes + [Assign(target, value)]))
  }

  /** DeclarationHandler.doHandle: keyword, name, and optionally ":" and a
      type name. Only the name token's tag is checked, not its text. */
  function HandleDeclaration(toks: seq<Token>, t: Token, s: State): (r: Result<State, ParseError>)
    requires s.pos <= |toks|
    ensures r.Ok? ==> s.pos <= r.value.pos <= |toks|
  {
    if s.pos == |toks| then Err(PastEnd)
    else if toks[s.pos].tag != Identifier then Err(DeclarationNoIdentifier)
    else
      var name := toks[s.pos].value;
      var p := s.pos + 1;
      if p < |toks| && toks[p].value == Identifiers.Colon then
        if p + 1 < |toks| && toks[p + 1].tag != Identifier then Err(InvalidType)
        else if p + 1 == |toks| then Err(PastEnd)
        else Ok(State(p + 2, s.ops, s.nodes + [Declare(t.value, name, Some(toks[p + 1].value))]))
      else
        Ok(State(p, s.ops, s.nodes + [Declare(t.value, name, None)]))
  }

  // ---------------------------------------------------------------------
  // build(Scanner)

  /** The main loop of `build`: dispatch every token in turn. */
  function BuildScan(toks: seq<Token>, s: State): (r: Result<State, ParseError>)
    requires s.pos <= |toks|
    ensures r.Ok? ==> r.value.pos == |toks|
    decreases |toks| - s.pos
  {
    if s.pos == |toks| then Ok(s)
    else
      var s1 :- Handle(toks, toks[s.pos], s.(pos := s.pos + 1));
      BuildScan(toks, s1)
  }

  /** The end of `build`: no node means no root; otherwise fold everything,
      and anything left on either stack is an error. */
  function Finish(s: State): Result<Tree, ParseError> {
    if s.nodes == [] then Ok(Tree(None))
    else
      var (ops, nodes, root) := Fold(s.ops, Pop(s.nodes), Top(s.nodes), None);
      if nodes != [] || ops != [] then Err(ExpressionWrong)
      else Ok(Tree(Some(root)))
  }

  const Start := State(0, [], [])

  /** build(Scanner) over the whole token sequence. */
  function Parse(toks: seq<Token>): Result<Tree, ParseError> {
    var s :- BuildScan(toks, Start);
    Finish(s)
  }
}
