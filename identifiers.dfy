/** The constant strings and character classes of Identifiers.java.
    The static initialiser fills the sets once; afterwards they are only
    read, so here they are constant set expressions. */
module Identifiers {

  const Add := "+"
  const Sub := "-"
  const Multi := "*"
  const Divide := "/"
  const OpenParenthesis := "("
  const ClosingParenthesis := ")"
  const NewLine := "\r\n"
  const Assignment := "="
  const Equals := "=="
  /** Keyword of an immutable declaration. */
  const ConstDeclaration := "val"
  /** Keyword of a mutable declaration. */
  const VarDeclaration := "let"
  /** The declaration rule compares with `Identifiers.Colon`, which
      Identifiers.java does not declare; ":" is its evident value. */
  const Colon := ":"

  /** builtinIdentifiers: the operator and parenthesis spellings. */
  const BuiltinIdentifiers: set<string> :=
    {Add, Sub, Multi, Divide, OpenParenthesis, ClosingParenthesis, Equals}

  /** operatorCharacters: first characters of operator identifiers. */
  const OperatorCharacters: set<char> :=
    {'+', '-', '*', '/', ':', '?', '%', '>', '<', '|', '^', '&', '~'}

  /** commonIdentifiers: parentheses and the assignment sign. */
  const CommonIdentifiers: set<char> := {'(', ')', '='}

  /** identifiers: the 26 lower-case letters, their 26 upper-case
      counterparts (built from an index range 0..25, as the source does)
      and the underscore. */
  const IdentifierCharacters: set<char> :=
    (set k | 0 <= k < 26 :: ('a' as int + k) as char)
    + (set k | 0 <= k < 26 :: ('A' as int + k) as char)
    + {'_'}

  predicate IsLetterOrUnderscore(c: char) {
    ('a' <= c <= 'z') || ('A' <= c <= 'Z') || c == '_'
  }

  /** The index-range construction yields exactly the ASCII letters and `_`. */
  lemma IdentifierCharactersExactly(c: char)
    ensures c in IdentifierCharacters <==> IsLetterOrUnderscore(c)
  {
    if 'a' <= c <= 'z' {
      var k := c as int - 'a' as int;
      assert ('a' as int + k) as char == c;
    } else if 'A' <= c <= 'Z' {
      var k := c as int - 'A' as int;
      assert ('A' as int + k) as char == c;
    }
  }

  /** The three character classes never overlap, so a character decides its
      class on its own. */
  lemma CharacterClassesDisjoint()
    ensures IdentifierCharacters !! CommonIdentifiers
    ensures IdentifierCharacters !! OperatorCharacters
    ensures CommonIdentifiers !! OperatorCharacters
  {
    forall c | c in IdentifierCharacters
      ensures c !in CommonIdentifiers && c !in OperatorCharacters
    {
      IdentifierCharactersExactly(c);
    }
  }

  lemma BuiltinHoldsEqualityNotAssignment()
    ensures Equals in BuiltinIdentifiers
    ensures Assignment !in BuiltinIdentifiers
  {
  }

  lemma DeclarationKeywordsDistinct()
    ensures ConstDeclaration != VarDeclaration
  {
  }
}
