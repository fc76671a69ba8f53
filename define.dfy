/** Character classes and reserved words of the scanner. The Go code matches
    one-character strings against anchored regular expressions; here each
    class is a predicate on characters and a string belongs to a class
    exactly when it is one character long and that character does. */
module Define {

  predicate LetterChar(ch: char)
  {
    ch == '_' || 'a' <= ch <= 'z' || 'A' <= ch <= 'Z'
  }

  predicate DigitChar(ch: char)
  {
    '0' <= ch <= '9'
  }

  predicate OperatorChar(ch: char)
  {
    ch in "+-*<>=!&|^%/;:"
  }

  /** `^[_a-zA-Z]$` */
  predicate IsLetter(c: string)
  {
    |c| == 1 && LetterChar(c[0])
  }

  /** `^[0-9]$` */
  predicate IsNumber(c: string)
  {
    |c| == 1 && DigitChar(c[0])
  }

  /** `^[_a-zA-Z0-9]$` */
  predicate IsLiteral(c: string)
  {
    |c| == 1 && (c[0] == '_' || 'a' <= c[0] <= 'z' || 'A' <= c[0] <= 'Z' || '0' <= c[0] <= '9')
  }

  /** `^[()]$` */
  predicate IsBracket(c: string)
  {
    c == "(" || c == ")"
  }

  /** `^[+\-*<>=!&|^%/;:]$` */
  predicate IsOperator(c: string)
  {
    |c| == 1 && OperatorChar(c[0])
  }

  /** `^['"]$` */
  predicate IsStringWrap(c: string)
  {
    c == "'" || c == "\""
  }

  const KeyWords: set<string> := {"begin", "end", "if", "then", "else", "for", "while", "do", "and", "or", "not"}

  const KeyTypes: set<string> := {"int", "float", "double", "byte", "string"}

  predicate IsKeyword(key: string)
  {
    key in KeyWords
  }

  predicate IsKeyTypes(key: string)
  {
    key in KeyTypes
  }

  /** Both a line feed and a tab count as a line break for the position counters. */
  predicate IsNewLine(c: string)
  {
    c == "\n" || c == "\t"
  }

  /** The anchored patterns accept one-character strings only. */
  lemma OneCharacterOnly(c: string)
    requires IsLetter(c) || IsNumber(c) || IsLiteral(c) || IsBracket(c) || IsOperator(c) || IsStringWrap(c) || IsNewLine(c)
    ensures |c| == 1
  {
  }

  /** The literal class is the union of the letter and digit classes, which do not overlap. */
  lemma LiteralIsLetterOrNumber(c: string)
    ensures IsLiteral(c) <==> IsLetter(c) || IsNumber(c)
    ensures !(IsLetter(c) && IsNumber(c))
  {
  }

  /** The operator class lists exactly fourteen characters; comma and dot are not among them. */
  lemma OperatorClass(c: string)
    ensures IsOperator(c) <==> c in {"+", "-", "*", "<", ">", "=", "!", "&", "|", "^", "%", "/", ";", ":"}
    ensures !IsOperator(",") && !IsOperator(".")
  {
    if |c| == 1 {
      assert c == [c[0]];
    }
  }

  /** Letters, digits, operators, brackets, quotes and line breaks are pairwise
      distinct classes, and the end marker `$` belongs to none of them. */
  lemma ClassesDisjoint(c: string)
    ensures IsLiteral(c) ==> !IsOperator(c) && !IsBracket(c) && !IsStringWrap(c) && !IsNewLine(c)
    ensures IsOperator(c) ==> !IsBracket(c) && !IsStringWrap(c) && !IsNewLine(c)
    ensures IsBracket(c) ==> !IsStringWrap(c) && !IsNewLine(c)
    ensures IsStringWrap(c) ==> !IsNewLine(c)
    ensures c == "$" ==> !IsLiteral(c) && !IsOperator(c) && !IsBracket(c) && !IsStringWrap(c) && !IsNewLine(c)
  {
  }

  /** No word is both a keyword and a type name. */
  lemma ReservedWordsDisjoint()
    ensures KeyWords !! KeyTypes
  {
  }

  /** Five distinct type names. */
  lemma TypeCount()
    ensures |KeyTypes| == 5
  {
  }
}
