/** The symbol convention of the LL(1) front end (grammarLL1/util/util.go):
    upper-case letters are nonterminals, every other character is a terminal. */
module Symbols {

  /** The marker of the empty alternative. */
  const Epsilon: string := "&"

  /** The end-of-input marker that seeds the FOLLOW set of the start symbol. */
  const EndMarker: string := "#"

  /** IsTerminal: false exactly for the upper-case ASCII letters. */
  predicate IsTerminal(a: char)
  {
    a < 'A' || a > 'Z'
  }

  /** The nonterminals are exactly the 26 upper-case letters. */
  lemma NonterminalsAreUpperCase(a: char)
    ensures !IsTerminal(a) <==> a in "ABCDEFGHIJKLMNOPQRSTUVWXYZ"
  {
  }

  /** Both markers, lower-case letters and punctuation are terminals. */
  lemma MarkersAreTerminals()
    ensures IsTerminal(Epsilon[0]) && IsTerminal(EndMarker[0])
    ensures IsTerminal('i') && IsTerminal('(') && IsTerminal(')') && IsTerminal('+')
    ensures !IsTerminal('E') && !IsTerminal('G')
  {
  }
}
