/**
 * The translation tables: for each physical AZERTY key, the character the
 * QWERTY key in the same position produces, without shift (`Unshifted`) and
 * with shift (`Shifted`). They are the reference definition that the
 * translator's two hash maps are proved to hold once they are built.
 */
module Layout {

  import opened Wrappers
  import opened Keys

  /** The character a key produces on QWERTY in lower case, or `None` for an untranslated key. */
  function Unshifted(k: Key): (r: Option<char>)
    ensures r.Some? <==> Mapped(k)
  {
    match k
    // row 1
    case NumberRow(Sup2) => Some('`')
    case NumberRow(Ampersand) => Some('1')
    case NumberRow(EAccent) => Some('2')
    case NumberRow(QuoteDbl) => Some('3')
    case NumberRow(Quote) => Some('4')
    case NumberRow(LeftParenthesis) => Some('5')
    case NumberRow(Minus) => Some('6')
    case NumberRow(EBacktick) => Some('7')
    case NumberRow(Underscore) => Some('8')
    case NumberRow(CCedilla) => Some('9')
    case NumberRow(ABacktick) => Some('0')
    case NumberRow(RightParenthesis) => Some('-')
    case NumberRow(Equals) => Some('=')
    // row 2
    case TopRow(A) => Some('q')
    case TopRow(Z) => Some('w')
    case TopRow(E) => Some('e')
    case TopRow(R) => Some('r')
    case TopRow(T) => Some('t')
    case TopRow(Y) => Some('y')
    case TopRow(U) => Some('u')
    case TopRow(I) => Some('i')
    case TopRow(O) => Some('o')
    case TopRow(P) => Some('p')
    case TopRow(DeadCircumflex) => Some('[')
    case TopRow(Dollar) => Some(']')
    // row 3
    case HomeRow(Q) => Some('a')
    case HomeRow(S) => Some('s')
    case HomeRow(D) => Some('d')
    case HomeRow(F) => Some('f')
    case HomeRow(G) => Some('g')
    case HomeRow(H) => Some('h')
    case HomeRow(J) => Some('j')
    case HomeRow(K) => Some('k')
    case HomeRow(L) => Some('l')
    case HomeRow(M) => Some(';')
    case HomeRow(UAccent) => Some('\'')
    case HomeRow(Asterisk) => Some('\\')
    // row 4
    case BottomRow(W) => Some('z')
    case BottomRow(X) => Some('x')
    case BottomRow(C) => Some('c')
    case BottomRow(V) => Some('v')
    case BottomRow(B) => Some('b')
    case BottomRow(N) => Some('n')
    case BottomRow(Comma) => Some('m')
    case BottomRow(Semicolon) => Some(',')
    case BottomRow(Colon) => Some('.')
    case BottomRow(ExclamationMark) => Some('/')
    // space bar
    case Space => Some(' ')
    case CapsLock | Shift | Other(_) => None
  }

  /** The character a key produces on QWERTY in upper case, or `None` for an untranslated key. */
  function Shifted(k: Key): (r: Option<char>)
    ensures r.Some? <==> Mapped(k)
  {
    match k
    // row 1
    case NumberRow(Sup2) => Some('~')
    case NumberRow(Ampersand) => Some('!')
    case NumberRow(EAccent) => Some('@')
    case NumberRow(QuoteDbl) => Some('#')
    case NumberRow(Quote) => Some('$')
    case NumberRow(LeftParenthesis) => Some('%')
    case NumberRow(Minus) => Some('^')
    case NumberRow(EBacktick) => Some('&')
    case NumberRow(Underscore) => Some('*')
    case NumberRow(CCedilla) => Some('(')
    case NumberRow(ABacktick) => Some(')')
    case NumberRow(RightParenthesis) => Some('_')
    case NumberRow(Equals) => Some('+')
    // row 2
    case TopRow(A) => Some('Q')
    case TopRow(Z) => Some('W')
    case TopRow(E) => Some('E')
    case TopRow(R) => Some('R')
    case TopRow(T) => Some('T')
    case TopRow(Y) => Some('Y')
    case TopRow(U) => Some('U')
    case TopRow(I) => Some('I')
    case TopRow(O) => Some('O')
    case TopRow(P) => Some('P')
    case TopRow(DeadCircumflex) => Some('{')
    case TopRow(Dollar) => Some('}')
    // row 3
    case HomeRow(Q) => Some('A')
    case HomeRow(S) => Some('S')
    case HomeRow(D) => Some('D')
    case HomeRow(F) => Some('F')
    case HomeRow(G) => Some('G')
    case HomeRow(H) => Some('H')
    case HomeRow(J) => Some('J')
    case HomeRow(K) => Some('K')
    case HomeRow(L) => Some('L')
    case HomeRow(M) => Some(':')
    case HomeRow(UAccent) => Some('"')
    case HomeRow(Asterisk) => Some('|')
    // row 4
    case BottomRow(W) => Some('Z')
    case BottomRow(X) => Some('X')
    case BottomRow(C) => Some('C')
    case BottomRow(V) => Some('V')
    case BottomRow(B) => Some('B')
    case BottomRow(N) => Some('N')
    case BottomRow(Comma) => Some('M')
    case BottomRow(Semicolon) => Some('<')
    case BottomRow(Colon) => Some('>')
    case BottomRow(ExclamationMark) => Some('?')
    // space bar
    case Space => Some(' ')
    case CapsLock | Shift | Other(_) => None
  }

  /**
   * The row a key sits on, in the order the tables are filled: rows 1 to 4
   * from the top of the keyboard, row 5 for the space bar, 0 for a key on no
   * row.
   */
  function Row(k: Key): (row: nat)
    ensures row <= 5
  {
    match k
    case NumberRow(_) => 1
    case TopRow(_) => 2
    case HomeRow(_) => 3
    case BottomRow(_) => 4
    case Space => 5
    case CapsLock | Shift | Other(_) => 0
  }

  /** A key the translator looks up: any named key except the two modifiers. */
  predicate Mapped(k: Key)
  {
    !IsModifier(k) && !k.Other?
  }

  /** The five rows hold exactly the translated keys. */
  lemma RowsHoldMappedKeys(k: Key)
    ensures Mapped(k) <==> Row(k) >= 1
  {
  }

  /** Neither table has an entry for caps-lock or shift. */
  lemma NoModifierEntries(k: Key)
    requires IsModifier(k)
    ensures Unshifted(k) == None && Shifted(k) == None
  {
  }

  /** Wherever the unshifted character is a lower-case letter, the shifted one is the same letter in upper case. */
  lemma LettersShiftToUpperCase(k: Key)
    requires Unshifted(k).Some? && 'a' <= Unshifted(k).value <= 'z'
    ensures Shifted(k) == Some((Unshifted(k).value as int - 'a' as int + 'A' as int) as char)
  {
  }

  /** The space bar produces a space with and without shift. */
  lemma SpaceInBothTables()
    ensures Unshifted(Space) == Some(' ') && Shifted(Space) == Some(' ')
  {
  }

  /** No two keys produce the same lower-case character. */
  lemma UnshiftedInjective(k1: Key, k2: Key)
    requires Unshifted(k1).Some? && Unshifted(k1) == Unshifted(k2)
    ensures k1 == k2
  {
  }

  /** No two keys produce the same upper-case character. */
  lemma ShiftedInjective(k1: Key, k2: Key)
    requires Shifted(k1).Some? && Shifted(k1) == Shifted(k2)
    ensures k1 == k2
  {
  }

  /** The only character both tables can produce is the space, from the space bar. */
  lemma TablesOverlapOnlyAtSpace(k1: Key, k2: Key)
    requires Unshifted(k1).Some? && Unshifted(k1) == Shifted(k2)
    ensures k1 == Space && k2 == Space
  {
  }
}
