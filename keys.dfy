/**
 * Key identifiers and key events as the translator sees them.
 *
 * The translator compares integer key codes against the AWT `KeyEvent.VK_*`
 * constants and against six extended codes of its own. The integer values of
 * the `VK_*` constants belong to the host toolkit, so a key is modelled here as
 * an enumeration of the keys the translator names, plus `Other` for every key
 * code it does not name.
 */
module Keys {

  import opened Wrappers

  /**
   * A key, grouped as the translation tables are filled: row by row on the
   * keyboard, then the space bar.
   */
  datatype Key =
    // modifier keys
    | CapsLock | Shift
    // the four rows of character keys, from the top
    | NumberRow(n: NumberRowKey)
    | TopRow(t: TopRowKey)
    | HomeRow(h: HomeRowKey)
    | BottomRow(b: BottomRowKey)
    // space bar
    | Space
    // any key code not named above
    | Other(code: int)

  // row 1 of the AZERTY keyboard
  datatype NumberRowKey =
    | Sup2 | Ampersand | EAccent | QuoteDbl | Quote | LeftParenthesis | Minus
    | EBacktick | Underscore | CCedilla | ABacktick | RightParenthesis | Equals

  // row 2
  datatype TopRowKey = A | Z | E | R | T | Y | U | I | O | P | DeadCircumflex | Dollar

  // row 3
  datatype HomeRowKey = Q | S | D | F | G | H | J | K | L | M | UAccent | Asterisk

  // row 4
  datatype BottomRowKey = W | X | C | V | B | N | Comma | Semicolon | Colon | ExclamationMark

  /** A key event carries both codes the handlers read: `getExtendedKeyCode()` and `getKeyCode()`. */
  datatype KeyEvent = KeyEvent(extendedKeyCode: Key, keyCode: Key)

  /** True for the two keys that change the keyboard state instead of producing a character. */
  predicate IsModifier(k: Key)
  {
    k == CapsLock || k == Shift
  }

  /**
   * The six keys of the AZERTY layout that have no standard `VK_*` constant
   * and are recognised by their extended key code (the translator's EVK_*
   * constants); `None` for every other key.
   */
  function ExtendedCode(k: Key): Option<int>
  {
    match k
    case NumberRow(Sup2) => Some(16777394)       // superscript 2
    case NumberRow(EAccent) => Some(16777449)    // e acute
    case NumberRow(EBacktick) => Some(16777448)  // e grave
    case NumberRow(CCedilla) => Some(16777415)   // c cedilla
    case NumberRow(ABacktick) => Some(16777440)  // a grave
    case HomeRow(UAccent) => Some(16777465)      // u grave
    case _ => None
  }

  /**
   * A key as a key event reports it. Each of the six accented keys has a
   * single code, so it is reported as that key and never as `Other` of its
   * extended code.
   */
  ghost predicate Canonical(k: Key)
  {
    k.Other? ==> forall n: Key :: ExtendedCode(n) != Some(k.code)
  }

  /**
   * The extended codes identify their keys: no two of the six keys share a
   * code, and every code lies in the extended range (at or above 0x0100_0000),
   * above every standard key code.
   */
  lemma ExtendedCodesDistinct(k1: Key, k2: Key)
    requires ExtendedCode(k1).Some? && ExtendedCode(k2).Some?
    ensures ExtendedCode(k1).value >= 0x0100_0000
    ensures ExtendedCode(k1) == ExtendedCode(k2) ==> k1 == k2
  {
  }
}
