/**
 * The text area the translator writes into, reduced to what the translator
 * uses of it: the text, the caret offset, reading the caret and inserting a
 * string at an offset.
 */
module TextSink {

  /** `text` with `s` spliced in at offset `pos`. */
  function Inserted(text: string, pos: nat, s: string): (r: string)
    requires pos <= |text|
    ensures |r| == |text| + |s|
    ensures r[..pos] == text[..pos]
    ensures r[pos..pos + |s|] == s
    ensures r[pos + |s|..] == text[pos..]
  {
    text[..pos] + s + text[pos..]
  }

  class TextArea {
    var text: string
    var caret: nat

    /** The caret is an offset into the text, at most its length. */
    ghost predicate Valid()
      reads this
    {
      caret <= |text|
    }

    constructor (initialText: string, initialCaret: nat)
      requires initialCaret <= |initialText|
      ensures Valid()
      ensures text == initialText && caret == initialCaret
    {
      text := initialText;
      caret := initialCaret;
    }

    /** Where the next insertion goes: an offset between the start and the end of the text. */
    function GetCaretPosition(): (pos: nat)
      reads this
      requires Valid()
      ensures pos <= |text|
    {
      caret
    }

    /**
     * Inserts `s` at offset `pos`. Where the caret goes afterwards is up to
     * the host toolkit; it stays a valid offset.
     */
    method Insert(s: string, pos: nat)
      requires Valid()
      requires pos <= |text|
      modifies this
      ensures Valid()
      ensures text == Inserted(old(text), pos, s)
    {
      text := Inserted(text, pos, s);
    }
  }
}
