# AZERTY-to-QWERTY translator, modelled in Dafny

This project models the key listener `Translator` from IGN-Code-Foo-2016.
The listener is attached to a text area. The user types on an AZERTY
keyboard, and the listener writes into the text area the character the key
in the same position would give on a QWERTY keyboard.

The listener tracks two flags, `capsLockOn` and `shiftOn`:

- Pressing caps-lock flips `capsLockOn`. Pressing shift sets `shiftOn`.
  Releasing shift clears it.
- Any other key pressed is looked up in one of two hash maps, the one
  without shift or the one with shift. The map depends on whether exactly
  one of the two flags is on.
- A character found there is inserted at the text area's caret.
- Key-typed notifications are swallowed.

The project has five modules:

- `Wrappers` (`wrappers.dfy`): `Option`, standing for a Java reference that
  may be null.
- `Keys` (`keys.dfy`): the keys the listener names. They are grouped by
  keyboard row, the order in which the tables are filled. `Other(code)`
  covers every other key code. Also here: the key event with its extended
  and plain key codes, and the six extended codes of the accented AZERTY
  keys.
- `Layout` (`layout.dfy`): the two translation tables as reference functions
  `Unshifted` and `Shifted`, and what is proved about them.
- `TextSink` (`text_sink.dfy`): the text area, reduced to its text, its
  caret, reading the caret and inserting at an offset.
- `Translation` (`translator.dfy`): two parts.
  - A state-machine specification of the listener: `Step` and `Output` for
    one event, `Run` for a sequence of events, with lemmas about them.
  - The class `Translator`, with the Java class's fields and handlers. Each
    handler is proved to follow `Step` and `Output`.

The two maps are class fields filled by successive updates, one per `put` in
the source. The fill is split into one helper method per keyboard row. Each
helper is proved to put that row's entries and keep every other key.
`Translation.RowsMakeTable` then shows that the five rows together give
exactly the reference table.

The table sizes follow the code: each table has 48 entries (13 + 12 + 12 +
10 keys on the four rows, plus the space bar). The comment at
test/src/test/Translator.java:18-19 expects around 45 items.

## Model

| member | source | states |
|---|---|---|
| Keys.ExtendedCodesDistinct | test/src/test/Translator.java:23-28 | the six extended key codes are pairwise distinct and all lie at or above 0x0100_0000 |
| Layout.Unshifted | test/src/test/Translator.java:185-240 | the table without shift, entry by entry as the puts give it; it has an entry exactly for the translated keys: every named key except caps-lock and shift |
| Layout.Shifted | test/src/test/Translator.java:244-299 | the table with shift, entry by entry as the puts give it; it has an entry for exactly the same keys as the table without shift |
| Layout.NoModifierEntries | test/src/test/Translator.java:185-299 | neither table has an entry for caps-lock or shift |
| Layout.RowsHoldMappedKeys | test/src/test/Translator.java:181-240 | the translated keys are exactly the keys on the four rows and the space bar |
| Layout.LettersShiftToUpperCase | test/src/test/Translator.java:185-299 | where the table without shift gives a lower-case letter, the table with shift gives the same letter in upper case |
| Layout.SpaceInBothTables | test/src/test/Translator.java:298-299 | the space bar gives a space with shift and without it (line 240) |
| Layout.UnshiftedInjective | test/src/test/Translator.java:185-240 | no two keys give the same character without shift |
| Layout.ShiftedInjective | test/src/test/Translator.java:244-299 | no two keys give the same character with shift |
| Layout.TablesOverlapOnlyAtSpace | test/src/test/Translator.java:185-299 | the only character both tables can give is the space, and only from the space bar |
| TextSink.Inserted | test/src/test/Translator.java:169 | inserting `s` at `pos` keeps the text before `pos`, then has `s`, then the rest of the old text; the length grows by `|s|` |
| TextSink.TextArea.GetCaretPosition | test/src/test/Translator.java:166 | the caret is an offset between the start and the end of the text |
| TextSink.TextArea.Insert | test/src/test/Translator.java:169 | the new text is the old text with `s` spliced in at `pos`; the caret stays a valid offset |
| Translation.Step | test/src/test/Translator.java:72-140 | the flags after one event: caps-lock changes exactly on a caps-lock press, and shift changes only on a shift press or a shift release |
| Translation.Output | test/src/test/Translator.java:72-109 | the character one event writes: there is one exactly for a press of a translated key |
| Translation.Lookup | test/src/test/Translator.java:100-104 | `Map.get`: a value exactly when the key is in the map, and then the stored one; `None` where Java returns null |
| Translation.CapsLockPress | test/src/test/Translator.java:81-88 | a caps-lock press flips caps-lock, leaves shift alone, inverts the case and writes nothing |
| Translation.CapsLockTwice | test/src/test/Translator.java:81-88 | two caps-lock presses restore the keyboard state |
| Translation.ShiftPress | test/src/test/Translator.java:90-96 | a shift press turns shift on, leaves caps-lock alone and writes nothing |
| Translation.Release | test/src/test/Translator.java:118-128 | releasing shift turns shift off, releasing any other key changes nothing, and no release writes |
| Translation.TypedIsInert | test/src/test/Translator.java:138-140 | a key-typed notification changes nothing and writes nothing |
| Translation.OrdinaryPress | test/src/test/Translator.java:98-108 | any other key press leaves the state alone and writes the shifted table's character in upper case, the unshifted one's otherwise; it writes exactly when the key is translated |
| Translation.CapsLockParity | test/src/test/Translator.java:81-88 | after any event sequence, caps-lock equals its start value flipped once per caps-lock press |
| Translation.ShiftFollowsLastChange | test/src/test/Translator.java:72-128 | after any event sequence, shift is as the last shift press or release left it, or as it started if there was none |
| Translation.TypedRunIsInert | test/src/test/Translator.java:138-140 | a sequence of key-typed notifications never changes the state |
| Translation.CaseScenario | test/src/test/Translator.java:143-155 | from lower case: shift down gives upper case, shift up lower case, caps-lock upper case, then shift down lower case |
| Translation.RowsMakeTable | test/src/test/Translator.java:178-300 | filling an empty map row by row, each step putting one row and keeping the rest, gives exactly the reference table |
| Translation.FilledTablesShareDomain | test/src/test/Translator.java:178-300 | the two filled maps have the same key set: the translated keys |
| Translation.Translator.constructor | test/src/test/Translator.java:49-62 | the new translator has both tables filled, caps-lock as given, shift off, and the given text area |
| Translation.Translator.InitializeTranslationMap | test/src/test/Translator.java:178-300 | starting from two empty maps, the maps afterwards agree key by key with the reference tables and have the same key set |
| Translation.Translator.PutUnshiftedRow1 | test/src/test/Translator.java:185-197 | the map gets row 1's unshifted entries and every other key keeps its entry |
| Translation.Translator.PutUnshiftedRow2 | test/src/test/Translator.java:200-211 | the map gets row 2's unshifted entries and every other key keeps its entry |
| Translation.Translator.PutUnshiftedRow3 | test/src/test/Translator.java:214-225 | the map gets row 3's unshifted entries and every other key keeps its entry |
| Translation.Translator.PutUnshiftedRow4 | test/src/test/Translator.java:228-237 | the map gets row 4's unshifted entries and every other key keeps its entry |
| Translation.Translator.PutUnshiftedRow5 | test/src/test/Translator.java:240 | the map gets the space bar's unshifted entry and every other key keeps its entry |
| Translation.Translator.PutShiftedRow1 | test/src/test/Translator.java:244-256 | the shift map gets row 1's shifted entries and every other key keeps its entry |
| Translation.Translator.PutShiftedRow2 | test/src/test/Translator.java:259-270 | the shift map gets row 2's shifted entries and every other key keeps its entry |
| Translation.Translator.PutShiftedRow3 | test/src/test/Translator.java:273-284 | the shift map gets row 3's shifted entries and every other key keeps its entry |
| Translation.Translator.PutShiftedRow4 | test/src/test/Translator.java:287-296 | the shift map gets row 4's shifted entries and every other key keeps its entry |
| Translation.Translator.PutShiftedRow5 | test/src/test/Translator.java:299 | the shift map gets the space bar's shifted entry and every other key keeps its entry |
| Translation.Translator.KeyPressed | test/src/test/Translator.java:72-109 | for a key event reporting its key canonically, the new flags are `Step` of the old ones; if `Output` gives a character, the text gets it spliced in at the old caret, otherwise the text area is unchanged; the tables stay filled |
| Translation.Translator.KeyReleased | test/src/test/Translator.java:118-128 | the new flags are `Step` of the old ones for the release: shift off after a shift release, no change otherwise |
| Translation.Translator.KeyTyped | test/src/test/Translator.java:138-140 | the new flags are `Step` of the old ones for a key-typed notification, which keeps them, and the text area is unchanged |
| Translation.Translator.IsUpperCase | test/src/test/Translator.java:152-155 | the answer is true exactly when one of caps-lock and shift is on and the other is off |
| Translation.Translator.WriteTextArea | test/src/test/Translator.java:163-170 | the character is spliced into the text at the caret read just before the insertion |

## Left out

- `TranslatorWindow.java`, which builds the window and the text area and registers the listener, is not part of this model.
- Translation.Translator.constructor: the initial caps-lock state comes from the host toolkit's locking-key query in the source; here it is a parameter.
- The integer values of the AWT `VK_*` constants are left out. Keys are an enumeration, and the model assumes the named constants are pairwise distinct. `Other(code)` stands for a key code the listener does not name.
- Translation.Translator.KeyPressed: the type does not stop an event from carrying `Other(c)` where `c` is the code of a named key, which the source would translate. For the six extended codes, `Keys.Canonical` excludes this and `KeyPressed` requires it. For the standard `VK_*` codes, whose values are not modelled, the exclusion holds only by convention.
- The hash maps' initial capacity (`MAP_SIZE`) is left out; it does not affect their contents.
- Translation.Translator.InitializeTranslationMap: it does not state the table sizes as map cardinalities. The key set is characterised key by key instead: the translated keys of `Layout.Mapped`, 48 by the enumeration.
- Translation.Translator.KeyTyped: `consume()` only stops the host from inserting the raw character. The model keeps no host event queue, so the handler changes nothing.
- TextSink.TextArea.Insert: where the host moves the caret after an insertion is not specified, only that it stays a valid offset.
- TextSink.TextArea.Insert: the host's exception for an offset outside the text is not modelled. The only caller inserts at the caret, which is always valid, so a precondition takes its place.
- Event dispatch and threading of the host toolkit are left out. Handlers run one at a time, in event order.
