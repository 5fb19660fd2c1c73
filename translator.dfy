/**
 * The AZERTY-to-QWERTY translator: a key listener that keeps the caps-lock
 * and shift state and, for every other key pressed, writes the QWERTY
 * character of that key position into its text area.
 *
 * The first half of the module states the listener's behaviour as a state
 * machine over key events (`Step`, `Output`, `Run`) and proves what it
 * promises; the class `Translator` is the listener itself, with the same
 * fields and handlers, and each handler is proved to follow `Step` and
 * `Output`.
 */
module Translation {

  import opened Wrappers
  import opened Keys
  import opened Layout
  import opened TextSink

  /** The two keyboard states the translator keeps. */
  datatype Modifiers = Modifiers(capsLockOn: bool, shiftOn: bool)

  /** Upper case: exactly one of caps-lock and shift is on; both off or both on give lower case. */
  predicate UpperCase(m: Modifiers)
  {
    (m.capsLockOn && !m.shiftOn) || (!m.capsLockOn && m.shiftOn)
  }

  /** The three notifications a key listener receives. */
  datatype Event = Pressed(e: KeyEvent) | Released(e: KeyEvent) | Typed(e: KeyEvent)

  /** The keyboard state after one event. */
  function Step(m: Modifiers, ev: Event): (r: Modifiers)
    ensures r.capsLockOn != m.capsLockOn <==> ev.Pressed? && ev.e.extendedKeyCode == CapsLock
    ensures r.shiftOn != m.shiftOn ==>
              (ev.Pressed? && ev.e.extendedKeyCode == Shift) || (ev.Released? && ev.e.keyCode == Shift)
  {
    match ev
    case Pressed(e) =>
      if e.extendedKeyCode == CapsLock then m.(capsLockOn := !m.capsLockOn)
      else if e.extendedKeyCode == Shift then m.(shiftOn := true)
      else m
    case Released(e) =>
      if e.keyCode == Shift then m.(shiftOn := false) else m
    case Typed(_) => m
  }

  /** The character one event writes into the text area, if any. */
  function Output(m: Modifiers, ev: Event): (r: Option<char>)
    ensures r.Some? <==> ev.Pressed? && Mapped(ev.e.extendedKeyCode)
  {
    match ev
    case Pressed(e) =>
      if IsModifier(e.extendedKeyCode) then None
      else if UpperCase(m) then Shifted(e.extendedKeyCode)
      else Unshifted(e.extendedKeyCode)
    case _ => None
  }

  /** Pressing caps-lock flips it, leaves shift alone and writes nothing. */
  lemma CapsLockPress(m: Modifiers, e: KeyEvent)
    requires e.extendedKeyCode == CapsLock
    ensures Step(m, Pressed(e)) == Modifiers(!m.capsLockOn, m.shiftOn)
    ensures UpperCase(Step(m, Pressed(e))) == !UpperCase(m)
    ensures Output(m, Pressed(e)) == None
  {
  }

  /** Pressing caps-lock twice restores the keyboard state, and so the case. */
  lemma CapsLockTwice(m: Modifiers, e: KeyEvent)
    requires e.extendedKeyCode == CapsLock
    ensures Step(Step(m, Pressed(e)), Pressed(e)) == m
  {
  }

  /** Pressing shift turns it on, leaves caps-lock alone and writes nothing. */
  lemma ShiftPress(m: Modifiers, e: KeyEvent)
    requires e.extendedKeyCode == Shift
    ensures Step(m, Pressed(e)) == Modifiers(m.capsLockOn, true)
    ensures Output(m, Pressed(e)) == None
  {
  }

  /** Releasing shift turns it off; releasing any other key changes nothing; neither writes. */
  lemma Release(m: Modifiers, e: KeyEvent)
    ensures Step(m, Released(e)) == if e.keyCode == Shift then Modifiers(m.capsLockOn, false) else m
    ensures Output(m, Released(e)) == None
  {
  }

  /** A key-typed notification changes nothing and writes nothing. */
  lemma TypedIsInert(m: Modifiers, e: KeyEvent)
    ensures Step(m, Typed(e)) == m && Output(m, Typed(e)) == None
  {
  }

  /**
   * Pressing any other key leaves the keyboard state alone and writes the
   * shifted table's character in upper case, the unshifted table's otherwise;
   * it writes something exactly when the key is one the tables translate.
   */
  lemma OrdinaryPress(m: Modifiers, e: KeyEvent)
    requires !IsModifier(e.extendedKeyCode)
    ensures Step(m, Pressed(e)) == m
    ensures Output(m, Pressed(e)) == if UpperCase(m) then Shifted(e.extendedKeyCode) else Unshifted(e.extendedKeyCode)
    ensures Output(m, Pressed(e)).Some? <==> Mapped(e.extendedKeyCode)
  {
  }

  /** The keyboard state after a sequence of events, delivered one at a time in order. */
  function Run(m: Modifiers, evs: seq<Event>): Modifiers
  {
    if evs == [] then m else Step(Run(m, evs[..|evs| - 1]), evs[|evs| - 1])
  }

  /** How many caps-lock presses a sequence of events holds. */
  function CapsLockPresses(evs: seq<Event>): nat
  {
    if evs == [] then 0
    else
      var last := evs[|evs| - 1];
      CapsLockPresses(evs[..|evs| - 1]) + if last.Pressed? && last.e.extendedKeyCode == CapsLock then 1 else 0
  }

  /** Caps-lock is on after a sequence of events exactly when it started on, flipped once per odd press count. */
  lemma {:induction false} CapsLockParity(m: Modifiers, evs: seq<Event>)
    ensures Run(m, evs).capsLockOn == (m.capsLockOn != (CapsLockPresses(evs) % 2 == 1))
  {
    if evs != [] {
      CapsLockParity(m, evs[..|evs| - 1]);
    }
  }

  /**
   * The last event in a sequence that sets the shift state: `Some(true)` for
   * a shift press, `Some(false)` for a shift release, `None` if there is none.
   */
  function LastShiftChange(evs: seq<Event>): Option<bool>
  {
    if evs == [] then None
    else
      var last := evs[|evs| - 1];
      if last.Pressed? && last.e.extendedKeyCode == Shift then Some(true)
      else if last.Released? && last.e.keyCode == Shift then Some(false)
      else LastShiftChange(evs[..|evs| - 1])
  }

  /** Shift is on after a sequence of events as the last shift press or release left it, or as it started. */
  lemma {:induction false} ShiftFollowsLastChange(m: Modifiers, evs: seq<Event>)
    ensures Run(m, evs).shiftOn == match LastShiftChange(evs) case Some(on) => on case None => m.shiftOn
  {
    if evs != [] {
      ShiftFollowsLastChange(m, evs[..|evs| - 1]);
    }
  }

  /** Key-typed notifications alone never change the keyboard state. */
  lemma {:induction false} TypedRunIsInert(m: Modifiers, evs: seq<Event>)
    requires forall i | 0 <= i < |evs| :: evs[i].Typed?
    ensures Run(m, evs) == m
  {
    if evs != [] {
      TypedRunIsInert(m, evs[..|evs| - 1]);
    }
  }

  /**
   * Starting in lower case: a shift press gives upper case, its release
   * lower case, a caps-lock press upper case, and shift pressed while
   * caps-lock is on lower case again.
   */
  lemma CaseScenario(caps: KeyEvent, shift: KeyEvent)
    requires caps.extendedKeyCode == CapsLock
    requires shift.extendedKeyCode == Shift && shift.keyCode == Shift
    ensures var m0 := Modifiers(false, false);
            var m1 := Step(m0, Pressed(shift));
            var m2 := Step(m1, Released(shift));
            var m3 := Step(m2, Pressed(caps));
            var m4 := Step(m3, Pressed(shift));
            !UpperCase(m0) && UpperCase(m1) && !UpperCase(m2) && UpperCase(m3) && !UpperCase(m4)
  {
  }

  /** Java's `Map.get`: the value stored for `k`, or `None` where Java returns null. */
  function Lookup(m: map<Key, char>, k: Key): (r: Option<char>)
    ensures r.Some? <==> k in m
    ensures r.Some? ==> r.value == m[k]
  {
    if k in m then Some(m[k]) else None
  }

  /** `m` agrees with `table` on every key of `row`. */
  ghost predicate RowPut(m: map<Key, char>, table: Key -> Option<char>, row: nat)
  {
    forall k | Row(k) == row :: Lookup(m, k) == table(k)
  }

  /** `after` agrees with `before` on every key off `row`. */
  ghost predicate OtherRowsKept(before: map<Key, char>, after: map<Key, char>, row: nat)
  {
    forall k | Row(k) != row :: Lookup(after, k) == Lookup(before, k)
  }

  /**
   * Filling an empty map row by row, each row putting that row's entries of
   * `table` and keeping every other key, yields exactly `table`.
   */
  lemma RowsMakeTable(m0: map<Key, char>, m1: map<Key, char>, m2: map<Key, char>, m3: map<Key, char>,
                      m4: map<Key, char>, m5: map<Key, char>, table: Key -> Option<char>)
    requires table == Unshifted || table == Shifted
    requires m0 == map[]
    requires RowPut(m1, table, 1) && OtherRowsKept(m0, m1, 1)
    requires RowPut(m2, table, 2) && OtherRowsKept(m1, m2, 2)
    requires RowPut(m3, table, 3) && OtherRowsKept(m2, m3, 3)
    requires RowPut(m4, table, 4) && OtherRowsKept(m3, m4, 4)
    requires RowPut(m5, table, 5) && OtherRowsKept(m4, m5, 5)
    ensures forall k :: Lookup(m5, k) == table(k)
  {
  }

  /**
   * Two filled tables have the same keys: every key except caps-lock, shift
   * and the keys the layout does not name.
   */
  lemma FilledTablesShareDomain(unshifted: map<Key, char>, shifted: map<Key, char>)
    requires forall k :: Lookup(unshifted, k) == Unshifted(k)
    requires forall k :: Lookup(shifted, k) == Shifted(k)
    ensures unshifted.Keys == shifted.Keys
    ensures forall k :: k in unshifted <==> Mapped(k)
  {
    forall k
      ensures (k in unshifted <==> Mapped(k)) && (k in shifted <==> Mapped(k))
    {
      assert Lookup(unshifted, k) == Unshifted(k) && Lookup(shifted, k) == Shifted(k);
    }
  }

  class Translator {
    // the tables from AZERTY keys to QWERTY characters, without and with shift
    var translationMap: map<Key, char>
    var translationMapShift: map<Key, char>
    // the text area this translator writes into
    const textArea: TextArea
    // keyboard state deciding upper or lower case
    var capsLockOn: bool
    var shiftOn: bool

    ghost function State(): Modifiers
      reads this
    {
      Modifiers(capsLockOn, shiftOn)
    }

    /** Each table holds exactly the layout's entries for its case. */
    ghost predicate TablesFilled()
      reads this
    {
      (forall k :: Lookup(translationMap, k) == Unshifted(k)) &&
      (forall k :: Lookup(translationMapShift, k) == Shifted(k))
    }

    ghost predicate Valid()
      reads this, textArea
    {
      textArea.Valid() && TablesFilled()
    }

    /**
     * A translator for `textArea`. The caps-lock state is read from the host
     * at construction and is a parameter here; shift starts off.
     */
    constructor (textArea: TextArea, capsLockInitially: bool)
      requires textArea.Valid()
      ensures Valid()
      ensures this.textArea == textArea
      ensures capsLockOn == capsLockInitially && !shiftOn
    {
      this.textArea := textArea;
      capsLockOn := capsLockInitially;
      shiftOn := false;
      translationMap := map[];
      translationMapShift := map[];
      new;
      InitializeTranslationMap();
    }

    /**
     * Fills both empty tables with the layout's entries: first the table
     * without shift, then the one with shift, each row by row.
     */
    method InitializeTranslationMap()
      requires translationMap == map[] && translationMapShift == map[]
      modifies this`translationMap, this`translationMapShift
      ensures TablesFilled()
      ensures translationMap.Keys == translationMapShift.Keys
    {
      ghost var u0, u1, u2, u3, u4 := translationMap, map[], map[], map[], map[];
      ghost var s0, s1, s2, s3, s4 := translationMapShift, map[], map[], map[], map[];
      // without shift
      PutUnshiftedRow1();
      u1 := translationMap;
      PutUnshiftedRow2();
      u2 := translationMap;
      PutUnshiftedRow3();
      u3 := translationMap;
      PutUnshiftedRow4();
      u4 := translationMap;
      PutUnshiftedRow5();
      // with shift
      PutShiftedRow1();
      s1 := translationMapShift;
      PutShiftedRow2();
      s2 := translationMapShift;
      PutShiftedRow3();
      s3 := translationMapShift;
      PutShiftedRow4();
      s4 := translationMapShift;
      PutShiftedRow5();
      RowsMakeTable(u0, u1, u2, u3, u4, translationMap, Unshifted);
      RowsMakeTable(s0, s1, s2, s3, s4, translationMapShift, Shifted);
      FilledTablesShareDomain(translationMap, translationMapShift);
    }

    /** Puts the unshifted entries of row 1. */
    method PutUnshiftedRow1()
      modifies this`translationMap
      ensures RowPut(translationMap, Unshifted, 1) && OtherRowsKept(old(translationMap), translationMap, 1)
    {
      var m := translationMap;
      m := m[NumberRow(Sup2) := '`'];
      m := m[NumberRow(Ampersand) := '1'];
      m := m[NumberRow(EAccent) := '2'];
      m := m[NumberRow(QuoteDbl) := '3'];
      m := m[NumberRow(Quote) := '4'];
      m := m[NumberRow(LeftParenthesis) := '5'];
      m := m[NumberRow(Minus) := '6'];
      m := m[NumberRow(EBacktick) := '7'];
      m := m[NumberRow(Underscore) := '8'];
      m := m[NumberRow(CCedilla) := '9'];
      m := m[NumberRow(ABacktick) := '0'];
      m := m[NumberRow(RightParenthesis) := '-'];
      m := m[NumberRow(Equals) := '='];
      translationMap := m;
    }

    /** Puts the unshifted entries of row 2. */
    method PutUnshiftedRow2()
      modifies this`translationMap
      ensures RowPut(translationMap, Unshifted, 2) && OtherRowsKept(old(translationMap), translationMap, 2)
    {
      var m := translationMap;
      m := m[TopRow(A) := 'q'];
      m := m[TopRow(Z) := 'w'];
      m := m[TopRow(E) := 'e'];
      m := m[TopRow(R) := 'r'];
      m := m[TopRow(T) := 't'];
      m := m[TopRow(Y) := 'y'];
      m := m[TopRow(U) := 'u'];
      m := m[TopRow(I) := 'i'];
      m := m[TopRow(O) := 'o'];
      m := m[TopRow(P) := 'p'];
      m := m[TopRow(DeadCircumflex) := '['];
      m := m[TopRow(Dollar) := ']'];
      translationMap := m;
    }

    /** Puts the unshifted entries of row 3. */
    method PutUnshiftedRow3()
      modifies this`translationMap
      ensures RowPut(translationMap, Unshifted, 3) && OtherRowsKept(old(translationMap), translationMap, 3)
    {
      var m := translationMap;
      m := m[HomeRow(Q) := 'a'];
      m := m[HomeRow(S) := 's'];
      m := m[HomeRow(D) := 'd'];
      m := m[HomeRow(F) := 'f'];
      m := m[HomeRow(G) := 'g'];
      m := m[HomeRow(H) := 'h'];
      m := m[HomeRow(J) := 'j'];
      m := m[HomeRow(K) := 'k'];
      m := m[HomeRow(L) := 'l'];
      m := m[HomeRow(M) := ';'];
      m := m[HomeRow(UAccent) := '\''];
      m := m[HomeRow(Asterisk) := '\\'];
      translationMap := m;
    }

    /** Puts the unshifted entries of row 4. */
    method PutUnshiftedRow4()
      modifies this`translationMap
      ensures RowPut(translationMap, Unshifted, 4) && OtherRowsKept(old(translationMap), translationMap, 4)
    {
      var m := translationMap;
      m := m[BottomRow(W) := 'z'];
      m := m[BottomRow(X) := 'x'];
      m := m[BottomRow(C) := 'c'];
      m := m[BottomRow(V) := 'v'];
      m := m[BottomRow(B) := 'b'];
      m := m[BottomRow(N) := 'n'];
      m := m[BottomRow(Comma) := 'm'];
      m := m[BottomRow(Semicolon) := ','];
      m := m[BottomRow(Colon) := '.'];
      m := m[BottomRow(ExclamationMark) := '/'];
      translationMap := m;
    }

    /** Puts the unshifted entries of row 5. */
    method PutUnshiftedRow5()
      modifies this`translationMap
      ensures RowPut(translationMap, Unshifted, 5) && OtherRowsKept(old(translationMap), translationMap, 5)
    {
      var m := translationMap;
      m := m[Space := ' '];
      translationMap := m;
    }

    /** Puts the shifted entries of row 1. */
    method PutShiftedRow1()
      modifies this`translationMapShift
      ensures RowPut(translationMapShift, Shifted, 1) && OtherRowsKept(old(translationMapShift), translationMapShift, 1)
    {
      var m := translationMapShift;
      m := m[NumberRow(Sup2) := '~'];
      m := m[NumberRow(Ampersand) := '!'];
      m := m[NumberRow(EAccent) := '@'];
      m := m[NumberRow(QuoteDbl) := '#'];
      m := m[NumberRow(Quote) := '$'];
      m := m[NumberRow(LeftParenthesis) := '%'];
      m := m[NumberRow(Minus) := '^'];
      m := m[NumberRow(EBacktick) := '&'];
      m := m[NumberRow(Underscore) := '*'];
      m := m[NumberRow(CCedilla) := '('];
      m := m[NumberRow(ABacktick) := ')'];
      m := m[NumberRow(RightParenthesis) := '_'];
      m := m[NumberRow(Equals) := '+'];
      translationMapShift := m;
    }

    /** Puts the shifted entries of row 2. */
    method PutShiftedRow2()
      modifies this`translationMapShift
      ensures RowPut(translationMapShift, Shifted, 2) && OtherRowsKept(old(translationMapShift), translationMapShift, 2)
    {
      var m := translationMapShift;
      m := m[TopRow(A) := 'Q'];
      m := m[TopRow(Z) := 'W'];
      m := m[TopRow(E) := 'E'];
      m := m[TopRow(R) := 'R'];
      m := m[TopRow(T) := 'T'];
      m := m[TopRow(Y) := 'Y'];
      m := m[TopRow(U) := 'U'];
      m := m[TopRow(I) := 'I'];
      m := m[TopRow(O) := 'O'];
      m := m[TopRow(P) := 'P'];
      m := m[TopRow(DeadCircumflex) := '{'];
      m := m[TopRow(Dollar) := '}'];
      translationMapShift := m;
    }

    /** Puts the shifted entries of row 3. */
    method PutShiftedRow3()
      modifies this`translationMapShift
      ensures RowPut(translationMapShift, Shifted, 3) && OtherRowsKept(old(translationMapShift), translationMapShift, 3)
    {
      var m := translationMapShift;
      m := m[HomeRow(Q) := 'A'];
      m := m[HomeRow(S) := 'S'];
      m := m[HomeRow(D) := 'D'];
      m := m[HomeRow(F) := 'F'];
      m := m[HomeRow(G) := 'G'];
      m := m[HomeRow(H) := 'H'];
      m := m[HomeRow(J) := 'J'];
      m := m[HomeRow(K) := 'K'];
      m := m[HomeRow(L) := 'L'];
      m := m[HomeRow(M) := ':'];
      m := m[HomeRow(UAccent) := '"'];
      m := m[HomeRow(Asterisk) := '|'];
      translationMapShift := m;
    }

    /** Puts the shifted entries of row 4. */
    method PutShiftedRow4()
      modifies this`translationMapShift
      ensures RowPut(translationMapShift, Shifted, 4) && OtherRowsKept(old(translationMapShift), translationMapShift, 4)
    {
      var m := translationMapShift;
      m := m[BottomRow(W) := 'Z'];
      m := m[BottomRow(X) := 'X'];
      m := m[BottomRow(C) := 'C'];
      m := m[BottomRow(V) := 'V'];
      m := m[BottomRow(B) := 'B'];
      m := m[BottomRow(N) := 'N'];
      m := m[BottomRow(Comma) := 'M'];
      m := m[BottomRow(Semicolon) := '<'];
      m := m[BottomRow(Colon) := '>'];
      m := m[BottomRow(ExclamationMark) := '?'];
      translationMapShift := m;
    }

    /** Puts the shifted entries of row 5. */
    method PutShiftedRow5()
      modifies this`translationMapShift
      ensures RowPut(translationMapShift, Shifted, 5) && OtherRowsKept(old(translationMapShift), translationMapShift, 5)
    {
      var m := translationMapShift;
      m := m[Space := ' '];
      translationMapShift := m;
    }

    /**
     * Handles a key press: caps-lock flips its state, shift turns its state
     * on, and any other key writes the character of the table the current
     * case selects, if that table has one.
     */
    method KeyPressed(e: KeyEvent)
      requires Valid() && Canonical(e.extendedKeyCode)
      modifies this`capsLockOn, this`shiftOn, textArea
      ensures Valid()
      ensures State() == Step(old(State()), Pressed(e))
      ensures match Output(old(State()), Pressed(e))
              case Some(c) => textArea.text == Inserted(old(textArea.text), old(textArea.caret), [c])
              case None => unchanged(textArea)
    {
      var extKeyCode := e.extendedKeyCode;
      var translatedChar: Option<char>;
      if extKeyCode == CapsLock {
        capsLockOn := !capsLockOn;
        return;
      } else if extKeyCode == Shift {
        shiftOn := true;
        return;
      }
      if IsUpperCase() {
        translatedChar := Lookup(translationMapShift, extKeyCode);
      } else {
        translatedChar := Lookup(translationMap, extKeyCode);
      }
      if translatedChar.Some? {
        WriteTextArea(translatedChar.value);
      }
    }

    /** Handles a key release: releasing shift turns its state off; nothing else happens. */
    method KeyReleased(e: KeyEvent)
      requires Valid()
      modifies this`shiftOn
      ensures Valid()
      ensures State() == Step(old(State()), Released(e))
    {
      var keyCode := e.keyCode;
      if keyCode == Shift {
        shiftOn := false;
      }
    }

    /** Handles a key-typed notification: it is swallowed, so nothing changes. */
    method KeyTyped(e: KeyEvent)
      requires Valid()
      ensures State() == Step(old(State()), Typed(e))
      ensures unchanged(textArea)
    {
    }

    /** Whether keys currently translate to upper case. */
    function IsUpperCase(): (upper: bool)
      reads this
      ensures upper <==> UpperCase(State())
    {
      capsLockOn != shiftOn
    }

    /** Writes `c` into the text area at its caret. */
    method WriteTextArea(c: char)
      requires Valid()
      modifies textArea
      ensures Valid()
      ensures textArea.text == Inserted(old(textArea.text), old(textArea.caret), [c])
    {
      var caretPosition := textArea.GetCaretPosition();
      textArea.Insert([c], caretPosition);
    }
  }
}
