/**
 * The keyboard intercept of `TermView.event`: a ShortcutOverride event's
 * key code and modifier flags become one Qt key value, whose portable
 * text decides whether the host, the copy action, the paste action or
 * nobody gets the chord.
 */
module Keys {
  /** The offsets Qt adds to a key code for each modifier (`Qt.SHIFT`, `Qt.CTRL`, `Qt.ALT`, `Qt.META`). */
  const SHIFT: int := 0x0200_0000
  const CTRL: int := 0x0400_0000
  const ALT: int := 0x0800_0000
  const META: int := 0x1000_0000

  /** The modifier flags of a key event (`Qt.ShiftModifier` and the rest). */
  const ShiftModifier: bv32 := 0x0200_0000
  const ControlModifier: bv32 := 0x0400_0000
  const AltModifier: bv32 := 0x0800_0000
  const MetaModifier: bv32 := 0x1000_0000

  predicate Has(modifiers: bv32, flag: bv32) {
    modifiers & flag != 0
  }

  /** The key value: the key code plus the offset of every modifier whose flag is set. */
  function ChordValue(key: int, modifiers: bv32): int {
    key
    + (if Has(modifiers, ShiftModifier) then SHIFT else 0)
    + (if Has(modifiers, ControlModifier) then CTRL else 0)
    + (if Has(modifiers, AltModifier) then ALT else 0)
    + (if Has(modifiers, MetaModifier) then META else 0)
  }

  /** The bit of a key value that an offset sets. */
  predicate Carries(value: int, offset: int)
    requires offset > 0
  {
    (value / offset) % 2 == 1
  }

  /** The key value, built up one modifier at a time as `TermView.event` does. */
  method ShortcutKey(code: int, modifiers: bv32) returns (key: int)
    ensures key == ChordValue(code, modifiers)
  {
    key := code;
    if Has(modifiers, ShiftModifier) {
      key := key + SHIFT;
    }
    if Has(modifiers, ControlModifier) {
      key := key + CTRL;
    }
    if Has(modifiers, AltModifier) {
      key := key + ALT;
    }
    if Has(modifiers, MetaModifier) {
      key := key + META;
    }
  }

  /**
   * For a key code below the modifier bits (every Qt key code is), the key
   * value still holds the key code in its low bits and one bit per modifier:
   * nothing is lost, and chords that differ stay apart.
   */
  lemma ChordDecodes(key: int, modifiers: bv32)
    requires 0 <= key < SHIFT
    ensures ChordValue(key, modifiers) % SHIFT == key
    ensures Carries(ChordValue(key, modifiers), SHIFT) <==> Has(modifiers, ShiftModifier)
    ensures Carries(ChordValue(key, modifiers), CTRL) <==> Has(modifiers, ControlModifier)
    ensures Carries(ChordValue(key, modifiers), ALT) <==> Has(modifiers, AltModifier)
    ensures Carries(ChordValue(key, modifiers), META) <==> Has(modifiers, MetaModifier)
  {
    var s := if Has(modifiers, ShiftModifier) then 1 else 0;
    var c := if Has(modifiers, ControlModifier) then 1 else 0;
    var a := if Has(modifiers, AltModifier) then 1 else 0;
    var m := if Has(modifiers, MetaModifier) then 1 else 0;
    var v := ChordValue(key, modifiers);
    var high := s + 2 * c + 4 * a + 8 * m;
    assert v == key + SHIFT * high;
    assert v / SHIFT == high && v % SHIFT == key;
    assert v / CTRL == high / 2;
    assert v / ALT == high / 4;
    assert v / META == high / 8;
  }

  /** Distinct chords give distinct key values. */
  lemma ChordInjective(key1: int, mods1: bv32, key2: int, mods2: bv32)
    requires 0 <= key1 < SHIFT && 0 <= key2 < SHIFT
    requires ChordValue(key1, mods1) == ChordValue(key2, mods2)
    ensures key1 == key2
    ensures Has(mods1, ShiftModifier) == Has(mods2, ShiftModifier)
    ensures Has(mods1, ControlModifier) == Has(mods2, ControlModifier)
    ensures Has(mods1, AltModifier) == Has(mods2, AltModifier)
    ensures Has(mods1, MetaModifier) == Has(mods2, MetaModifier)
  {
    ChordDecodes(key1, mods1);
    ChordDecodes(key2, mods2);
  }

  /** What the intercept does with a chord, decided by its portable text. */
  datatype Decision = ReleaseToHost | CopyText | PasteText | Swallow

  const ToggleChord := "Ctrl+Alt+Shift+T"
  const CopyChord := "Ctrl+Shift+C"
  const PasteChord := "Ctrl+Shift+V"

  function Classify(sequence: string): Decision {
    if sequence == ToggleChord then ReleaseToHost
    else if sequence == CopyChord then CopyText
    else if sequence == PasteChord then PasteText
    else Swallow
  }

  /** Each decision belongs to exactly one text, except Swallow, which takes all the others. */
  lemma ClassifyExactly(sequence: string)
    ensures Classify(sequence) == ReleaseToHost <==> sequence == "Ctrl+Alt+Shift+T"
    ensures Classify(sequence) == CopyText <==> sequence == "Ctrl+Shift+C"
    ensures Classify(sequence) == PasteText <==> sequence == "Ctrl+Shift+V"
    ensures Classify(sequence) == Swallow
      <==> sequence !in {"Ctrl+Alt+Shift+T", "Ctrl+Shift+C", "Ctrl+Shift+V"}
  {
  }
}
