/** Which texts name which keys and modifiers, in any letter case, and how modifiers add up in front of a chord. */
module KeyLaws {
  import opened Protocol
  import opened KeyText

  /** `s` is `name`, some of its letters in upper case. */
  predicate Spells(s: string, name: string) {
    |s| == |name| && forall i | 0 <= i < |s| :: SameLetter(s[i], name[i])
  }

  predicate SameLetter(c: char, small: char) {
    (c == small && !('A' <= c <= 'Z')) || ('A' <= c <= 'Z' && c as int + 32 == small as int)
  }

  lemma SpelledLower(s: string, name: string)
    ensures Spells(s, name) <==> Lower(s) == name
  {
    if Lower(s) == name {
      forall i | 0 <= i < |s|
        ensures SameLetter(s[i], name[i])
      {
        assert Lower(s)[i] == name[i];
      }
    }
    if Spells(s, name) {
      forall i | 0 <= i < |s|
        ensures Lower(s)[i] == name[i]
      {
        assert SameLetter(s[i], name[i]);
      }
    }
  }

  predicate Ctrl(m: string) { Spells(m, "ctrl") || Spells(m, "control") || Spells(m, "c") }

  predicate Alt(m: string) { Spells(m, "alt") || Spells(m, "option") || Spells(m, "a") }

  predicate Shift(m: string) { Spells(m, "shift") || Spells(m, "s") }

  predicate Meta(m: string) {
    Spells(m, "meta") || Spells(m, "cmd") || Spells(m, "super") || Spells(m, "win") || Spells(m, "m")
  }

  /** With one more modifier held, if the text names one. */
  function Holding(mods: Modifiers, m: string): Option<Modifiers> {
    if Ctrl(m) then Some(mods.(ctrl := true)) else if Alt(m) then Some(mods.(alt := true))
    else if Shift(m) then Some(mods.(shift := true)) else if Meta(m) then Some(mods.(meta := true)) else None
  }

  lemma HeldIs(mods: Modifiers, m: string)
    ensures Held(mods, Lower(m)) == match Holding(mods, m)
                                    case Some(more) => Success(more)
                                    case None => Failure(UnknownModifier(Lower(m)))
  {
    hide Spells, Lower;
    SpelledLower(m, "ctrl");
    SpelledLower(m, "control");
    SpelledLower(m, "c");
    SpelledLower(m, "alt");
    SpelledLower(m, "option");
    SpelledLower(m, "a");
    SpelledLower(m, "shift");
    SpelledLower(m, "s");
    SpelledLower(m, "meta");
    SpelledLower(m, "cmd");
    SpelledLower(m, "super");
    SpelledLower(m, "win");
    SpelledLower(m, "m");
  }

  /** Everything held in either. */
  function Both(a: Modifiers, b: Modifiers): Modifiers {
    Modifiers(a.ctrl || b.ctrl, a.alt || b.alt, a.shift || b.shift, a.meta || b.meta)
  }

  lemma HoldingBoth(a: Modifiers, b: Modifiers, m: string)
    ensures Holding(Both(a, b), m) == match Holding(b, m) case Some(more) => Some(Both(a, more)) case None => None
  {
  }

  /** What was held before stays held. */
  lemma {:induction false} HeldBefore(a: Modifiers, b: Modifiers, parts: seq<string>)
    requires HeldAll(b, parts).Success?
    ensures HeldAll(Both(a, b), parts) == Success(Both(a, HeldAll(b, parts).value))
    decreases |parts|
  {
    hide Held, Holding;
    if parts != [] {
      HeldIs(b, parts[0]);
      HeldIs(Both(a, b), parts[0]);
      HoldingBoth(a, b, parts[0]);
      HeldBefore(a, Holding(b, parts[0]).value, parts[1..]);
    }
  }

  lemma NoneHeld(a: Modifiers)
    ensures Both(a, NO_MODS) == a
  {
  }

  lemma HoldingNone(m: string)
    ensures Holding(NO_MODS, m).Some? ==> forall b :: Holding(b, m) == Some(Both(Holding(NO_MODS, m).value, b))
  {
  }

  lemma PrefixParts(m: string, s: string)
    requires '+' !in m && s != ""
    ensures SplitPlus(m + "+" + s) == [m] + SplitPlus(s)
    ensures ModParts([m] + SplitPlus(s)) == [m] + ModParts(SplitPlus(s))
            && LastPart([m] + SplitPlus(s)) == LastPart(SplitPlus(s))
  {
    SplitPrefix(m, s);
    if |SplitPlus(s)| == 1 {
      OnePart(s);
    }
  }

  lemma {:induction false} OnePart(s: string)
    requires |SplitPlus(s)| == 1
    ensures SplitPlus(s) == [s]
  {
    if s != [] {
      OnePart(s[1..]);
      assert [s[0]] + s[1..] == s;
    }
  }

  /**
   A modifier in any of its spellings, followed by a plus and a chord, is that chord with the modifier held;
   anything else in its place is an unknown modifier.
   */
  lemma {:induction false} ModifierInFront(m: string, s: string)
    requires '+' !in m && ChordFrom(s).Success?
    ensures var chord := ChordFrom(s).value;
            ChordFrom(m + "+" + s) == match Holding(chord.mods, m)
                                      case Some(mods) => Success(KeyChord(chord.key, mods))
                                      case None => Failure(UnknownModifier(Lower(m)))
  {
    hide Held, Holding, Lower, SplitPlus, KeyFrom, ModParts, LastPart;
    PrefixParts(m, s);
    var parts := ModParts(SplitPlus(s));
    HeldIs(NO_MODS, m);
    assert ([m] + parts)[1..] == parts;
    HoldingNone(m);
    if Holding(NO_MODS, m).Some? {
      var one := Holding(NO_MODS, m).value;
      NoneHeld(one);
      HeldBefore(one, NO_MODS, parts);
    } else {
      NotHolding(m, ChordFrom(s).value.mods);
    }
  }

  lemma NotHolding(m: string, mods: Modifiers)
    requires Holding(NO_MODS, m).None?
    ensures Holding(mods, m).None?
  {
  }

  /** A single character is its own key, a plus included. */
  lemma {:induction false} CharacterReads(c: char)
    ensures ChordFrom([c]) == Success(KeyChord(Char(c), NO_MODS))
  {
    if c == '+' {
      assert [c][1..] == "" && SplitPlus("") == [""];
      assert SplitPlus([c]) == ["", ""];
    } else {
      SplitPlain([c]);
    }
  }

  /** The named keys, in any letter case. */
  lemma {:induction false} NameReads(s: string, name: string, key: NamedKey)
    requires (name, key) in {
      ("enter", Enter), ("esc", Esc), ("tab", Tab), ("backspace", Backspace), ("space", Space), ("up", Up),
      ("down", Down), ("left", Left), ("right", Right), ("pageup", PageUp), ("pagedown", PageDown), ("home", Home),
      ("end", EndKey)}
    requires Spells(s, name)
    ensures ChordFrom(s) == Success(KeyChord(Named(key), NO_MODS))
  {
    SpelledLower(s, name);
    assert '+' !in s by {
      assert forall i | 0 <= i < |s| :: SameLetter(s[i], name[i]) && name[i] != '+';
    }
    SplitPlain(s);
    assert NamedFrom(name) == Some(key);
  }

  // ---- sequences ------------------------------------------------------------

  lemma {:induction false} WordEndsAtSpace(a: string, c: char, b: string)
    requires IsSpace(c)
    ensures WordLength(a + [c] + b) == WordLength(a)
  {
    hide IsSpace;
    var s := a + [c] + b;
    if a == [] {
      assert s[0] == c;
    } else {
      assert s[0] == a[0] && s[1..] == a[1..] + [c] + b;
      WordEndsAtSpace(a[1..], c, b);
    }
  }

  /** Any whitespace separates words, and a text without any is one word. */
  lemma {:induction false} WhitespaceSeparates(a: string, c: char, b: string)
    ensures IsSpace(c) ==> Words(a + [c] + b) == Words(a) + Words(b)
    ensures Solid(a) && a != [] ==> Words(a) == [a]
    decreases |a|
  {
    hide IsSpace, WordLength;
    if Solid(a) && a != [] {
      FirstWord(a, "");
    }
    if IsSpace(c) {
      var s := a + [c] + b;
      if a == [] {
        assert s[0] == c && s[1..] == b;
      } else if IsSpace(a[0]) {
        assert s[0] == a[0] && s[1..] == a[1..] + [c] + b;
        WhitespaceSeparates(a[1..], c, b);
      } else {
        var n := WordLength(a);
        WordEndsAtSpace(a, c, b);
        assert n > 0 && s[0] == a[0] && s[..n] == a[..n] && s[n..] == a[n..] + [c] + b;
        WhitespaceSeparates(a[n..], c, b);
      }
    }
  }

  /** A sequence of texts reads as the sequence of their chords, or fails with the first that does not read. */
  lemma {:induction false} SequenceReads(a: seq<string>, b: seq<string>)
    ensures ChordsFrom(a + b) == match ChordsFrom(a)
                                 case Failure(e) => Failure(e)
                                 case Success(x) => match ChordsFrom(b)
                                                    case Failure(e) => Failure(e)
                                                    case Success(y) => Success(x + y)
    decreases |a|
  {
    hide ChordFrom;
    if a == [] {
      assert a + b == b;
      assert ChordsFrom(b).Success? ==> [] + ChordsFrom(b).value == ChordsFrom(b).value;
    } else {
      assert (a + b)[1..] == a[1..] + b;
      SequenceReads(a[1..], b);
      var x, y := ChordsFrom(a[1..]), ChordsFrom(b);
      if ChordFrom(a[0]).Success? && x.Success? && y.Success? {
        assert [ChordFrom(a[0]).value] + (x.value + y.value) == [ChordFrom(a[0]).value] + x.value + y.value;
      }
    }
  }

  lemma OneReads(s: string)
    ensures ChordsFrom([s]) == match ChordFrom(s) case Failure(e) => Failure(e) case Success(x) => Success([x])
  {
    hide ChordFrom;
    assert [s][0] == s && ChordsFrom([s][1..]) == Success([]);
    assert forall x: KeyChord :: [x] + [] == [x];
  }
}
