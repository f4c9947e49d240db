/** Key chords and sequences as text: printing, parsing, and their round trips. */
module KeyText {
  import opened Protocol

  datatype NamedKey =
    | Enter | Esc | Tab | Backspace | Space | Up | Down | Left | Right
    | PageUp | PageDown | Home | EndKey

  datatype KeyCode = Char(c: char) | Named(key: NamedKey)

  datatype Modifiers = Modifiers(ctrl: bool, alt: bool, shift: bool, meta: bool)

  datatype KeyChord = KeyChord(key: KeyCode, mods: Modifiers)

  datatype KeyParseError = Empty | UnknownModifier(text: string) | UnknownKey(text: string)

  const NO_MODS := Modifiers(false, false, false, false)

  // ---- printing -------------------------------------------------------------

  function NameOf(key: NamedKey): string {
    match key
    case Enter => "enter"
    case Esc => "esc"
    case Tab => "tab"
    case Backspace => "backspace"
    case Space => "space"
    case Up => "up"
    case Down => "down"
    case Left => "left"
    case Right => "right"
    case PageUp => "pageup"
    case PageDown => "pagedown"
    case Home => "home"
    case EndKey => "end"
  }

  function KeyText(key: KeyCode): string {
    match key
    case Char(c) => if c == ' ' then "space" else [c]
    case Named(k) => NameOf(k)
  }

  /** A held modifier in front of the rest. */
  function Prefixed(on: bool, name: string, rest: string): string { if on then name + "+" + rest else rest }

  function PrintChord(chord: KeyChord): string {
    var m := chord.mods;
    Prefixed(m.ctrl, "ctrl", Prefixed(m.alt, "alt",
      Prefixed(m.shift, "shift", Prefixed(m.meta, "meta", KeyText(chord.key)))))
  }

  function Print(chords: seq<KeyChord>): string
    decreases |chords|
  {
    if chords == [] then "" else if |chords| == 1 then PrintChord(chords[0])
        else PrintChord(chords[0]) + " " + Print(chords[1..])
  }

  // ---- parsing --------------------------------------------------------------

  function Lower(s: string): (r: string)
    ensures |r| == |s|
  {
    seq(|s|, i requires 0 <= i < |s| => if 'A' <= s[i] <= 'Z' then (s[i] as int + 32) as char else s[i])
  }

  /** The pieces between plus signs; never none. */
  function SplitPlus(s: string): (parts: seq<string>)
    ensures parts != []
  {
    if s == [] then [""]
    else
      var rest := SplitPlus(s[1..]);
      if s[0] == '+' then [""] + rest else [[s[0]] + rest[0]] + rest[1..]
  }

  function NamedFrom(s: string): Option<NamedKey> {
    if s == "enter" then Some(Enter) else if s == "esc" then Some(Esc) else if s == "tab" then Some(Tab)
    else if s == "backspace" then Some(Backspace) else if s == "space" then Some(Space) else if s == "up" then Some(Up)
    else if s == "down" then Some(Down) else if s == "left" then Some(Left) else if s == "right" then Some(Right)
    else if s == "pageup" then Some(PageUp) else if s == "pagedown" then Some(PageDown) else if s == "home"
        then Some(Home)
    else if s == "end" then Some(EndKey) else None
  }

  function Held(mods: Modifiers, m: string): Result<Modifiers, KeyParseError> {
    if m in ["ctrl", "control", "c"] then Success(mods.(ctrl := true))
    else if m in ["alt", "option", "a"] then Success(mods.(alt := true))
    else if m in ["shift", "s"] then Success(mods.(shift := true))
    else if m in ["meta", "cmd", "super", "win", "m"] then Success(mods.(meta := true))
    else Failure(UnknownModifier(m))
  }

  function HeldAll(mods: Modifiers, parts: seq<string>): Result<Modifiers, KeyParseError>
    decreases |parts|
  {
    if parts == [] then Success(mods)
    else
      match Held(mods, Lower(parts[0]))
      case Failure(e) => Failure(e)
      case Success(more) => HeldAll(more, parts[1..])
  }

  function KeyFrom(last: string): Result<KeyCode, KeyParseError> {
    if |last| == 0 then Failure(Empty)
    else if |last| == 1 then Success(Char(last[0]))
    else
      match NamedFrom(Lower(last))
      case None => Failure(UnknownKey(last))
      case Some(key) => Success(Named(key))
  }

  /** Whether the text ends in a literal plus. */
  predicate EndsInPlus(parts: seq<string>) { |parts| >= 2 && parts[|parts| - 1] == "" }

  function ModParts(parts: seq<string>): seq<string>
    requires parts != []
  {
    if EndsInPlus(parts) then parts[..|parts| - 2] else parts[..|parts| - 1]
  }

  function LastPart(parts: seq<string>): string
    requires parts != []
  {
    if EndsInPlus(parts) then "+" else parts[|parts| - 1]
  }

  function ChordFrom(s: string): Result<KeyChord, KeyParseError> {
    if s == "" then Failure(Empty)
    else
      var parts := SplitPlus(s);
      match HeldAll(NO_MODS, ModParts(parts))
      case Failure(e) => Failure(e)
      case Success(mods) =>
        match KeyFrom(LastPart(parts))
        case Failure(e) => Failure(e)
        case Success(key) => Success(KeyChord(key, mods))
  }

  method ReadModifiers(parts: seq<string>) returns (r: Result<Modifiers, KeyParseError>)
    ensures r == HeldAll(NO_MODS, parts)
  {
    var mods, n := NO_MODS, 0;
    while n < |parts|
      invariant n <= |parts| && HeldAll(mods, parts[n..]) == HeldAll(NO_MODS, parts)
    {
      assert parts[n..][0] == parts[n] && parts[n..][1..] == parts[n + 1..];
      var held := Held(mods, Lower(parts[n]));
      if held.Failure? { return Failure(held.error); }
      mods := held.value;
      n := n + 1;
    }
    return Success(mods);
  }

  /** The parser as it runs: the parts are popped, the modifiers read off in a loop. */
  method ParseChord(s: string) returns (r: Result<KeyChord, KeyParseError>)
    ensures r == ChordFrom(s)
  {
    if s == "" { return Failure(Empty); }
    var parts := SplitPlus(s);
    var last: string;
    if |parts| >= 2 && parts[|parts| - 1] == "" {
      parts := parts[..|parts| - 1];
      parts := parts[..|parts| - 1];
      last := "+";
    } else {
      last := parts[|parts| - 1];
      parts := parts[..|parts| - 1];
    }
    assert parts == ModParts(SplitPlus(s)) && last == LastPart(SplitPlus(s));
    var mods := ReadModifiers(parts);
    if mods.Failure? { return Failure(mods.error); }
    var key := KeyFrom(last);
    if key.Failure? { return Failure(key.error); }
    return Success(KeyChord(key.value, mods.value));
  }

  predicate Solid(s: string) { forall i | 0 <= i < |s| :: !IsSpace(s[i]) }

  function WordLength(s: string): (n: nat)
    ensures n <= |s| && Solid(s[..n]) && (n < |s| ==> IsSpace(s[n]))
  {
    if s == [] || IsSpace(s[0]) then 0
    else
      var n := 1 + WordLength(s[1..]);
      assert s[..n] == [s[0]] + s[1..][..n - 1];
      n
  }

  /** The words between whitespace. */
  function Words(s: string): seq<string>
    decreases |s|
  {
    if s == [] then []
    else if IsSpace(s[0]) then Words(s[1..])
    else [s[..WordLength(s)]] + Words(s[WordLength(s)..])
  }

  function ChordsFrom(words: seq<string>): Result<seq<KeyChord>, KeyParseError>
    decreases |words|
  {
    if words == [] then Success([])
    else
      match ChordFrom(words[0])
      case Failure(e) => Failure(e)
      case Success(chord) =>
        match ChordsFrom(words[1..])
        case Failure(e) => Failure(e)
        case Success(rest) => Success([chord] + rest)
  }

  function Parse(s: string): Result<seq<KeyChord>, KeyParseError> {
    match ChordsFrom(Words(s))
    case Failure(e) => Failure(e)
    case Success(chords) => if chords == [] then Failure(Empty) else Success(chords)
  }

  // ---- splitting what was printed -------------------------------------------

  lemma {:induction false} SplitPlain(s: string)
    requires '+' !in s
    ensures SplitPlus(s) == [s]
  {
    if s != [] {
      SplitPlain(s[1..]);
      assert [s[0]] + s[1..] == s;
    }
  }

  lemma {:induction false} SplitPrefix(m: string, rest: string)
    requires '+' !in m
    ensures SplitPlus(m + "+" + rest) == [m] + SplitPlus(rest)
  {
    var s := m + "+" + rest;
    if m == [] {
      assert s[1..] == rest;
    } else {
      assert s[1..] == m[1..] + "+" + rest;
      SplitPrefix(m[1..], rest);
      assert [m[0]] + m[1..] == m;
    }
  }

  function Opt(on: bool, name: string, rest: seq<string>): seq<string> { if on then [name] + rest else rest }

  /** The modifiers' names in printing order, and what follows. */
  function ModNames(m: Modifiers, rest: seq<string>): seq<string> {
    Opt(m.ctrl, "ctrl", Opt(m.alt, "alt", Opt(m.shift, "shift", Opt(m.meta, "meta", rest))))
  }

  lemma OptConcat(on: bool, name: string, a: seq<string>, b: seq<string>)
    ensures Opt(on, name, a + b) == Opt(on, name, a) + b
  {
    assert [name] + (a + b) == [name] + a + b;
  }

  lemma ModNamesConcat(m: Modifiers, rest: seq<string>)
    ensures ModNames(m, rest) == ModNames(m, []) + rest
  {
    assert [] + rest == rest;
    var four := Opt(m.meta, "meta", []);
    OptConcat(m.meta, "meta", [], rest);
    var three := Opt(m.shift, "shift", four);
    OptConcat(m.shift, "shift", four, rest);
    var two := Opt(m.alt, "alt", three);
    OptConcat(m.alt, "alt", three, rest);
    OptConcat(m.ctrl, "ctrl", two, rest);
  }

  lemma SplitPrefixed(on: bool, name: string, rest: string)
    requires '+' !in name
    ensures SplitPlus(Prefixed(on, name, rest)) == Opt(on, name, SplitPlus(rest))
  {
    if on {
      SplitPrefix(name, rest);
    }
  }

  lemma SplitPrinted(chord: KeyChord)
    ensures SplitPlus(PrintChord(chord)) == ModNames(chord.mods, SplitPlus(KeyText(chord.key)))
  {
    var m, text := chord.mods, KeyText(chord.key);
    SplitPrefixed(m.meta, "meta", text);
    var four := Prefixed(m.meta, "meta", text);
    SplitPrefixed(m.shift, "shift", four);
    var three := Prefixed(m.shift, "shift", four);
    SplitPrefixed(m.alt, "alt", three);
    SplitPrefixed(m.ctrl, "ctrl", Prefixed(m.alt, "alt", three));
  }

  lemma NamesKnown(key: NamedKey)
    ensures NamedFrom(NameOf(key)) == Some(key)
  {
  }

  lemma NamesLower(key: NamedKey)
    ensures Lower(NameOf(key)) == NameOf(key)
  {
    hide NamedFrom;
    assert forall i | 0 <= i < |NameOf(key)| :: !('A' <= NameOf(key)[i] <= 'Z');
  }

  lemma NamesRead(key: NamedKey)
    ensures '+' !in NameOf(key) && |NameOf(key)| >= 2 && Lower(NameOf(key)) == NameOf(key)
            && NamedFrom(NameOf(key)) == Some(key)
    ensures Solid(NameOf(key))
  {
    hide NamedFrom, Lower;
    NamesKnown(key);
    NamesLower(key);
  }

  lemma ModNamesRead(m: Modifiers)
    ensures HeldAll(NO_MODS, ModNames(m, [])) == Success(m)
  {
    var four := Opt(m.meta, "meta", []);
    var three := Opt(m.shift, "shift", four);
    assert Lower("ctrl") == "ctrl" && Lower("alt") == "alt" && Lower("shift") == "shift" && Lower("meta") == "meta";
    ReadOne(m.ctrl, "ctrl", Opt(m.alt, "alt", three), NO_MODS, Modifiers(m.ctrl, false, false, false));
    ReadOne(m.alt, "alt", three, Modifiers(m.ctrl, false, false, false), Modifiers(m.ctrl, m.alt, false, false));
    ReadOne(m.shift, "shift", four, Modifiers(m.ctrl, m.alt, false, false), Modifiers(m.ctrl, m.alt, m.shift, false));
    ReadOne(m.meta, "meta", [], Modifiers(m.ctrl, m.alt, m.shift, false), m);
  }

  lemma ReadOne(on: bool, name: string, rest: seq<string>, before: Modifiers, after: Modifiers)
    requires Lower(name) == name && (if on then Held(before, name) == Success(after) else before == after)
    ensures HeldAll(before, Opt(on, name, rest)) == HeldAll(after, rest)
  {
    if on {
      assert ([name] + rest)[1..] == rest;
    }
  }

  predicate Printable(chord: KeyChord) { chord.key.Char? ==> !IsSpace(chord.key.c) }

  /** How a key's own text splits and reads. */
  lemma KeyReads(key: KeyCode)
    requires key.Char? ==> !IsSpace(key.c)
    ensures var parts := SplitPlus(KeyText(key));
            KeyFrom(KeyText(key)) == Success(key) && KeyText(key) != "" && parts == if KeyText(key) == "+" then ["", ""]
              else [KeyText(key)]
  {
    var text := KeyText(key);
    if key.Named? {
      NamesRead(key.key);
    }
    if text == "+" {
      assert "+"[1..] == "" && SplitPlus("") == [""];
    } else {
      SplitPlain(text);
    }
  }

  lemma PartsOf(names: seq<string>, text: string)
    requires text != ""
    ensures var parts := names + if text == "+" then ["", ""] else [text];
            parts != [] && ModParts(parts) == names && LastPart(parts) == text
  {
  }

  /** A printed chord reads back, a literal plus with any modifiers included. */
  lemma {:induction false} ChordRoundTrip(chord: KeyChord)
    requires Printable(chord)
    ensures ChordFrom(PrintChord(chord)) == Success(chord)
  {
    var text, names := KeyText(chord.key), ModNames(chord.mods, []);
    SplitPrinted(chord);
    KeyReads(chord.key);
    ModNamesConcat(chord.mods, SplitPlus(text));
    PartsOf(names, text);
    ModNamesRead(chord.mods);
    PrintedNotEmpty(chord);
  }

  lemma PrefixedLonger(on: bool, name: string, rest: string)
    ensures |Prefixed(on, name, rest)| >= |rest|
  {
  }

  lemma PrintedNotEmpty(chord: KeyChord)
    ensures PrintChord(chord) != ""
  {
    var m, text := chord.mods, KeyText(chord.key);
    var four := Prefixed(m.meta, "meta", text);
    var three := Prefixed(m.shift, "shift", four);
    PrefixedLonger(m.meta, "meta", text);
    PrefixedLonger(m.shift, "shift", four);
    PrefixedLonger(m.alt, "alt", three);
    PrefixedLonger(m.ctrl, "ctrl", Prefixed(m.alt, "alt", three));
    assert |text| >= 1;
  }

  // ---- sequences ------------------------------------------------------------

  lemma PrefixedSolid(on: bool, name: string, rest: string)
    requires Solid(name) && Solid(rest)
    ensures Solid(Prefixed(on, name, rest))
  {
  }

  lemma PrintedSolid(chord: KeyChord)
    requires Printable(chord)
    ensures Solid(PrintChord(chord))
  {
    var m, text := chord.mods, KeyText(chord.key);
    if chord.key.Named? {
      NamesRead(chord.key.key);
    }
    var four := Prefixed(m.meta, "meta", text);
    var three := Prefixed(m.shift, "shift", four);
    PrefixedSolid(m.meta, "meta", text);
    PrefixedSolid(m.shift, "shift", four);
    PrefixedSolid(m.alt, "alt", three);
    PrefixedSolid(m.ctrl, "ctrl", Prefixed(m.alt, "alt", three));
  }

  lemma {:induction false} WordLengthIs(t: string, rest: string)
    requires Solid(t) && (rest == [] || IsSpace(rest[0]))
    ensures WordLength(t + rest) == |t|
  {
    if t == [] {
      assert t + rest == rest;
    } else {
      assert (t + rest)[1..] == t[1..] + rest;
      WordLengthIs(t[1..], rest);
    }
  }

  lemma FirstWord(t: string, rest: string)
    requires t != [] && Solid(t)
    ensures Words(t) == [t] && Words(t + " " + rest) == [t] + Words(rest)
  {
    WordLengthIs(t, []);
    assert t + [] == t && t[..|t|] == t && t[|t|..] == [];
    var tail := " " + rest;
    WordLengthIs(t, tail);
    assert t + " " + rest == t + tail && (t + tail)[..|t|] == t && (t + tail)[|t|..] == tail && tail[1..] == rest;
  }

  ghost predicate AllPrintable(chords: seq<KeyChord>) { forall i | 0 <= i < |chords| :: Printable(chords[i]) }

  lemma {:induction false} WordsReadBack(chords: seq<KeyChord>)
    requires AllPrintable(chords)
    ensures ChordsFrom(Words(Print(chords))) == Success(chords)
    decreases |chords|
  {
    hide PrintChord, ChordFrom;
    if chords != [] {
      var text, rest := PrintChord(chords[0]), chords[1..];
      assert Printable(chords[0]);
      PrintedSolid(chords[0]);
      PrintedNotEmpty(chords[0]);
      ChordRoundTrip(chords[0]);
      FirstWord(text, Print(rest));
      WordsReadBack(rest);
      assert chords == [chords[0]] + rest;
      assert ([text] + Words(Print(rest)))[1..] == Words(Print(rest)) && [text][1..] == [];
    }
  }

  // ---- what parsing can yield -----------------------------------------------

  lemma {:induction false} WordsSolid(s: string)
    ensures forall i | 0 <= i < |Words(s)| :: Solid(Words(s)[i])
    decreases |s|
  {
    if s != [] {
      WordsSolid(if IsSpace(s[0]) then s[1..] else s[WordLength(s)..]);
    }
  }

  lemma {:induction false} PartsSolid(s: string)
    requires Solid(s)
    ensures forall i | 0 <= i < |SplitPlus(s)| :: Solid(SplitPlus(s)[i])
  {
    if s != [] {
      assert Solid(s[1..]);
      PartsSolid(s[1..]);
      var rest := SplitPlus(s[1..]);
      assert Solid(rest[0]) && Solid([s[0]] + rest[0]);
    }
  }

  lemma ParsedChordPrintable(s: string)
    requires Solid(s) && ChordFrom(s).Success?
    ensures Printable(ChordFrom(s).value)
  {
    PartsSolid(s);
    assert Solid(LastPart(SplitPlus(s)));
  }

  lemma {:induction false} ParsedPrintable(words: seq<string>)
    requires (forall i | 0 <= i < |words| :: Solid(words[i])) && ChordsFrom(words).Success?
    ensures AllPrintable(ChordsFrom(words).value)
    decreases |words|
  {
    if words != [] {
      ParsedChordPrintable(words[0]);
      ParsedPrintable(words[1..]);
    }
  }

  /** A printed sequence reads back exactly when it is not empty and none of its characters is whitespace. */
  lemma {:induction false} SequenceRoundTrip(chords: seq<KeyChord>)
    ensures Parse(Print(chords)) == Success(chords) <==> chords != [] && AllPrintable(chords)
  {
    if AllPrintable(chords) {
      WordsReadBack(chords);
    } else if Parse(Print(chords)).Success? {
      WordsSolid(Print(chords));
      ParsedPrintable(Words(Print(chords)));
    }
  }

  /** For every text that parses, printing and parsing again gives the same sequence. */
  lemma {:induction false} PrintIsStable(s: string)
    requires Parse(s).Success?
    ensures Parse(Print(Parse(s).value)) == Parse(s)
  {
    WordsSolid(s);
    ParsedPrintable(Words(s));
    SequenceRoundTrip(Parse(s).value);
  }
}
