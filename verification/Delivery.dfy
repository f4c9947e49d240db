/** Bounded host-to-UI messages: a batch of patches leaves as one frame, or as fragments that each fit. */
module Delivery {
  import opened Protocol

  const VIEW_MESSAGE_LIMIT: nat := 65536
  const FRAME_LIMIT: nat := VIEW_MESSAGE_LIMIT - 1024
  const DATA_LIMIT: nat := FRAME_LIMIT - 1024
  const U32_MAX: nat := 0xFFFF_FFFF

  datatype Kind = SnapshotBatch | DeltaBatch

  datatype Position = Start(bytes: nat) | More(index: nat) | End(index: nat)

  /** A complete body carries its patch list as the list's own JSON text. */
  datatype FrameBody = Complete(patches: string) | Fragment(position: Position, json: string)

  datatype Frame = Frame(revision: nat, kind: Kind, body: FrameBody)

  datatype DeliveryError = RevisionExhausted | BatchTooLarge | FrameTooLarge

  // ---- text sizes -----------------------------------------------------------

  function CharBytes(c: char): (n: nat)
    ensures 1 <= n <= 4
  {
    if c < 0x80 as char then 1 else if c < 0x800 as char then 2 else if c < 0x1_0000 as char then 3 else 4
  }

  /** The UTF-8 length of a text. */
  function Bytes(s: string): nat { if s == [] then 0 else CharBytes(s[0]) + Bytes(s[1..]) }

  lemma {:induction false} BytesConcat(a: string, b: string)
    ensures Bytes(a + b) == Bytes(a) + Bytes(b)
  {
    if a == [] {
      assert a + b == b;
    } else {
      assert (a + b)[1..] == a[1..] + b;
      BytesConcat(a[1..], b);
    }
  }

  lemma {:induction false} BytesBounded(s: string)
    ensures |s| <= Bytes(s) <= 4 * |s|
  {
    if s != [] {
      BytesBounded(s[1..]);
    }
  }

  // ---- JSON strings, section 7 of RFC 8259 ----------------------------------

  function HexDigit(n: nat): char
    requires n < 16
  {
    if n < 10 then '0' + n as char else 'a' + (n - 10) as char
  }

  /** How a character stands inside a JSON string. */
  function Escape(c: char): string {
    if c == '"' then "\\\"" else if c == '\\' then "\\\\"
    else if c == 0x8 as char then "\\b" else if c == 0xC as char then "\\f"
    else if c == '\n' then "\\n" else if c == '\r' then "\\r" else if c == '\t' then "\\t"
    else if c < 0x20 as char then "\\u00" + [HexDigit(c as nat / 16), HexDigit(c as nat % 16)]
    else [c]
  }

  /** What a JSON reader makes of an escape and what follows it. */
  function Unescaped(s: string): Option<(char, string)>
    requires s != []
  {
    if s[0] != '\\' then (if s[0] == '"' || s[0] < 0x20 as char then None else Some((s[0], s[1..])))
    else if |s| < 2 then None
    else if s[1] == '"' || s[1] == '\\' then Some((s[1], s[2..]))
    else if s[1] == 'b' then Some((0x8 as char, s[2..])) else if s[1] == 'f' then Some((0xC as char, s[2..]))
    else if s[1] == 'n' then Some((0xA as char, s[2..])) else if s[1] == 'r' then Some((0xD as char, s[2..]))
    else if s[1] == 't' then Some((0x9 as char, s[2..]))
    else if s[1] == 'u' && |s| >= 6 && s[2] == '0' && s[3] == '0' && Hex(s[4]).Some? && Hex(s[5]).Some?
      then Some(((16 * Hex(s[4]).value + Hex(s[5]).value) as char, s[6..]))
    else None
  }

  function Hex(c: char): (n: Option<nat>)
    ensures n.Some? ==> n.value < 16
  {
    if '0' <= c <= '9' then Some(c as nat - '0' as nat) else if 'a' <= c <= 'f' then Some(10 + c as nat - 'a' as nat)
        else None
  }

  /** The text a JSON reader reads. */
  function UnescapeAll(s: string): Option<string>
    decreases |s|
  {
    if s == [] then Some([])
    else
      match Unescaped(s)
      case None => None
      case Some((c, rest)) =>
        if |rest| >= |s| then None
        else
          match UnescapeAll(rest)
          case None => None
          case Some(text) => Some([c] + text)
  }

  lemma EscapeReads(c: char, rest: string)
    ensures Unescaped(Escape(c) + rest) == Some((c, rest))
  {
    var s := Escape(c) + rest;
    if |Escape(c)| == 6 {
      var high, low := c as nat / 16, c as nat % 16;
      assert Hex(HexDigit(high)) == Some(high) && Hex(HexDigit(low)) == Some(low);
      assert Escape(c) == ['\\', 'u', '0', '0', HexDigit(high), HexDigit(low)];
      assert s[6..] == rest;
    } else if |Escape(c)| == 2 {
      assert s[2..] == rest;
    } else {
      assert s[1..] == rest;
    }
  }

  /** Escaped text reads back as the text. */
  lemma {:induction false} EscapeRoundTrip(s: string)
    ensures UnescapeAll(EscapeAll(s)) == Some(s)
  {
    if s != [] {
      EscapeReads(s[0], EscapeAll(s[1..]));
      EscapeRoundTrip(s[1..]);
      assert s == [s[0]] + s[1..];
    }
  }

  function EscapeAll(s: string): string { if s == [] then [] else Escape(s[0]) + EscapeAll(s[1..]) }

  /** The cost the splitter charges a character. */
  function Cost(c: char): (n: nat)
    ensures 1 <= n <= 6
  {
    if c == '"' || c == '\\' || c == 0x8 as char || c == 0xC as char || c == '\n' || c == '\r' || c == '\t' then 2
    else if c < 0x20 as char then 6
    else CharBytes(c)
  }

  function CostOf(s: string): nat { if s == [] then 0 else Cost(s[0]) + CostOf(s[1..]) }

  lemma BytesOfTwo(a: char, b: char)
    ensures Bytes([a, b]) == CharBytes(a) + CharBytes(b)
  {
    assert [a, b][1..] == [b] && [b][1..] == [];
    assert Bytes([b]) == CharBytes(b) + Bytes([]);
  }

  lemma CostIsEscapedSize(c: char)
    ensures Cost(c) == Bytes(Escape(c))
  {
    if Escape(c) == [c] {
      assert [c][1..] == [];
    } else if Cost(c) == 2 {
      BytesOfTwo(Escape(c)[0], Escape(c)[1]);
      assert Escape(c) == [Escape(c)[0], Escape(c)[1]];
    } else {
      var high, low := HexDigit(c as nat / 16), HexDigit(c as nat % 16);
      assert Escape(c) == ['\\', 'u'] + (['0', '0'] + [high, low]);
      BytesConcat(['\\', 'u'], ['0', '0'] + [high, low]);
      BytesConcat(['0', '0'], [high, low]);
      BytesOfTwo('\\', 'u');
      BytesOfTwo('0', '0');
      BytesOfTwo(high, low);
    }
  }

  /** The splitter's costs are the exact sizes of the escaped text. */
  lemma {:induction false} CostIsExact(s: string)
    ensures CostOf(s) == Bytes(EscapeAll(s))
  {
    if s != [] {
      CostIsEscapedSize(s[0]);
      BytesConcat(Escape(s[0]), EscapeAll(s[1..]));
      CostIsExact(s[1..]);
    }
  }

  lemma {:induction false} CostSnoc(s: string, c: char)
    ensures CostOf(s + [c]) == CostOf(s) + Cost(c)
  {
    if s == [] {
      assert (s + [c]) == [c] && [c][1..] == [];
    } else {
      assert (s + [c])[1..] == s[1..] + [c];
      CostSnoc(s[1..], c);
    }
  }

  lemma {:induction false} CostCoversBytes(s: string)
    ensures CostOf(s) >= Bytes(s)
  {
    if s != [] {
      CostCoversBytes(s[1..]);
    }
  }

  // ---- the serialized frame -------------------------------------------------

  function Decimal(n: nat): (s: string)
    ensures |s| >= 1
  {
    if n < 10 then ['0' + n as char] else Decimal(n / 10) + ['0' + (n % 10) as char]
  }

  lemma {:induction false} DecimalShort(n: nat, digits: nat, power: nat)
    requires digits >= 1 && n < power && power == Power(digits)
    ensures |Decimal(n)| <= digits
    decreases digits
  {
    if n >= 10 {
      DecimalShort(n / 10, digits - 1, Power(digits - 1));
    }
  }

  function Power(digits: nat): nat { if digits == 0 then 1 else 10 * Power(digits - 1) }

  lemma U32Digits(n: nat)
    requires n <= U32_MAX
    ensures |Decimal(n)| <= 10
  {
    assert Power(4) == 10_000 && Power(8) == 100_000_000 by {
      assert Power(2) == 100;
      assert Power(4) == 10 * (10 * Power(2));
      assert Power(6) == 10 * (10 * Power(4));
    }
    assert Power(10) == 10_000_000_000 by {
      assert Power(10) == 10 * (10 * Power(8));
    }
    DecimalShort(n, 10, Power(10));
  }

  function KindText(kind: Kind): string { if kind.SnapshotBatch? then "\"Snapshot\"" else "\"Delta\"" }

  function PositionText(p: Position): string {
    match p
    case Start(bytes) => "{\"type\":\"Start\",\"bytes\":" + Decimal(bytes) + "}"
    case More(index) => "{\"type\":\"More\",\"index\":" + Decimal(index) + "}"
    case End(index) => "{\"type\":\"End\",\"index\":" + Decimal(index) + "}"
  }

  /** Everything up to the payload. */
  function Prefix(f: Frame): string {
    "{\"revision\":" + Decimal(f.revision) + ",\"kind\":" + KindText(f.kind) + ",\"body\":{\"type\":" +
    match f.body
    case Complete(_) => "\"Complete\",\"patches\":"
    case Fragment(p, _) => "\"Fragment\",\"position\":" + PositionText(p) + ",\"json\":\""
  }

  function Payload(f: Frame): string { if f.body.Complete? then f.body.patches else EscapeAll(f.body.json) }

  function Suffix(f: Frame): string { if f.body.Complete? then "}}" else "\"}}" }

  function Serialized(f: Frame): string { Prefix(f) + Payload(f) + Suffix(f) }

  function FrameBytes(f: Frame): nat { Bytes(Serialized(f)) }

  predicate SmallNumbers(f: Frame) {
    f.revision <= U32_MAX
    && (f.body.Fragment? ==>
       (if f.body.position.Start? then f.body.position.bytes else f.body.position.index)
       <= U32_MAX)
  }

  lemma EnvelopeSmall(f: Frame)
    requires SmallNumbers(f)
    ensures |Prefix(f)| + |Suffix(f)| <= if f.body.Complete? then 100 else 170
  {
    U32Digits(f.revision);
    if f.body.Fragment? {
      U32Digits(if f.body.position.Start? then f.body.position.bytes else f.body.position.index);
    }
  }

  lemma FrameSize(f: Frame)
    requires SmallNumbers(f)
    ensures Bytes(Payload(f)) <= FrameBytes(f) <= Bytes(Payload(f)) + if f.body.Complete? then 400 else 680
  {
    EnvelopeSmall(f);
    BytesConcat(Prefix(f) + Payload(f), Suffix(f));
    BytesConcat(Prefix(f), Payload(f));
    BytesBounded(Prefix(f));
    BytesBounded(Suffix(f));
  }

  // ---- splitting ------------------------------------------------------------

  function Joined(pieces: seq<string>): string {
    if pieces == [] then [] else Joined(pieces[..|pieces| - 1]) + pieces[|pieces| - 1]
  }

  predicate Fits(pieces: seq<string>) {
    forall i | 0 <= i < |pieces| :: pieces[i] != [] && CostOf(pieces[i]) <= DATA_LIMIT
  }

  /** No piece could have taken the first character of the next. */
  ghost predicate Greedy(pieces: seq<string>) {
    forall i, j | 0 <= i < j < |pieces| && j == i + 1 ::
        pieces[j] != [] && CostOf(pieces[i]) + Cost(pieces[j][0]) > DATA_LIMIT
  }

  lemma JoinedSnoc(pieces: seq<string>, p: string)
    ensures Joined(pieces + [p]) == Joined(pieces) + p
  {
    assert (pieces + [p])[..|pieces|] == pieces;
  }

  /** The text is cut up to `start`; what follows up to `offset` is the open piece. */
  ghost predicate Cutting(json: string, pieces: seq<string>, start: nat, offset: nat, escaped: nat) {
    && start <= offset <= |json| && (offset > 0 ==> start < offset)
    && Joined(pieces) == json[..start] && Fits(pieces) && Greedy(pieces)
    && escaped == CostOf(json[start..offset]) <= DATA_LIMIT
    && (pieces != [] ==> start < |json| && CostOf(pieces[|pieces| - 1]) + Cost(json[start]) > DATA_LIMIT)
  }

  lemma PieceCut(json: string, pieces: seq<string>, start: nat, offset: nat, escaped: nat)
    requires Cutting(json, pieces, start, offset, escaped) && start < offset
    ensures var more := pieces + [json[start..offset]]; Joined(more) == json[..offset] && Fits(more) && Greedy(more)
  {
    var piece := json[start..offset];
    JoinedSnoc(pieces, piece);
    assert json[..start] + piece == json[..offset];
    assert piece[0] == json[start];
  }

  lemma CostNext(json: string, start: nat, offset: nat)
    requires start <= offset < |json|
    ensures CostOf(json[start..offset + 1]) == CostOf(json[start..offset]) + Cost(json[offset])
  {
    CostSnoc(json[start..offset], json[offset]);
    assert json[start..offset + 1] == json[start..offset] + [json[offset]];
  }

  /** The open piece closes before a character that does not fit any more, which starts the next. */
  lemma Cut(json: string, pieces: seq<string>, start: nat, offset: nat, escaped: nat)
    requires Cutting(json, pieces, start, offset, escaped) && offset < |json|
             && escaped + Cost(json[offset]) > DATA_LIMIT
    ensures Cutting(json, pieces + [json[start..offset]], offset, offset + 1, Cost(json[offset]))
  {
    hide Greedy, Joined;
    assert json[0..0] == [] && json[offset..offset] == [];
    CostNext(json, offset, offset);
    PieceCut(json, pieces, start, offset, escaped);
  }

  /** A character joins the open piece. */
  lemma Take(json: string, pieces: seq<string>, start: nat, offset: nat, escaped: nat)
    requires Cutting(json, pieces, start, offset, escaped) && offset < |json|
             && escaped + Cost(json[offset]) <= DATA_LIMIT
    ensures Cutting(json, pieces, start, offset + 1, escaped + Cost(json[offset]))
  {
    hide Greedy, Joined;
    CostNext(json, start, offset);
  }

  lemma Uncut(json: string)
    ensures Cutting(json, [], 0, 0, 0)
  {
    assert json[0..0] == [] && json[..0] == [];
  }

  lemma AllCut(json: string, pieces: seq<string>, start: nat, escaped: nat)
    requires json != [] && Cutting(json, pieces, start, |json|, escaped)
    ensures var more := pieces + [json[start..]]; Joined(more) == json && Fits(more) && Greedy(more)
  {
    PieceCut(json, pieces, start, |json|, escaped);
    assert json[..|json|] == json && json[start..|json|] == json[start..];
  }

  /** Cut a text between characters so that every piece fits and no piece is empty. */
  method Split(json: string) returns (pieces: seq<string>)
    requires json != []
    ensures Joined(pieces) == json && Fits(pieces) && Greedy(pieces) && pieces != []
  {
    hide Joined, Fits, Greedy, CostOf;
    pieces := [];
    var start: nat, escaped: nat, offset: nat := 0, 0, 0;
    Uncut(json);
    while offset < |json|
      invariant Cutting(json, pieces, start, offset, escaped)
    {
      var cost := Cost(json[offset]);
      if escaped + cost > DATA_LIMIT {
        Cut(json, pieces, start, offset, escaped);
        pieces := pieces + [json[start..offset]];
        start, escaped := offset, 0;
      } else {
        Take(json, pieces, start, offset, escaped);
      }
      escaped := escaped + cost;
      offset := offset + 1;
    }
    AllCut(json, pieces, start, escaped);
    pieces := pieces + [json[start..]];
  }

  lemma {:induction false} PiecesCounted(pieces: seq<string>)
    requires Fits(pieces)
    ensures |pieces| <= |Joined(pieces)|
    decreases |pieces|
  {
    if pieces != [] {
      PiecesCounted(pieces[..|pieces| - 1]);
    }
  }

  function PositionAt(i: nat, count: nat, bytes: nat): Position {
    if i == 0 then Start(bytes) else if i == count - 1 then End(i) else More(i)
  }

  function Framed(revision: nat, kind: Kind, pieces: seq<string>, bytes: nat): seq<Frame> {
    seq(|pieces|, i requires 0 <= i < |pieces| =>
      Frame(revision, kind, Fragment(PositionAt(i, |pieces|, bytes), pieces[i])))
  }

  /** A text too long for one complete frame is cut into at least two fragments, all of which fit. */
  method MakeFragments(revision: nat, kind: Kind, json: string) returns (r: Result<seq<Frame>, DeliveryError>)
    requires revision <= U32_MAX
    ensures r.Failure? <==> (Bytes(json) == 0 || Bytes(json) > U32_MAX)
    ensures r.Failure? ==> r.error == BatchTooLarge
    ensures r.Success? ==> exists pieces ::
            r.value == Framed(revision, kind, pieces, Bytes(json)) && Joined(pieces) == json && Fits(pieces)
            && Greedy(pieces)
  {
    BytesBounded(json);
    var bytes := Bytes(json);
    if bytes > U32_MAX || bytes == 0 { return Failure(BatchTooLarge); }
    var pieces := Split(json);
    PiecesCounted(pieces);
    var frames: seq<Frame> := [];
    for i := 0 to |pieces|
      invariant |frames| == i && frames == Framed(revision, kind, pieces, bytes)[..i]
    {
      var position := Start(bytes);
      if i != 0 {
        if i > U32_MAX { return Failure(BatchTooLarge); }
        position := if i == |pieces| - 1 then End(i) else More(i);
      }
      frames := frames + [Frame(revision, kind, Fragment(position, pieces[i]))];
    }
    assert frames == Framed(revision, kind, pieces, bytes);
    return Success(frames);
  }

  // ---- what arrives ---------------------------------------------------------

  /** One revision and kind; the size at the start, then consecutive numbers, the last marked as the end. */
  ghost predicate Numbered(frames: seq<Frame>, bytes: nat) {
    forall i | 0 <= i < |frames| ::
      && frames[i].revision == frames[0].revision && frames[i].kind == frames[0].kind
      && frames[i].body.Fragment?
      && (i == 0 ==> frames[i].body.position == Start(bytes))
      && (0 < i < |frames| - 1 ==> frames[i].body.position == More(i))
      && (0 < i == |frames| - 1 ==> frames[i].body.position == End(i))
  }

  function Texts(frames: seq<Frame>): seq<string> {
    seq(|frames|, i requires 0 <= i < |frames| => if frames[i].body.Fragment? then frames[i].body.json else [])
  }

  /** What a receiver makes of a group: nothing unless it is whole. */
  ghost function Reassembled(frames: seq<Frame>): Option<string> {
    if |frames| == 1 && frames[0].body.Complete? then Some(frames[0].body.patches)
    else if |frames| >= 2 && frames[0].body.Fragment? && frames[0].body.position.Start?
        && Numbered(frames, frames[0].body.position.bytes)
            && Bytes(Joined(Texts(frames))) == frames[0].body.position.bytes
    then Some(Joined(Texts(frames)))
    else None
  }

  lemma OnePieceIsSmall(pieces: seq<string>)
    requires Fits(pieces) && |pieces| == 1
    ensures Bytes(Joined(pieces)) <= DATA_LIMIT
  {
    assert pieces[..0] == [] && Joined(pieces) == [] + pieces[0] == pieces[0];
    CostCoversBytes(pieces[0]);
  }

  lemma NotOnePiece(pieces: seq<string>)
    requires Fits(pieces) && DATA_LIMIT < Bytes(Joined(pieces))
    ensures |pieces| >= 2
  {
    if |pieces| == 1 {
      OnePieceIsSmall(pieces);
    }
  }

  lemma {:induction false} FragmentFits(revision: nat, kind: Kind, pieces: seq<string>, bytes: nat, i: nat)
    requires Fits(pieces) && i < |pieces| <= U32_MAX && revision <= U32_MAX && bytes <= U32_MAX
    ensures FrameBytes(Framed(revision, kind, pieces, bytes)[i]) < FRAME_LIMIT
  {
    var f := Framed(revision, kind, pieces, bytes)[i];
    CostIsExact(pieces[i]);
    assert SmallNumbers(f) && Payload(f) == EscapeAll(pieces[i]);
    FrameSize(f);
  }

  /**
   Fragments of a text longer than one frame's data: at least two, numbered from start to end, and together
   the text.
   */
  lemma {:induction false} FragmentsRoundTrip(revision: nat, kind: Kind, json: string, pieces: seq<string>)
    requires Fits(pieces) && Joined(pieces) == json && DATA_LIMIT < Bytes(json)
    ensures |pieces| >= 2 && Reassembled(Framed(revision, kind, pieces, Bytes(json))) == Some(json)
  {
    hide Bytes, Joined, Fits;
    NotOnePiece(pieces);
    var frames := Framed(revision, kind, pieces, Bytes(json));
    assert Texts(frames) == pieces;
  }

  /** A batch whose complete frame is over the limit is longer than one fragment holds. */
  lemma {:induction false} TooLongForOne(revision: nat, kind: Kind, patches: string)
    requires revision <= U32_MAX && FrameBytes(Frame(revision, kind, Complete(patches))) >= FRAME_LIMIT
    ensures Bytes(patches) > DATA_LIMIT
  {
    FrameSize(Frame(revision, kind, Complete(patches)));
  }

  predicate AllFit(frames: seq<Frame>) { forall i | 0 <= i < |frames| :: FrameBytes(frames[i]) < FRAME_LIMIT }

  /** Whether every size is below the limit. */
  method CheckSizes(sizes: seq<nat>, limit: nat) returns (ok: bool)
    ensures ok == forall i | 0 <= i < |sizes| :: sizes[i] < limit
  {
    ok := true;
    for i := 0 to |sizes|
      invariant ok == forall k | 0 <= k < i :: sizes[k] < limit
    {
      if sizes[i] >= limit { ok := false; }
    }
  }

  /** What a successful delivery is. */
  ghost predicate Delivered(frames: seq<Frame>, revision: nat, kind: Kind, patches: string) {
    && (forall i | 0 <= i < |frames| :: frames[i].revision == revision && frames[i].kind == kind)
    && AllFit(frames) && Reassembled(frames) == Some(patches)
  }

  class ViewEncoder {
    var revision: nat

    ghost predicate Valid() reads this { revision <= U32_MAX }

    constructor ()
      ensures Valid() && revision == 0
    {
      revision := 0;
    }

    /** The revision advances by one exactly on success; no frame is ever too large. */
    method Encode(kind: Kind, patches: string) returns (r: Result<seq<Frame>, DeliveryError>)
      requires Valid()
      modifies this
      ensures Valid() && revision == (if r.Success? then old(revision) + 1 else old(revision))
      ensures r == Failure(RevisionExhausted) <==> old(revision) == U32_MAX
      ensures r == Failure(BatchTooLarge) <==>
                && old(revision) < U32_MAX && Bytes(patches) > U32_MAX
                && FrameBytes(Frame(old(revision) + 1, kind, Complete(patches))) >= FRAME_LIMIT
      ensures r != Failure(FrameTooLarge)
      ensures r.Success? ==> Delivered(r.value, revision, kind, patches)
      ensures r.Success? && FrameBytes(Frame(revision, kind, Complete(patches))) < FRAME_LIMIT ==>
                r.value == [Frame(revision, kind, Complete(patches))]
      ensures r.Success? && FrameBytes(Frame(revision, kind, Complete(patches))) >= FRAME_LIMIT ==>
                && |r.value| >= 2 && (forall i | 0 <= i < |r.value| :: r.value[i].body.Fragment?)
                && Fits(Texts(r.value)) && Greedy(Texts(r.value))
    {
      if revision == U32_MAX { return Failure(RevisionExhausted); }
      var next := revision + 1;
      var complete := Frame(next, kind, Complete(patches));
      var frames: seq<Frame>;
      if FrameBytes(complete) < FRAME_LIMIT {
        frames := [complete];
      } else {
        TooLongForOne(next, kind, patches);
        var made := MakeFragments(next, kind, patches);
        if made.Failure? { return Failure(BatchTooLarge); }
        frames := made.value;
        WholeGroup(next, kind, patches, frames);
      }
      var sizes := seq(|frames|, i requires 0 <= i < |frames| => FrameBytes(frames[i]));
      var ok := CheckSizes(sizes, FRAME_LIMIT);
      assert AllFit(frames) ==> ok;
      r := if ok then Success(frames) else Failure(FrameTooLarge);
      revision := next;
    }
  }

  lemma WholeGroup(revision: nat, kind: Kind, json: string, frames: seq<Frame>)
    requires revision <= U32_MAX && DATA_LIMIT < Bytes(json) <= U32_MAX
    requires exists pieces ::
             frames == Framed(revision, kind, pieces, Bytes(json)) && Joined(pieces) == json
             && Fits(pieces) && Greedy(pieces)
    ensures Delivered(frames, revision, kind, json) && |frames| >= 2
    ensures Fits(Texts(frames)) && Greedy(Texts(frames)) && forall i | 0 <= i < |frames| :: frames[i].body.Fragment?
  {
    var pieces :| frames == Framed(revision, kind, pieces, Bytes(json)) && Joined(pieces) == json && Fits(pieces)
        && Greedy(pieces);
    PiecesCounted(pieces);
    BytesBounded(json);
    FragmentsRoundTrip(revision, kind, json, pieces);
    assert Texts(frames) == pieces;
    forall i: nat | i < |pieces|
      ensures FrameBytes(frames[i]) < FRAME_LIMIT
    {
      FragmentFits(revision, kind, pieces, Bytes(json), i);
    }
  }
}
