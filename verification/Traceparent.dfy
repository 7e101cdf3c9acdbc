/** Trace identity and the hand-written traceparent codec used on Kafka messages
    (internal/obs/propagation.go), plus the parent rules of the SDK's span start.

    A string here is Go's byte string: one char per byte. */
module Traceparent {
  import opened Wrappers
  import opened Text

  type Byte = x: int | 0 <= x < 256

  type TraceID = b: seq<Byte> | |b| == 16 witness seq(16, _ => 0)
  type SpanID = b: seq<Byte> | |b| == 8 witness seq(8, _ => 0)

  predicate NonZero(b: seq<Byte>) {
    exists i :: 0 <= i < |b| && b[i] != 0
  }

  const NO_TRACE: TraceID := [0, 0, 0, 0, 0, 0, 0, 0, 0, 0, 0, 0, 0, 0, 0, 0]
  const NO_SPAN: SpanID := [0, 0, 0, 0, 0, 0, 0, 0]

  datatype SpanContext = SpanContext(traceID: TraceID, spanID: SpanID, flags: Byte, remote: bool) {
    predicate IsValid() {
      NonZero(traceID) && NonZero(spanID)
    }

    predicate IsSampled() {
      flags % 2 == 1
    }
  }

  /** What a context without a span carries. */
  const ABSENT := SpanContext(NO_TRACE, NO_SPAN, 0, false)

  /** The fresh identifiers and root sampling decision one span start may use. */
  datatype Draw = Draw(traceID: TraceID, spanID: SpanID, sampled: bool)

  function WithSampled(flags: Byte, sampled: bool): Byte {
    if sampled && flags % 2 == 0 then flags + 1
    else if !sampled && flags % 2 == 1 then flags - 1
    else flags
  }

  /** Tracer.Start: the trace id of a parent is inherited, the span id is always
      new, and a valid parent decides sampling (ParentBased in InitTracer). */
  function StartSpan(parent: SpanContext, draw: Draw): SpanContext {
    SpanContext(
      if NonZero(parent.traceID) then parent.traceID else draw.traceID,
      draw.spanID,
      WithSampled(parent.flags, if parent.IsValid() then parent.IsSampled() else draw.sampled),
      false)
  }

  /** What a span start owes its parent and its draw: always a span id of its own, the
      trace id of a parent that has one, the sampling of a valid parent, and every
      other flag of the parent. */
  lemma StartSpanRules(parent: SpanContext, draw: Draw)
    ensures var sc := StartSpan(parent, draw);
            && sc.spanID == draw.spanID && !sc.remote
            && sc.traceID
               == (if exists i :: 0 <= i < 16 && parent.traceID[i] != 0 then parent.traceID else draw.traceID)
            && sc.flags / 2 == parent.flags / 2
            && sc.flags % 2 == (if parent.IsValid() then parent.flags % 2 else if draw.sampled then 1 else 0)
  {
  }

  // ---------- hexadecimal ----------

  function HexDigit(n: int): char
    requires 0 <= n < 16
  {
    if n < 10 then ('0' as int + n) as char else ('a' as int + n - 10) as char
  }

  predicate LowerHexChar(c: char) {
    '0' <= c <= '9' || 'a' <= c <= 'f'
  }

  predicate HexChar(c: char) {
    LowerHexChar(c) || 'A' <= c <= 'F'
  }

  function HexValue(c: char): (n: int)
    requires HexChar(c)
    ensures 0 <= n < 16
    ensures LowerHexChar(c) ==> HexDigit(n) == c
  {
    if '0' <= c <= '9' then c as int - '0' as int
    else if 'a' <= c <= 'f' then c as int - 'a' as int + 10
    else c as int - 'A' as int + 10
  }

  predicate LowerHex(s: string) {
    forall i :: 0 <= i < |s| ==> LowerHexChar(s[i])
  }

  predicate Zeros(s: string) {
    forall i :: 0 <= i < |s| ==> s[i] == '0'
  }

  function Hex(b: seq<Byte>): (s: string)
    ensures |s| == 2 * |b|
  {
    if b == [] then "" else [HexDigit(b[0] / 16), HexDigit(b[0] % 16)] + Hex(b[1..])
  }

  /** decodeHex of the trace package, after its lower-case check. */
  function Unhex(s: string): (b: seq<Byte>)
    requires |s| % 2 == 0 && LowerHex(s)
    ensures |b| == |s| / 2
  {
    if s == "" then [] else [HexValue(s[0]) * 16 + HexValue(s[1])] + Unhex(s[2..])
  }

  const DIGITS := "0123456789abcdef"
  const CAPITALS := "0123456789ABCDEF"

  /** Two digits a byte, the high one first. */
  lemma {:induction false} HexAt(b: seq<Byte>, i: nat)
    requires i < |b|
    ensures Hex(b)[2 * i] == "0123456789abcdef"[b[i] / 16] && Hex(b)[2 * i + 1] == "0123456789abcdef"[b[i] % 16]
  {
    if i > 0 {
      HexAt(b[1..], i - 1);
      assert Hex(b)[2..] == Hex(b[1..]);
    }
  }

  lemma HexDigits(n: nat)
    requires n < 16
    ensures HexDigit(n) == DIGITS[n]
    ensures HexChar(DIGITS[n]) && HexValue(DIGITS[n]) == n
    ensures HexChar(CAPITALS[n]) && HexValue(CAPITALS[n]) == n
  {
  }

  lemma HexCharExactly(c: char)
    ensures HexChar(c) <==> c in "0123456789abcdef" || c in "0123456789ABCDEF"
    ensures LowerHexChar(c) <==> c in "0123456789abcdef"
  {
    if HexChar(c) {
      var n := HexValue(c);
      assert c == "0123456789abcdef"[n] || c == "0123456789ABCDEF"[n];
    }
  }

  lemma {:induction false} HexIsLower(b: seq<Byte>)
    ensures LowerHex(Hex(b))
    ensures Zeros(Hex(b)) <==> !NonZero(b)
  {
    if b != [] {
      HexIsLower(b[1..]);
      var s := Hex(b);
      assert s[2..] == Hex(b[1..]);
      assert forall i :: 2 <= i < |s| ==> s[i] == s[2..][i - 2];
      assert forall i :: 1 <= i < |b| ==> b[i] == b[1..][i - 1];
      if Zeros(s) {
        assert s[0] == '0' && s[1] == '0';
        assert forall i :: 0 <= i < |s[2..]| ==> s[2..][i] == s[i + 2];
        assert b[0] == 0;
      }
      if !NonZero(b) {
        assert b[0] == 0;
        assert forall i :: 0 <= i < |b[1..]| ==> b[1..][i] == b[i + 1];
      }
    }
  }

  lemma {:induction false} UnhexHex(b: seq<Byte>)
    ensures LowerHex(Hex(b)) && Unhex(Hex(b)) == b
  {
    HexIsLower(b);
    if b != [] {
      UnhexHex(b[1..]);
      assert Hex(b)[2..] == Hex(b[1..]);
      assert HexValue(HexDigit(b[0] / 16)) == b[0] / 16;
      assert HexValue(HexDigit(b[0] % 16)) == b[0] % 16;
    }
  }

  lemma {:induction false} HexUnhex(s: string)
    requires |s| % 2 == 0 && LowerHex(s)
    ensures Hex(Unhex(s)) == s
  {
    if s != "" {
      HexUnhex(s[2..]);
      var hi, lo := HexValue(s[0]), HexValue(s[1]);
      assert (hi * 16 + lo) / 16 == hi && (hi * 16 + lo) % 16 == lo;
      assert s == [s[0], s[1]] + s[2..];
      assert Unhex(s)[1..] == Unhex(s[2..]);
    }
  }

  // ---------- the codec ----------

  function SampledByte(sampled: bool): Byte {
    if sampled then 1 else 0
  }

  function Format(sc: SpanContext): string {
    "00-" + Hex(sc.traceID) + "-" + Hex(sc.spanID) + "-" + Hex([SampledByte(sc.IsSampled())])
  }

  /** Bytes that Sscanf skips before a number. A line feed is an error instead,
      and the two-byte spaces leave no room for a digit. */
  predicate Blank(c: char) {
    c as int in {9, 11, 12, 13, 32}
  }

  /** fmt.Sscanf(f, "%02x", &flags) on a two-byte field: leading blanks are
      skipped, digits of either case are read, and reading stops without an
      error at the first byte that is not a digit. */
  function ScanFlags(f: string): Option<Byte>
    requires |f| == 2
  {
    if HexChar(f[0]) then
      if HexChar(f[1]) then Some(HexValue(f[0]) * 16 + HexValue(f[1])) else Some(HexValue(f[0]))
    else if Blank(f[0]) && HexChar(f[1]) then Some(HexValue(f[1]))
    else None
  }

  /** c is a digit of value n, in either case. */
  predicate DigitFor(c: char, n: nat) {
    n < 16 && (c == "0123456789abcdef"[n] || c == "0123456789ABCDEF"[n])
  }

  lemma DigitValue(c: char, n: nat)
    requires DigitFor(c, n)
    ensures HexChar(c) && HexValue(c) == n
  {
    HexDigits(n);
  }

  /** The value read: two digits are one byte; one digit alone, before something else
      or after a blank, is its own value. */
  lemma FlagsRead(f: string, n: nat, m: nat)
    requires |f| == 2 && DigitFor(f[0], n) && DigitFor(f[1], m)
    ensures ScanFlags(f) == Some(16 * n + m)
  {
    DigitValue(f[0], n);
    DigitValue(f[1], m);
  }

  lemma FirstDigitRead(f: string, n: nat)
    requires |f| == 2 && DigitFor(f[0], n) && f[1] !in "0123456789abcdefABCDEF"
    ensures ScanFlags(f) == Some(n)
  {
    DigitValue(f[0], n);
    NotHex(f[1]);
  }

  lemma DigitAfterBlankRead(f: string, m: nat)
    requires |f| == 2 && f[0] in "\t\U{B}\U{C}\r " && DigitFor(f[1], m)
    ensures ScanFlags(f) == Some(m)
  {
    BlankExactly(f[0]);
    DigitValue(f[1], m);
  }

  /** All else is an error. */
  lemma FlagsRefused(f: string)
    requires |f| == 2 && f[0] !in "0123456789abcdefABCDEF"
    requires f[0] !in "\t\U{B}\U{C}\r " || f[1] !in "0123456789abcdefABCDEF"
    ensures ScanFlags(f) == None
  {
    NotHex(f[0]);
    NotHex(f[1]);
    BlankExactly(f[0]);
  }

  lemma NotHex(c: char)
    ensures HexChar(c) <==> c in "0123456789abcdefABCDEF"
  {
    HexCharExactly(c);
    assert "0123456789abcdefABCDEF"[16..] == "ABCDEF" && "0123456789abcdefABCDEF"[..16] == "0123456789abcdef";
    assert "0123456789ABCDEF"[10..] == "ABCDEF" && "0123456789ABCDEF"[..10] == "0123456789";
    if HexChar(c) {
      var n := HexValue(c);
      assert c == "0123456789abcdefABCDEF"[n] || (n >= 10 && c == "0123456789abcdefABCDEF"[n + 6]);
    }
  }

  lemma BlankExactly(c: char)
    ensures Blank(c) <==> c in "\t\U{B}\U{C}\r "
  {
    if Blank(c) {
      assert c in ['\t', '\U{B}', '\U{C}', '\r', ' '];
    }
  }

  /** TraceIDFromHex and SpanIDFromHex together with the IsValid test. */
  function ParseID(hex: string): Option<seq<Byte>>
    requires |hex| % 2 == 0
  {
    if LowerHex(hex) && NonZero(Unhex(hex)) then Some(Unhex(hex)) else None
  }

  function Parse(v: string): Option<SpanContext> {
    var parts := Split(v, '-');
    if |parts| != 4 then None
    else if parts[0] != "00" then None
    else if |parts[1]| != 32 || |parts[2]| != 16 || |parts[3]| != 2 then None
    else
      match (ParseID(parts[1]), ParseID(parts[2]), ScanFlags(parts[3]))
      case (Some(t), Some(s), Some(f)) => Some(SpanContext(t, s, f, true))
      case _ => None
  }

  // ---------- Parse after Format ----------

  lemma JoinFour(a: string, b: string, c: string, d: string)
    ensures Join([a, b, c, d], '-') == a + "-" + b + "-" + c + "-" + d
  {
    assert [a, b, c, d][1..] == [b, c, d];
    assert [b, c, d][1..] == [c, d];
    assert [c, d][1..] == [d];
    assert Join([c, d], '-') == c + "-" + d;
    assert Join([b, c, d], '-') == b + "-" + Join([c, d], '-');
  }

  lemma FormatSplits(sc: SpanContext)
    ensures Split(Format(sc), '-')
         == ["00", Hex(sc.traceID), Hex(sc.spanID), Hex([SampledByte(sc.IsSampled())])]
  {
    var f: seq<Byte> := [SampledByte(sc.IsSampled())];
    HexIsLower(sc.traceID);
    HexIsLower(sc.spanID);
    HexIsLower(f);
    var pieces := ["00", Hex(sc.traceID), Hex(sc.spanID), Hex(f)];
    JoinFour(pieces[0], pieces[1], pieces[2], pieces[3]);
    assert Format(sc) == Join(pieces, '-');
    SplitJoin(pieces, '-');
  }

  /** Round trip: exactly the contexts with two non-zero ids come back, with the
      same ids, only the sampled bit of the flags, and marked remote. */
  lemma ParseFormat(sc: SpanContext)
    ensures Parse(Format(sc))
         == if sc.IsValid()
            then Some(SpanContext(sc.traceID, sc.spanID, sc.flags % 2, true))
            else None
  {
    FormatSplits(sc);
    UnhexHex(sc.traceID);
    UnhexHex(sc.spanID);
  }

  // ---------- Format after Parse, and what is accepted ----------

  /** Fields of a 55-byte value by position. */
  predicate Shaped(v: string) {
    && |v| == 55 && v[..3] == "00-" && v[35] == '-' && v[52] == '-'
    && LowerHex(v[3..35]) && LowerHex(v[36..52])
    && !Zeros(v[3..35]) && !Zeros(v[36..52])
  }

  /** The flags fields the scan lets through once the value has four fields. */
  predicate LenientFlags(f: string) {
    |f| == 2 && ((HexChar(f[0]) && f[1] != '-') || (Blank(f[0]) && HexChar(f[1])))
  }

  lemma ParsedShape(v: string)
    requires Parse(v).Some?
    ensures Shaped(v) && LenientFlags(v[53..])
    ensures Hex(Parse(v).value.traceID) == v[3..35]
    ensures Hex(Parse(v).value.spanID) == v[36..52]
    ensures ScanFlags(v[53..]) == Some(Parse(v).value.flags)
  {
    var p := Split(v, '-');
    JoinSplit(v, '-');
    SplitPieces(v, '-');
    assert p == [p[0], p[1], p[2], p[3]];
    JoinFour(p[0], p[1], p[2], p[3]);
    assert v == p[0] + "-" + p[1] + "-" + p[2] + "-" + p[3];
    assert v[3..35] == p[1] && v[36..52] == p[2] && v[53..] == p[3];
    HexUnhex(p[1]);
    HexUnhex(p[2]);
    HexIsLower(Unhex(p[1]));
    HexIsLower(Unhex(p[2]));
    assert p[3][1] != '-';
  }

  lemma ShapedParses(v: string)
    requires Shaped(v) && LenientFlags(v[53..])
    ensures Parse(v).Some?
  {
    var pieces := ["00", v[3..35], v[36..52], v[53..]];
    JoinFour(pieces[0], pieces[1], pieces[2], pieces[3]);
    assert v == v[..3] + v[3..35] + [v[35]] + v[36..52] + [v[52]] + v[53..];
    assert v == Join(pieces, '-');
    SplitJoin(pieces, '-');
    HexUnhex(v[3..35]);
    HexUnhex(v[36..52]);
    HexIsLower(Unhex(v[3..35]));
    HexIsLower(Unhex(v[36..52]));
  }

  /** Acceptance, exactly. */
  lemma Accepted(v: string)
    ensures Parse(v).Some? <==> Shaped(v) && LenientFlags(v[53..])
  {
    if Parse(v).Some? {
      ParsedShape(v);
    }
    if Shaped(v) && LenientFlags(v[53..]) {
      ShapedParses(v);
    }
  }

  /** Version 00 of the traceparent field, section 3.2.2 of W3C Trace Context
      Level 1: the flags are two lower-case digits as well. */
  predicate W3CTraceparent(v: string) {
    Shaped(v) && LowerHex(v[53..])
  }

  /** The comment above the parser promises rejection of "anything that isn't
      exactly that format". Every well-formed value is accepted; the values
      accepted against the promise are exactly those whose flags field is lenient
      but not lower-case hex. */
  lemma AcceptedVersusStandard(v: string)
    ensures W3CTraceparent(v) ==> Parse(v).Some?
    ensures Parse(v).Some? && !W3CTraceparent(v)
       <==> Shaped(v) && LenientFlags(v[53..]) && !LowerHex(v[53..])
  {
    Accepted(v);
    if W3CTraceparent(v) {
      assert LowerHexChar(v[53..][0]) && LowerHexChar(v[53..][1]);
    }
  }

  /** Such values exist: with any valid ids, the flags field "1z" is let through. */
  lemma MalformedFlagsAccepted(sc: SpanContext)
    requires sc.IsValid()
    ensures var v := "00-" + Hex(sc.traceID) + "-" + Hex(sc.spanID) + "-1z";
            Parse(v).Some? && !W3CTraceparent(v)
  {
    var v := "00-" + Hex(sc.traceID) + "-" + Hex(sc.spanID) + "-1z";
    assert v[..3] == "00-" && v[3..35] == Hex(sc.traceID) && v[36..52] == Hex(sc.spanID);
    assert v[53..] == "1z" && v[53..][1] == 'z';
    HexIsLower(sc.traceID);
    HexIsLower(sc.spanID);
    ShapedParses(v);
  }

  /** Reformatting a parsed value keeps everything but the flags, which become
      00 or 01; and reformatting a second time changes nothing. */
  lemma FormatParse(v: string)
    requires Parse(v).Some?
    ensures |v| == 55 && Format(Parse(v).value) == v[..53] + (if Parse(v).value.IsSampled() then "01" else "00")
    ensures Parse(Format(Parse(v).value)).Some?
    ensures Format(Parse(Format(Parse(v).value)).value) == Format(Parse(v).value)
  {
    hide Parse, LenientFlags, ScanFlags, LowerHex, Zeros;
    ParsedShape(v);
    var sc := Parse(v).value;
    assert v[..53] == v[..3] + v[3..35] + [v[35]] + v[36..52] + [v[52]];
    assert Hex([SampledByte(true)]) == "01" && Hex([SampledByte(false)]) == "00";
    ParseFormat(sc);
    HexIsLower(sc.traceID);
    HexIsLower(sc.spanID);
  }
}
