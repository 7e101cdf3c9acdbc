/** SplitBrokers (internal/events/producer.go): the broker-list parser shared by
    the producer and the consumer. A string here is a sequence of code points. */
module Brokers {
  import opened Text

  /** unicode.IsSpace. */
  predicate Space(c: char) {
    var n := c as int;
    || 9 <= n <= 13 || n in {0x20, 0x85, 0xA0, 0x1680, 0x2028, 0x2029, 0x202f, 0x205f, 0x3000}
    || 0x2000 <= n <= 0x200a
  }

  /** The white space of Unicode, listed. */
  lemma SpaceExactly(c: char)
    ensures Space(c) <==> (
              || c in "\t\n\U{B}\U{C}\r \U{85}\U{A0}\U{1680}\U{2028}\U{2029}\U{202F}\U{205F}\U{3000}"
              || c in "\U{2000}\U{2001}\U{2002}\U{2003}\U{2004}\U{2005}\U{2006}\U{2007}\U{2008}\U{2009}\U{200A}")
  {
    var a := "\t\n\U{B}\U{C}\r \U{85}\U{A0}\U{1680}\U{2028}\U{2029}\U{202F}\U{205F}\U{3000}";
    var b := "\U{2000}\U{2001}\U{2002}\U{2003}\U{2004}\U{2005}\U{2006}\U{2007}\U{2008}\U{2009}\U{200A}";
    var n := c as int;
    if 9 <= n <= 13 {
      assert c == a[n - 9];
    } else if 0x2000 <= n <= 0x200a {
      assert c == b[n - 0x2000];
    } else if Space(c) {
      assert c in a[5..];
    }
  }

  predicate Trimmed(s: string) {
    s == "" || (!Space(s[0]) && !Space(s[|s| - 1]))
  }

  /** strings.TrimSpace. */
  function TrimSpace(s: string): (t: string)
    ensures Trimmed(t)
    ensures Trimmed(s) ==> t == s
    ensures forall c :: c in t ==> c in s
  {
    if s == "" then ""
    else if Space(s[0]) then TrimSpace(s[1..])
    else if Space(s[|s| - 1]) then TrimSpace(s[..|s| - 1])
    else s
  }

  function Kept(pieces: seq<string>): seq<string> {
    if pieces == [] then []
    else
      var t := TrimSpace(pieces[|pieces| - 1]);
      Kept(pieces[..|pieces| - 1]) + (if t == "" then [] else [t])
  }

  function BrokerList(brokers: string): seq<string> {
    Kept(Split(brokers, ','))
  }

  /** The loop of the source. */
  method SplitBrokers(brokers: string) returns (out: seq<string>)
    ensures out == BrokerList(brokers)
  {
    out := [];
    var pieces := Split(brokers, ',');
    for i := 0 to |pieces|
      invariant out == Kept(pieces[..i])
    {
      var broker := TrimSpace(pieces[i]);
      assert pieces[..i + 1][..i] == pieces[..i];
      if broker != "" {
        out := out + [broker];
      }
    }
    assert pieces[..|pieces|] == pieces;
  }

  // ---------- what the output looks like ----------

  predicate Broker(b: string) {
    b != "" && Trimmed(b) && Free(b, ',')
  }

  lemma {:induction false} KeptAreBrokers(pieces: seq<string>)
    requires forall i :: 0 <= i < |pieces| ==> Free(pieces[i], ',')
    ensures forall i :: 0 <= i < |Kept(pieces)| ==> Broker(Kept(pieces)[i])
  {
    if pieces != [] {
      KeptAreBrokers(pieces[..|pieces| - 1]);
      var p := pieces[|pieces| - 1];
      assert Free(TrimSpace(p), ',') by {
        assert forall c :: c in TrimSpace(p) ==> c in p;
        assert ',' !in p;
        assert ',' !in TrimSpace(p);
      }
    }
  }

  /** Every entry is non-empty, trimmed and comma-free. */
  lemma EntriesAreBrokers(s: string)
    ensures forall i :: 0 <= i < |BrokerList(s)| ==> Broker(BrokerList(s)[i])
  {
    SplitPieces(s, ',');
    KeptAreBrokers(Split(s, ','));
  }

  // ---------- algebra ----------

  lemma {:induction false} KeptConcat(a: seq<string>, b: seq<string>)
    ensures Kept(a + b) == Kept(a) + Kept(b)
  {
    if b == [] {
      assert a + b == a;
    } else {
      KeptConcat(a, b[..|b| - 1]);
      assert (a + b)[..|a + b| - 1] == a + b[..|b| - 1];
    }
  }

  /** Two lists joined by a comma parse to the concatenation of their parses. */
  lemma BrokersConcat(a: string, b: string)
    ensures BrokerList(a + "," + b) == BrokerList(a) + BrokerList(b)
  {
    SplitConcat(a, b, ',');
    KeptConcat(Split(a, ','), Split(b, ','));
  }

  lemma {:induction false} KeptOfBrokers(bs: seq<string>)
    requires forall i :: 0 <= i < |bs| ==> Broker(bs[i])
    ensures Kept(bs) == bs
  {
    if bs != [] {
      KeptOfBrokers(bs[..|bs| - 1]);
    }
  }

  /** Writing a parsed list back with commas and parsing again changes nothing;
      and every list of well-formed entries is the parse of its own text. */
  lemma {:induction false} BrokersRoundTrip(bs: seq<string>)
    requires forall i :: 0 <= i < |bs| ==> Broker(bs[i])
    ensures BrokerList(Join(bs, ',')) == bs
  {
    if bs == [] {
      assert Split("", ',') == [""];
      assert [""][..0] == [];
    } else {
      SplitJoin(bs, ',');
      KeptOfBrokers(bs);
    }
  }

  lemma BrokersNormalised(s: string)
    ensures BrokerList(Join(BrokerList(s), ',')) == BrokerList(s)
  {
    EntriesAreBrokers(s);
    BrokersRoundTrip(BrokerList(s));
  }

  // ---------- nothing is lost ----------

  /** The characters that carry information: everything but spaces and commas. */
  function Ink(s: string): string {
    if s == "" then ""
    else (if Space(s[0]) || s[0] == ',' then "" else [s[0]]) + Ink(s[1..])
  }

  function InkOf(pieces: seq<string>): string {
    if pieces == [] then "" else InkOf(pieces[..|pieces| - 1]) + Ink(pieces[|pieces| - 1])
  }

  lemma {:induction false} InkConcat(a: string, b: string)
    ensures Ink(a + b) == Ink(a) + Ink(b)
  {
    if a == "" {
      assert a + b == b;
    } else {
      hide Space;
      var first := if Space(a[0]) || a[0] == ',' then "" else [a[0]];
      InkConcat(a[1..], b);
      assert (a + b)[1..] == a[1..] + b;
      assert first + (Ink(a[1..]) + Ink(b)) == (first + Ink(a[1..])) + Ink(b);
    }
  }

  lemma {:induction false} InkOfTrim(s: string)
    ensures Ink(TrimSpace(s)) == Ink(s)
    decreases |s|
  {
    if s == "" {
    } else if Space(s[0]) {
      InkOfTrim(s[1..]);
    } else if Space(s[|s| - 1]) {
      InkOfTrim(s[..|s| - 1]);
      InkConcat(s[..|s| - 1], [s[|s| - 1]]);
      assert s == s[..|s| - 1] + [s[|s| - 1]];
    }
  }

  lemma {:induction false} InkOfKept(pieces: seq<string>)
    ensures InkOf(Kept(pieces)) == InkOf(pieces)
  {
    if pieces != [] {
      var p := pieces[|pieces| - 1];
      InkOfKept(pieces[..|pieces| - 1]);
      InkOfTrim(p);
      var k := Kept(pieces[..|pieces| - 1]);
      assert k + [] == k && (k + [TrimSpace(p)])[..|k|] == k;
      assert InkOf(k) + "" == InkOf(k);
    }
  }

  lemma {:induction false} InkOfCons(p: string, pieces: seq<string>)
    ensures InkOf([p] + pieces) == Ink(p) + InkOf(pieces)
  {
    if pieces == [] {
      assert [p] + pieces == [p];
      assert [p][..0] == [];
      assert InkOf([p]) == Ink(p);
    } else {
      hide Ink;
      var front, last := pieces[..|pieces| - 1], pieces[|pieces| - 1];
      InkOfCons(p, front);
      assert ([p] + pieces)[..|pieces|] == [p] + front;
      assert Ink(p) + (InkOf(front) + Ink(last)) == Ink(p) + InkOf(front) + Ink(last);
    }
  }

  lemma {:induction false} InkOfSplit(s: string)
    ensures InkOf(Split(s, ',')) == Ink(s)
  {
    if s == "" {
      assert [""][..0] == [];
    } else {
      InkOfSplit(s[1..]);
      var rest := Split(s[1..], ',');
      assert rest == [rest[0]] + rest[1..];
      InkOfCons(rest[0], rest[1..]);
      if s[0] == ',' {
        InkOfCons("", rest);
      } else {
        InkOfCons([s[0]] + rest[0], rest[1..]);
        InkConcat([s[0]], rest[0]);
      }
    }
  }

  /** Conservation: the entries carry exactly the non-blank, non-comma text of the
      input, in order. In particular the producer is disabled (empty list) exactly
      when the setting holds nothing but blanks and commas. */
  lemma BrokersKeepText(s: string)
    ensures InkOf(BrokerList(s)) == Ink(s)
    ensures BrokerList(s) == [] <==> Ink(s) == ""
  {
    InkOfKept(Split(s, ','));
    InkOfSplit(s);
    var bs := BrokerList(s);
    if bs != [] {
      EntriesAreBrokers(s);
      var b := bs[|bs| - 1];
      assert Broker(b);
      assert b[0] != ',';
      assert Ink(b) != "";
    }
  }
}
