/**
 * Base64 with the standard alphabet and `=` padding (section 4 of RFC 4648),
 * as `Buffer.toString('base64')` produces it for the create_file handler
 * (src/index.ts:339). Encoding is done in two layers, as the RFC describes it:
 * octets are split into 6-bit groups (padded with `=` symbols), then each
 * group is looked up in the alphabet. The strict decoder is the encoder's
 * partner: it accepts exactly the encoder's outputs and inverts it.
 */
module Base64 {
  import opened Wrappers
  import opened Bytes

  type Sextet = x: int | 0 <= x < 64

  /** One output position: a 6-bit group or the pad character. */
  datatype Symbol = Digit(v: Sextet) | Pad

  // ---- Layer 1: octets and symbols ----

  // The 6-bit groups of three octets ...
  function Split0(a: byte): Sextet { a / 4 }
  function Split1(a: byte, b: byte): Sextet { (a % 4) * 16 + b / 16 }
  function Split2(b: byte, c: byte): Sextet { (b % 16) * 4 + c / 64 }
  function Split3(c: byte): Sextet { c % 64 }

  // ... and the three octets rebuilt from four 6-bit groups.
  function Join0(i0: Sextet, i1: Sextet): byte { i0 * 4 + i1 / 16 }
  function Join1(i1: Sextet, i2: Sextet): byte { (i1 % 16) * 16 + i2 / 4 }
  function Join2(i2: Sextet, i3: Sextet): byte { (i2 % 4) * 64 + i3 }

  /**
   * Whole groups of three octets become four symbols; a final one or two
   * octets are padded with zero bits and the missing symbols with Pad.
   */
  function Symbols(data: seq<byte>): (xs: seq<Symbol>)
    ensures |xs| == 4 * ((|data| + 2) / 3)
    ensures forall i :: 0 <= i < |xs| && xs[i].Pad? ==> |xs| - 2 <= i
    decreases |data|
  {
    if |data| == 0 then []
    else if |data| == 1 then
      [Digit(Split0(data[0])), Digit(Split1(data[0], 0)), Pad, Pad]
    else if |data| == 2 then
      [Digit(Split0(data[0])), Digit(Split1(data[0], data[1])), Digit(Split2(data[1], 0)), Pad]
    else
      [Digit(Split0(data[0])), Digit(Split1(data[0], data[1])), Digit(Split2(data[1], data[2])), Digit(Split3(data[2]))]
        + Symbols(data[3..])
  }

  /** One group of four symbols; `last` says whether padding may appear in it. Pad bits must be zero. */
  function JoinGroup(q: seq<Symbol>, last: bool): (r: Option<seq<byte>>)
    requires |q| == 4
    ensures r.Some? ==> 1 <= |r.value| <= 3 && (!last ==> |r.value| == 3)
  {
    if q[0].Pad? || q[1].Pad? then None
    else if last && q[2].Pad? && q[3].Pad? then
      if q[1].v % 16 == 0 then Some([Join0(q[0].v, q[1].v)]) else None
    else if q[2].Pad? then None
    else if last && q[3].Pad? then
      if q[2].v % 4 == 0 then Some([Join0(q[0].v, q[1].v), Join1(q[1].v, q[2].v)]) else None
    else if q[3].Pad? then None
    else Some([Join0(q[0].v, q[1].v), Join1(q[1].v, q[2].v), Join2(q[2].v, q[3].v)])
  }

  function Octets(xs: seq<Symbol>): Option<seq<byte>>
    decreases |xs|
  {
    if |xs| == 0 then Some([])
    else if |xs| < 4 then None
    else
      match JoinGroup(xs[..4], |xs| == 4)
      case None => None
      case Some(group) =>
        match Octets(xs[4..])
        case None => None
        case Some(rest) => Some(group + rest)
  }

  /** Splitting three octets into 6-bit groups and joining them again is the identity. */
  lemma SplitJoin(a: byte, b: byte, c: byte)
    ensures Join0(Split0(a), Split1(a, b)) == a
    ensures Join1(Split1(a, b), Split2(b, c)) == b
    ensures Join2(Split2(b, c), Split3(c)) == c
    ensures Split1(a, b) % 16 == b / 16 && Split2(b, c) % 4 == c / 64
  {
    var i1, i2 := Split1(a, b), Split2(b, c);
    assert i1 / 16 == a % 4 && i1 % 16 == b / 16;
    assert i2 / 4 == b % 16 && i2 % 4 == c / 64;
  }

  /** Joining 6-bit groups into octets and splitting them again is the identity. */
  lemma JoinSplit(i0: Sextet, i1: Sextet, i2: Sextet, i3: Sextet)
    ensures Split0(Join0(i0, i1)) == i0
    ensures Split1(Join0(i0, i1), Join1(i1, i2)) == i1
    ensures Split2(Join1(i1, i2), Join2(i2, i3)) == i2
    ensures Split3(Join2(i2, i3)) == i3
  {
    var a, b, c := Join0(i0, i1), Join1(i1, i2), Join2(i2, i3);
    assert a / 4 == i0 && a % 4 == i1 / 16;
    assert b / 16 == i1 % 16 && b % 16 == i2 / 4;
    assert c / 64 == i2 % 4 && c % 64 == i3;
    assert i1 == (i1 / 16) * 16 + i1 % 16;
    assert i2 == (i2 / 4) * 4 + i2 % 4;
  }

  lemma OctetsLast(xs: seq<Symbol>)
    requires |xs| == 4
    ensures Octets(xs) == JoinGroup(xs, true)
  {
    assert xs[..4] == xs;
    var g := JoinGroup(xs, true);
    if g.Some? {
      assert Octets(xs[4..]) == Some([]);
      assert g.value + [] == g.value;
    }
  }

  // The final group of one or two octets, and a whole group, join back.

  lemma JoinOne(a: byte)
    ensures JoinGroup(Symbols([a]), true) == Some([a])
  {
    assert Join0(Split0(a), Split1(a, 0)) == a && Split1(a, 0) % 16 == 0;
  }

  lemma JoinTwo(a: byte, b: byte)
    ensures JoinGroup(Symbols([a, b]), true) == Some([a, b])
  {
    SplitJoin(a, b, 0);
  }

  lemma JoinThree(a: byte, b: byte, c: byte, last: bool)
    ensures JoinGroup(Symbols([a, b, c]), last) == Some([a, b, c])
  {
    SplitJoin(a, b, c);
    assert [a, b, c][3..] == [];
  }

  lemma {:induction false} OctetsSymbols(data: seq<byte>)
    ensures Octets(Symbols(data)) == Some(data)
  {
    var xs := Symbols(data);
    if |data| == 1 {
      assert data == [data[0]];
      JoinOne(data[0]);
      OctetsLast(xs);
    } else if |data| == 2 {
      assert data == [data[0], data[1]];
      JoinTwo(data[0], data[1]);
      OctetsLast(xs);
    } else if |data| >= 3 {
      var head := data[..3];
      assert head == [data[0], data[1], data[2]];
      var rest := Symbols(data[3..]);
      assert Symbols(head) == Symbols(head)[..4];
      assert xs[..4] == Symbols(head);
      assert xs[4..] == rest;
      JoinThree(data[0], data[1], data[2], |xs| == 4);
      OctetsSymbols(data[3..]);
      assert head + data[3..] == data;
    }
  }

  // A group that joins is the split of what it joins to.

  lemma SplitOne(i0: Sextet, i1: Sextet)
    requires i1 % 16 == 0
    ensures Symbols([Join0(i0, i1)]) == [Digit(i0), Digit(i1), Pad, Pad]
  {
    JoinSplit(i0, i1, 0, 0);
  }

  lemma SplitTwo(i0: Sextet, i1: Sextet, i2: Sextet)
    requires i2 % 4 == 0
    ensures Symbols([Join0(i0, i1), Join1(i1, i2)]) == [Digit(i0), Digit(i1), Digit(i2), Pad]
  {
    JoinSplit(i0, i1, i2, 0);
  }

  lemma SplitThree(i0: Sextet, i1: Sextet, i2: Sextet, i3: Sextet)
    ensures Symbols([Join0(i0, i1), Join1(i1, i2), Join2(i2, i3)]) == [Digit(i0), Digit(i1), Digit(i2), Digit(i3)]
  {
    JoinSplit(i0, i1, i2, i3);
    var d := [Join0(i0, i1), Join1(i1, i2), Join2(i2, i3)];
    assert d[3..] == [];
  }

  lemma JoinGroupSplits(q: seq<Symbol>, last: bool)
    requires |q| == 4 && JoinGroup(q, last).Some?
    ensures Symbols(JoinGroup(q, last).value) == q
  {
    if last && q[2].Pad? && q[3].Pad? {
      SplitOne(q[0].v, q[1].v);
    } else if last && q[3].Pad? {
      SplitTwo(q[0].v, q[1].v, q[2].v);
    } else {
      SplitThree(q[0].v, q[1].v, q[2].v, q[3].v);
    }
  }

  lemma {:induction false} SymbolsOctets(xs: seq<Symbol>)
    ensures Octets(xs).Some? ==> Symbols(Octets(xs).value) == xs
  {
    if |xs| >= 4 && Octets(xs).Some? {
      var q := xs[..4];
      var g := JoinGroup(q, |xs| == 4).value;
      var rest := Octets(xs[4..]).value;
      assert Octets(xs).value == g + rest;
      JoinGroupSplits(q, |xs| == 4);
      SymbolsOctets(xs[4..]);
      if |g| == 3 {
        var d := g + rest;
        assert d[..3] == g && d[3..] == rest;
        assert [d[0], d[1], d[2]] == g;
        assert Symbols(d) == Symbols(g) + Symbols(rest);
        assert q + xs[4..] == xs;
      } else {
        assert |xs| == 4 && xs[4..] == [] && rest == [];
        assert g + rest == g;
        assert q == xs;
      }
    }
  }

  // ---- Layer 2: symbols and characters ----

  /** Table 1 of RFC 4648: A-Z, a-z, 0-9, '+', '/'. */
  function CharOf(i: Sextet): (c: char)
    ensures c != '='
  {
    if i < 26 then ('A' as int + i) as char
    else if i < 52 then ('a' as int + (i - 26)) as char
    else if i < 62 then ('0' as int + (i - 52)) as char
    else if i == 62 then '+'
    else '/'
  }

  /** The position of `c` in the alphabet, if it is in it. */
  function IndexOf(c: char): (r: Option<Sextet>)
    ensures r.Some? ==> CharOf(r.value) == c
  {
    if 'A' <= c <= 'Z' then Some(c as int - 'A' as int)
    else if 'a' <= c <= 'z' then Some(c as int - 'a' as int + 26)
    else if '0' <= c <= '9' then Some(c as int - '0' as int + 52)
    else if c == '+' then Some(62)
    else if c == '/' then Some(63)
    else None
  }

  function Render(x: Symbol): char
  {
    match x
    case Digit(v) => CharOf(v)
    case Pad => '='
  }

  function Read(c: char): Option<Symbol>
  {
    if c == '=' then Some(Pad)
    else match IndexOf(c)
      case None => None
      case Some(v) => Some(Digit(v))
  }

  lemma ReadRender(x: Symbol)
    ensures Read(Render(x)) == Some(x)
  {
  }

  function RenderAll(xs: seq<Symbol>): (s: string)
    ensures |s| == |xs|
    ensures forall i :: 0 <= i < |xs| ==> s[i] == Render(xs[i])
  {
    if xs == [] then "" else [Render(xs[0])] + RenderAll(xs[1..])
  }

  function ReadAll(s: string): Option<seq<Symbol>>
  {
    if s == [] then Some([])
    else match (Read(s[0]), ReadAll(s[1..]))
      case (Some(x), Some(rest)) => Some([x] + rest)
      case _ => None
  }

  lemma {:induction false} ReadAllRenderAll(xs: seq<Symbol>)
    ensures ReadAll(RenderAll(xs)) == Some(xs)
  {
    if xs != [] {
      var s := RenderAll(xs);
      ReadRender(xs[0]);
      assert s[1..] == RenderAll(xs[1..]);
      ReadAllRenderAll(xs[1..]);
      assert [xs[0]] + xs[1..] == xs;
    }
  }

  lemma {:induction false} RenderAllReadAll(s: string)
    ensures ReadAll(s).Some? ==> RenderAll(ReadAll(s).value) == s
  {
    if s != [] && ReadAll(s).Some? {
      RenderAllReadAll(s[1..]);
      var xs := ReadAll(s).value;
      assert xs[1..] == ReadAll(s[1..]).value;
      assert [s[0]] + s[1..] == s;
    }
  }

  // ---- The codec ----

  function Encode(data: seq<byte>): (s: string)
    ensures |s| == 4 * ((|data| + 2) / 3)
    ensures forall i :: 0 <= i < |s| ==> s[i] == '=' || IndexOf(s[i]).Some?
    ensures forall i :: 0 <= i < |s| && s[i] == '=' ==> |s| - 2 <= i
  {
    RenderAll(Symbols(data))
  }

  function Decode(s: string): Option<seq<byte>>
  {
    match ReadAll(s)
    case None => None
    case Some(xs) => Octets(xs)
  }

  /** Decoding an encoding gives back the octets. */
  lemma DecodeEncode(data: seq<byte>)
    ensures Decode(Encode(data)) == Some(data)
  {
    ReadAllRenderAll(Symbols(data));
    OctetsSymbols(data);
  }

  /** The decoder accepts nothing but encodings: what it returns encodes back to its input. */
  lemma EncodeDecode(s: string)
    ensures Decode(s).Some? ==> Encode(Decode(s).value) == s
  {
    RenderAllReadAll(s);
    if ReadAll(s).Some? {
      SymbolsOctets(ReadAll(s).value);
    }
  }

  /** A string decodes to some octets exactly when it is their encoding. */
  lemma DecodeIff(s: string, data: seq<byte>)
    ensures Decode(s) == Some(data) <==> Encode(data) == s
  {
    DecodeEncode(data);
    EncodeDecode(s);
  }
}
