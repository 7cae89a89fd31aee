/** The hex text that the SWIG runtime uses to pass raw bytes through strings. */
module HexPack {
  import opened Basics

  const HEX: string := "0123456789abcdef"

  function HexDigit(d: bv8): char
    requires d < 16
  {
    HEX[d as nat]
  }

  function High(u: bv8): bv8 { (u & 0xf0) >> 4 }
  function Low(u: bv8): bv8 { u & 0xf }

  /** The text of a byte sequence, two characters per byte. */
  function Pack(bytes: seq<bv8>): string {
    if bytes == [] then ""
    else
      var u := bytes[|bytes| - 1];
      Pack(bytes[..|bytes| - 1]) + [HexDigit(High(u)), HexDigit(Low(u))]
  }

  /** The value of a lower-case hex character; nothing else is accepted. */
  function HexValue(d: char): Option<bv8> {
    if '0' <= d <= '9' then Some((d as int - '0' as int) as bv8)
    else if 'a' <= d <= 'f' then Some((d as int - ('a' as int - 10)) as bv8)
    else None
  }

  lemma DigitReadsBack(d: bv8)
    requires d < 16
    ensures HexValue(HexDigit(d)) == Some(d)
  {
    if d == 0 {} else if d == 1 {} else if d == 2 {} else if d == 3 {} else if d == 4 {} else if d == 5 {}
    else if d == 6 {} else if d == 7 {} else if d == 8 {} else if d == 9 {} else if d == 10 {} else if d == 11 {}
    else if d == 12 {} else if d == 13 {} else if d == 14 {} else { assert d == 15; }
  }

  lemma PlaceInTable(c: char) returns (i: nat)
    requires '0' <= c <= '9' || 'a' <= c <= 'f'
    ensures i < 16 && HEX[i] == c
  {
    i := if c <= '9' then c as int - '0' as int else c as int - ('a' as int - 10);
    if i == 0 {} else if i == 1 {} else if i == 2 {} else if i == 3 {} else if i == 4 {} else if i == 5 {}
    else if i == 6 {} else if i == 7 {} else if i == 8 {} else if i == 9 {} else if i == 10 {} else if i == 11 {}
    else if i == 12 {} else if i == 13 {} else if i == 14 {} else { assert i == 15; }
  }

  lemma SmallComesBack(i: nat) returns (d: bv8)
    requires i < 16
    ensures d < 16 && d as nat == i
  {
    d := i as bv8;
  }

  lemma ValuePrintsBack(c: char)
    requires HexValue(c).Some?
    ensures HexValue(c).value < 16 && HexDigit(HexValue(c).value) == c
  {
    var i := PlaceInTable(c);
    var d := SmallComesBack(i);
    DigitReadsBack(d);
  }

  function Join(hi: bv8, lo: bv8): bv8 { (hi << 4) | lo }

  lemma NibblesRejoin(u: bv8)
    ensures High(u) < 16 && Low(u) < 16 && Join(High(u), Low(u)) == u
  {
  }

  lemma NibblesSplit(hi: bv8, lo: bv8)
    requires hi < 16 && lo < 16
    ensures High(Join(hi, lo)) == hi && Low(Join(hi, lo)) == lo
  {
  }

  /** The text starts with two hex characters for each of n bytes. */
  ghost predicate Accepts(text: string, n: nat) {
    2 * n <= |text| && forall i | 0 <= i < 2 * n :: HexValue(text[i]).Some?
  }

  /** The n bytes that the text starts with. */
  ghost function Bytes(text: string, n: nat): seq<bv8>
    requires Accepts(text, n)
    ensures |Bytes(text, n)| == n
  {
    if n == 0 then []
    else Bytes(text, n - 1) + [Join(HexValue(text[2 * n - 2]).value, HexValue(text[2 * n - 1]).value)]
  }

  lemma {:induction false} PackLength(bytes: seq<bv8>)
    ensures |Pack(bytes)| == 2 * |bytes|
  {
    if bytes != [] {
      PackLength(bytes[..|bytes| - 1]);
    }
  }

  /** Packed text is accepted, whatever follows it, and unpacks to the bytes that were packed. */
  lemma {:induction false} PackThenUnpack(bytes: seq<bv8>, rest: string)
    ensures Accepts(Pack(bytes) + rest, |bytes|) && Bytes(Pack(bytes) + rest, |bytes|) == bytes
  {
    hide HexDigit, HexValue, High, Low, Join, Accepts, Bytes, Pack, CharAt;
    if bytes == [] {
      AcceptsNothing(Pack(bytes) + rest);
    } else {
      var n := |bytes| - 1;
      var pre, u := bytes[..n], bytes[n];
      var tail := PackTail(bytes, rest);
      PackThenUnpack(pre, tail + rest);
      AcceptsNext(Pack(bytes) + rest, n);
      NibblesRejoin(u);
    }
  }

  /** The last two characters of a packed text, and where they stand when something follows it. */
  lemma PackTail(bytes: seq<bv8>, rest: string) returns (tail: string)
    requires bytes != []
    ensures Pack(bytes) + rest == Pack(bytes[..|bytes| - 1]) + (tail + rest)
    ensures var u, n := bytes[|bytes| - 1], |bytes| - 1;
            && HexValue(CharAt(Pack(bytes) + rest, 2 * n)) == Some(High(u))
            && HexValue(CharAt(Pack(bytes) + rest, 2 * n + 1)) == Some(Low(u))
  {
    hide HexDigit, HexValue, High, Low, Join;
    var u, n := bytes[|bytes| - 1], |bytes| - 1;
    NibblesRejoin(u);
    tail := [HexDigit(High(u)), HexDigit(Low(u))];
    PackLength(bytes);
    PackLength(bytes[..n]);
    assert Pack(bytes) == Pack(bytes[..n]) + tail;
    DigitReadsBack(High(u));
    DigitReadsBack(Low(u));
  }

  lemma PackOneMore(pre: seq<bv8>, u: bv8)
    requires High(u) < 16 && Low(u) < 16
    ensures Pack(pre + [u]) == Pack(pre) + [HexDigit(High(u)), HexDigit(Low(u))]
  {
    hide HexDigit, High, Low;
    assert (pre + [u])[..|pre|] == pre;
  }

  lemma BytesOneMore(text: string, n: nat)
    requires n > 0 && Accepts(text, n)
    ensures Accepts(text, n - 1) && 2 * n <= |text|
    ensures HexValue(text[2 * n - 2]).Some? && HexValue(text[2 * n - 1]).Some?
    ensures Bytes(text, n) == Bytes(text, n - 1) + [Join(HexValue(text[2 * n - 2]).value, HexValue(text[2 * n - 1]).value)]
  {
    hide HexValue, Join;
  }

  /** Text that is accepted is what packing the result prints. */
  lemma {:induction false} UnpackThenPack(text: string, n: nat)
    requires Accepts(text, n)
    ensures 2 * n <= |text| && Pack(Bytes(text, n)) == text[..2 * n]
  {
    hide HexDigit, HexValue, High, Low, Join, Pack, Bytes, Accepts;
    if n == 0 {
      NothingPacked(text);
    } else {
      BytesOneMore(text, n);
      UnpackThenPack(text, n - 1);
      var hi, lo := HexValue(text[2 * n - 2]).value, HexValue(text[2 * n - 1]).value;
      ValuePrintsBack(text[2 * n - 2]);
      ValuePrintsBack(text[2 * n - 1]);
      NibblesSplit(hi, lo);
      PackOneMore(Bytes(text, n - 1), Join(hi, lo));
      assert text[..2 * n] == text[..2 * (n - 1)] + [text[2 * n - 2], text[2 * n - 1]];
    }
  }

  lemma NothingPacked(text: string)
    requires Accepts(text, 0)
    ensures Pack(Bytes(text, 0)) == text[..0]
  {
  }

  lemma NibblesWeigh(u: bv8)
    ensures High(u) as nat == u as nat / 16 && Low(u) as nat == u as nat % 16
  {
  }

  /** The digits of a byte, the more significant one first. */
  lemma {:induction false} PackedDigits(bytes: seq<bv8>, i: nat)
    requires i < |bytes|
    ensures |Pack(bytes)| == 2 * |bytes|
    ensures var hi, lo := HexValue(Pack(bytes)[2 * i]), HexValue(Pack(bytes)[2 * i + 1]);
            hi.Some? && lo.Some? && 16 * hi.value as nat + lo.value as nat == bytes[i] as nat
  {
    hide HexDigit, HexValue, High, Low;
    PackLength(bytes);
    var n := |bytes| - 1;
    PackLength(bytes[..n]);
    if i < n {
      PackedDigits(bytes[..n], i);
    } else {
      NibblesRejoin(bytes[n]);
      NibblesWeigh(bytes[n]);
      DigitReadsBack(High(bytes[n]));
      DigitReadsBack(Low(bytes[n]));
    }
  }

  /** The bytes of an accepted text, by the values of its digits. */
  lemma UnpackedDigits(text: string, n: nat, i: nat)
    requires Accepts(text, n) && i < n
    ensures Bytes(text, n)[i] as nat == 16 * HexValue(text[2 * i]).value as nat + HexValue(text[2 * i + 1]).value as nat
  {
    hide HexValue, Pack;
    UnpackThenPack(text, n);
    PackedDigits(Bytes(text, n), i);
    assert text[..2 * n][2 * i] == text[2 * i] && text[..2 * n][2 * i + 1] == text[2 * i + 1];
  }

  /** SWIG_PackData: writes the text at position pos of the buffer and returns the position after it. */
  method PackData(c: array<char>, pos: nat, data: seq<bv8>) returns (end: nat)
    requires pos + 2 * |data| <= c.Length
    modifies c
    ensures end == pos + 2 * |data| && c[pos..end] == Pack(data)
    ensures c[..pos] == old(c[..pos]) && c[end..] == old(c[end..])
  {
    hide HexDigit, High, Low, Join;
    end := pos;
    for n := 0 to |data|
      invariant end == pos + 2 * n
      invariant c[pos..end] == Pack(data[..n])
      invariant forall i | 0 <= i < c.Length && !(pos <= i < end) :: c[i] == old(c[i])
    {
      var uu := data[n];
      NibblesRejoin(uu);
      c[end] := HexDigit(High(uu));
      c[end + 1] := HexDigit(Low(uu));
      assert data[..n + 1][..n] == data[..n];
      assert c[pos..end + 2] == c[pos..end] + [c[end], c[end + 1]];
      end := end + 2;
    }
    assert data[..|data|] == data;
  }

  /** The character of a C string at position i; the position after the text holds NUL. */
  function CharAt(text: string, i: nat): char {
    if i < |text| then text[i] else '\0'
  }

  lemma NotAccepted(text: string, n: nat)
    requires HexValue(CharAt(text, 2 * n)).None? || HexValue(CharAt(text, 2 * n + 1)).None?
    ensures forall m: nat | m > n :: !Accepts(text, m)
  {
    hide HexValue;
    forall m: nat | m > n ensures !Accepts(text, m) {
      if 2 * m <= |text| {
        assert CharAt(text, 2 * n) == text[2 * n] && CharAt(text, 2 * n + 1) == text[2 * n + 1];
      }
    }
  }

  lemma AcceptsNothing(text: string)
    ensures Accepts(text, 0) && Bytes(text, 0) == []
  {
  }

  lemma AcceptsNext(text: string, n: nat)
    requires Accepts(text, n)
    requires HexValue(CharAt(text, 2 * n)).Some? && HexValue(CharAt(text, 2 * n + 1)).Some?
    ensures Accepts(text, n + 1)
    ensures Bytes(text, n + 1) ==
            Bytes(text, n) + [Join(HexValue(CharAt(text, 2 * n)).value, HexValue(CharAt(text, 2 * n + 1)).value)]
  {
    hide HexValue, Join;
    assert '\0' == CharAt(text, |text|);
    NulIsNoDigit();
  }

  lemma NulIsNoDigit()
    ensures HexValue('\0').None?
  {
  }

  /** SWIG_UnpackData: fills the buffer and returns the position after the text that it used, or
      nothing. When it gives up at some byte, the bytes before it have been written. */
  method UnpackData(text: string, out: array<bv8>) returns (end: Option<nat>)
    modifies out
    ensures end.Some? <==> Accepts(text, out.Length)
    ensures end.Some? ==> end.value == 2 * out.Length && out[..] == Bytes(text, out.Length)
    ensures end.None? ==>
              exists k | 0 <= k < out.Length ::
                && Accepts(text, k) && !Accepts(text, k + 1)
                && out[..k] == Bytes(text, k) && out[k..] == old(out[k..])
  {
    hide Accepts, Bytes, HexValue, Join, CharAt;
    var c := 0;
    AcceptsNothing(text);
    for n := 0 to out.Length
      invariant c == 2 * n && Accepts(text, n)
      invariant out[..n] == Bytes(text, n)
      invariant out[n..] == old(out[n..])
    {
      var hi := HexValue(CharAt(text, c));
      var lo := if hi.Some? then HexValue(CharAt(text, c + 1)) else None;
      if hi.None? || lo.None? {
        NotAccepted(text, n);
        assert Accepts(text, n) && !Accepts(text, n + 1);
        return None;
      }
      AcceptsNext(text, n);
      out[n] := Join(hi.value, lo.value);
      assert out[..n + 1] == out[..n] + [out[n]];
      assert out[n + 1..] == old(out[n..])[1..];
      c := c + 2;
    }
    assert out[..out.Length] == out[..];
    end := Some(c);
  }
}
