/** Copyset group ids: a 64-bit number made of two 32-bit ids, and its decimal text, which
    is the key of the copyset metric map. */
module GroupId {
  import opened BitJoin

  /** (logicPoolId << 32) | copysetId */
  function ToGroupNid(logicPoolId: bv32, copysetId: bv32): bv64 {
    ((logicPoolId as bv64) << 32) | (copysetId as bv64)
  }

  function GetPoolID(groupId: bv64): bv32 {
    (groupId >> 32) as bv32
  }

  function GetCopysetID(groupId: bv64): bv32 {
    (groupId & 0xffff_ffff) as bv32
  }

  lemma PackedFieldsComeBack(logicPoolId: bv32, copysetId: bv32)
    ensures GetPoolID(ToGroupNid(logicPoolId, copysetId)) == logicPoolId
    ensures GetCopysetID(ToGroupNid(logicPoolId, copysetId)) == copysetId
  {
  }

  lemma UnpackedFieldsRepack(groupId: bv64)
    ensures ToGroupNid(GetPoolID(groupId), GetCopysetID(groupId)) == groupId
  {
  }

  function Digit(d: nat): char
    requires d < 10
  {
    "0123456789"[d]
  }

  /** std::to_string of an unsigned number. */
  function Decimal(n: nat): string {
    if n < 10 then [Digit(n)] else Decimal(n / 10) + [Digit(n % 10)]
  }

  function DigitValue(c: char): nat {
    if '0' <= c <= '9' then (c as int - '0' as int) else 0
  }

  function Value(s: string): nat {
    if s == [] then 0 else 10 * Value(s[..|s| - 1]) + DigitValue(s[|s| - 1])
  }

  /** Reading the decimal text gives the number back. */
  lemma {:induction false} DecimalReadsBack(n: nat)
    ensures Value(Decimal(n)) == n
  {
    if n >= 10 {
      DecimalReadsBack(n / 10);
      var s := Decimal(n);
      assert s[..|s| - 1] == Decimal(n / 10);
    } else {
      assert Value([Digit(n)]) == 10 * Value([]) + DigitValue(Digit(n));
    }
  }

  /** The text consists of digits, and starts with zero only if it is the text of zero. */
  lemma {:induction false} DecimalIsPlain(n: nat)
    ensures Decimal(n) != [] && forall c | c in Decimal(n) :: '0' <= c <= '9'
    ensures Decimal(n)[0] == '0' <==> n == 0
  {
    if n >= 10 {
      DecimalIsPlain(n / 10);
      assert Decimal(n)[0] == Decimal(n / 10)[0];
    }
  }

  /** The pool id is the upper half of the number, the copyset id the lower half. */
  lemma PackedValue(logicPoolId: bv32, copysetId: bv32)
    ensures ToGroupNid(logicPoolId, copysetId) as nat == logicPoolId as nat * 0x1_0000_0000 + copysetId as nat
  {
    hide Joined32, Num;
    JoinedHalves(logicPoolId, copysetId);
    Value32(logicPoolId as bv64, copysetId as bv64);
    SameValue(logicPoolId);
    SameValue(copysetId);
    NumOf(ToGroupNid(logicPoolId, copysetId));
  }

  lemma JoinedHalves(logicPoolId: bv32, copysetId: bv32)
    ensures ToGroupNid(logicPoolId, copysetId) == Joined32(logicPoolId as bv64, copysetId as bv64)
    ensures logicPoolId as bv64 < 0x1_0000_0000 && copysetId as bv64 <= 0xffff_ffff
  {
  }

  lemma SameValue(n: bv32)
    ensures Num(n as bv64) == n as nat
  {
  }

  lemma NumOf(n: bv64)
    ensures Num(n) == n as nat
  {
  }

  function ToGroupId(logicPoolId: bv32, copysetId: bv32): string {
    Decimal(ToGroupNid(logicPoolId, copysetId) as nat)
  }

  /** The group id of a copyset reads as pool id times two to the 32 plus copyset id, without leading zeros. */
  lemma GroupIdReads(logicPoolId: bv32, copysetId: bv32)
    ensures Value(ToGroupId(logicPoolId, copysetId)) == logicPoolId as nat * 0x1_0000_0000 + copysetId as nat
    ensures |ToGroupId(logicPoolId, copysetId)| > 1 ==> ToGroupId(logicPoolId, copysetId)[0] != '0'
  {
    hide Decimal, Value, ToGroupNid;
    var n := ToGroupNid(logicPoolId, copysetId) as nat;
    PackedValue(logicPoolId, copysetId);
    DecimalReadsBack(n);
    DecimalIsPlain(n);
    if n == 0 {
      ZeroIsOneDigit();
    }
  }

  lemma ZeroIsOneDigit()
    ensures |Decimal(0)| == 1
  {
  }

  lemma NumberComesBack(n: bv64)
    ensures (n as nat) as bv64 == n
  {
  }

  lemma SameNumber(n: bv64, n': bv64)
    requires n as nat == n' as nat
    ensures n == n'
  {
    NumberComesBack(n);
    NumberComesBack(n');
  }

  /** Distinct copysets never share a group id. */
  lemma GroupIdsDiffer(p: bv32, c: bv32, p': bv32, c': bv32)
    ensures ToGroupId(p, c) == ToGroupId(p', c') <==> p == p' && c == c'
  {
    hide Decimal, Value, ToGroupNid, GetPoolID, GetCopysetID;
    if ToGroupId(p, c) == ToGroupId(p', c') {
      var n, n' := ToGroupNid(p, c), ToGroupNid(p', c');
      DecimalReadsBack(n as nat);
      DecimalReadsBack(n' as nat);
      SameNumber(n, n');
      PackedFieldsComeBack(p, c);
      PackedFieldsComeBack(p', c');
    }
  }
}
