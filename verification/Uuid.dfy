// Identifiers: 128-bit numbers, their 16 bytes and their canonical text
// (RFC 9562, section 4), and the order that all three agree on.
module Uuid {
  import opened Wrappers

  type Byte = b: int | 0 <= b < 256
  type Id = n: int | 0 <= n < 0x1_0000_0000_0000_0000_0000_0000_0000_0000

  const SYSTEM_USER_ID: Id := 1

  const SYSTEM_WALLET_ID: Id := 2

  // Sizes in bytes of the groups that a dash follows; the last group is the rest.
  const GROUPS: seq<nat> := [4, 2, 2, 2]

  // ---------- Order ----------

  // Lexicographic order on sequences: how Go compares strings and PostgreSQL compares uuids.
  predicate Less<T(==)>(key: T -> int, a: seq<T>, b: seq<T>)
  {
    if b == [] then false
    else if a == [] then true
    else key(a[0]) < key(b[0]) || (a[0] == b[0] && Less(key, a[1..], b[1..]))
  }

  function CharCode(c: char): int { c as int }

  function ByteCode(b: Byte): int { b }

  predicate TextLess(a: string, b: string) { Less(CharCode, a, b) }

  predicate BytesLess(a: seq<Byte>, b: seq<Byte>) { Less(ByteCode, a, b) }

  // ---------- Encoding ----------

  function HexDigit(d: int): char
    requires 0 <= d < 16
  {
    (if d < 10 then 48 + d else 87 + d) as char
  }

  function Hex(bytes: seq<Byte>): (text: string)
    ensures |text| == 2 * |bytes|
  {
    if bytes == [] then "" else [HexDigit(bytes[0] / 16), HexDigit(bytes[0] % 16)] + Hex(bytes[1..])
  }

  function Dashed(bytes: seq<Byte>, groups: seq<nat>): string
  {
    if groups == [] || groups[0] > |bytes| then Hex(bytes)
    else Hex(bytes[..groups[0]]) + ("-" + Dashed(bytes[groups[0]..], groups[1..]))
  }

  function BigEndian(n: nat, len: nat): (bytes: seq<Byte>)
    ensures |bytes| == len
  {
    if len == 0 then [] else BigEndian(n / 256, len - 1) + [n % 256]
  }

  function Text(id: Id): string { Dashed(BigEndian(id, 16), GROUPS) }

  // ---------- The canonical form ----------

  predicate IsHex(c: char) { '0' <= c <= '9' || 'a' <= c <= 'f' }

  lemma {:induction false} HexIsLower(bytes: seq<Byte>)
    ensures forall i | 0 <= i < |Hex(bytes)| :: IsHex(Hex(bytes)[i])
  {
    if bytes == [] {
    } else {
      HexIsLower(bytes[1..]);
    }
  }

  lemma DashedShape(bytes: seq<Byte>, g: nat, groups: seq<nat>)
    requires g <= |bytes|
    ensures Dashed(bytes, [g] + groups) == Hex(bytes[..g]) + ("-" + Dashed(bytes[g..], groups))
  {
    hide Hex;
    assert ([g] + groups)[1..] == groups;
  }

  lemma LastGroup(bytes: seq<Byte>)
    ensures Dashed(bytes, []) == Hex(bytes)
  {
  }

  lemma TextGroups(id: Id)
    ensures var b := BigEndian(id, 16);
            Text(id) == Hex(b[..4]) + ("-" + (Hex(b[4..6]) + ("-" + (Hex(b[6..8])
                        + ("-" + (Hex(b[8..10]) + ("-" + Hex(b[10..]))))))))
  {
    hide Dashed, Hex, BigEndian;
    var b := BigEndian(id, 16);
    assert GROUPS == [4] + ([2] + ([2] + ([2] + [])));
    DashedShape(b, 4, [2] + ([2] + ([2] + [])));
    DashedShape(b[4..], 2, [2] + ([2] + []));
    assert b[4..][..2] == b[4..6] && b[4..][2..] == b[6..];
    DashedShape(b[6..], 2, [2] + []);
    assert b[6..][..2] == b[6..8] && b[6..][2..] == b[8..];
    DashedShape(b[8..], 2, []);
    assert b[8..][..2] == b[8..10] && b[8..][2..] == b[10..];
    LastGroup(b[10..]);
  }

  // The text of an id: 36 characters, dashes after the first 8, 12, 16 and 20 digits, and lower-case
  // hex digits elsewhere.
  lemma TextShape(id: Id)
    ensures |Text(id)| == 36
    ensures forall i | 0 <= i < 36 ::
              if i == 8 || i == 13 || i == 18 || i == 23 then Text(id)[i] == '-' else IsHex(Text(id)[i])
  {
    hide Text, Hex, BigEndian, IsHex;
    var b := BigEndian(id, 16);
    TextGroups(id);
    HexIsLower(b[..4]);
    HexIsLower(b[4..6]);
    HexIsLower(b[6..8]);
    HexIsLower(b[8..10]);
    HexIsLower(b[10..]);
  }

  lemma {:induction false} SmallBytes(n: Byte, len: nat)
    requires len > 0
    ensures BigEndian(n, len) == seq(len - 1, _ => 0) + [n]
  {
    if len == 1 {
      assert BigEndian(n / 256, 0) == [];
    } else {
      SmallBytes(0, len - 1);
    }
  }

  lemma {:induction false} HexOfZeros(bytes: seq<Byte>)
    requires forall i | 0 <= i < |bytes| :: bytes[i] == 0
    ensures forall i | 0 <= i < |Hex(bytes)| :: Hex(bytes)[i] == '0'
  {
    if bytes == [] {
    } else {
      HexOfZeros(bytes[1..]);
    }
  }

  lemma {:induction false} HexOfLast(bytes: seq<Byte>, n: Byte)
    ensures Hex(bytes + [n]) == Hex(bytes) + [HexDigit(n / 16), HexDigit(n % 16)]
  {
    if bytes == [] {
      assert Hex([]) == "" && [n][1..] == [];
    } else {
      HexOfLast(bytes[1..], n);
      assert (bytes + [n])[1..] == bytes[1..] + [n];
    }
  }

  // The text of a one-digit id: zeros up to its digit.
  lemma SmallId(n: Byte)
    requires n < 10
    ensures |Text(n)| == 36 && Text(n)[35] == HexDigit(n)
    ensures forall i | 0 <= i < 35 ::
              Text(n)[i] == if i == 8 || i == 13 || i == 18 || i == 23 then '-' else '0'
  {
    hide Text, Hex, BigEndian;
    SmallBytes(n, 16);
    TextGroups(n);
    var b := BigEndian(n, 16);
    HexOfZeros(b[..4]);
    HexOfZeros(b[4..6]);
    HexOfZeros(b[6..8]);
    HexOfZeros(b[8..10]);
    HexOfZeros(b[10..15]);
    HexOfLast(b[10..15], n);
    assert b[10..] == b[10..15] + [n];
  }

  // The ids of the system user and its wallet are 1 and 2, whose texts end in that digit.
  lemma SystemIds()
    ensures |Text(SYSTEM_USER_ID)| == 36 && Text(SYSTEM_USER_ID)[35] == '1'
    ensures |Text(SYSTEM_WALLET_ID)| == 36 && Text(SYSTEM_WALLET_ID)[35] == '2'
    ensures forall i | 0 <= i < 35 :: Text(SYSTEM_USER_ID)[i] == Text(SYSTEM_WALLET_ID)[i]
    ensures forall i | 0 <= i < 35 ::
              Text(SYSTEM_WALLET_ID)[i] == if i == 8 || i == 13 || i == 18 || i == 23 then '-' else '0'
  {
    hide Text;
    SmallId(1);
    SmallId(2);
    assert HexDigit(1) == '1' && HexDigit(2) == '2';
  }

  // ---------- Decoding ----------

  function DigitValue(c: char): Option<nat>
  {
    if '0' <= c <= '9' then Some(c as int - 48)
    else if 'a' <= c <= 'f' then Some(c as int - 87)
    else None
  }

  function UnHex(text: string): Option<seq<Byte>>
  {
    if text == "" then Some([])
    else if |text| == 1 then None
    else match (DigitValue(text[0]), DigitValue(text[1]), UnHex(text[2..]))
      case (Some(hi), Some(lo), Some(rest)) => if hi < 16 && lo < 16 then Some([16 * hi + lo] + rest) else None
      case _ => None
  }

  function UnDash(text: string, groups: seq<nat>): Option<seq<Byte>>
  {
    if groups == [] then UnHex(text)
    else
      var g := 2 * groups[0];
      if |text| <= g || text[g] != '-' then None
      else match (UnHex(text[..g]), UnDash(text[g + 1..], groups[1..]))
        case (Some(head), Some(rest)) => Some(head + rest)
        case _ => None
  }

  function Value(bytes: seq<Byte>): nat
  {
    if bytes == [] then 0 else 256 * Value(bytes[..|bytes| - 1]) + bytes[|bytes| - 1]
  }

  // The id that a canonical text names, if it is one.
  function ParseId(text: string): Option<Id>
  {
    match UnDash(text, GROUPS)
    case Some(bytes) =>
      var n := Value(bytes);
      if |bytes| == 16 && n < 0x1_0000_0000_0000_0000_0000_0000_0000_0000 then Some(n) else None
    case None => None
  }

  // ---------- The orders agree ----------

  lemma {:induction false} LessConcat<T>(key: T -> int, p: seq<T>, q: seq<T>, x: seq<T>, y: seq<T>)
    requires |p| == |q|
    ensures Less(key, p + x, q + y) <==> Less(key, p, q) || (p == q && Less(key, x, y))
  {
    if p == [] {
      assert p + x == x && q + y == y;
    } else {
      assert (p + x)[1..] == p[1..] + x && (q + y)[1..] == q[1..] + y;
      LessConcat(key, p[1..], q[1..], x, y);
      assert p == [p[0]] + p[1..] && q == [q[0]] + q[1..];
    }
  }

  lemma SplitEqual<T>(p: seq<T>, q: seq<T>, x: seq<T>, y: seq<T>)
    requires |p| == |q|
    ensures p + x == q + y <==> p == q && x == y
  {
    if p + x == q + y {
      assert p == (p + x)[..|p|] && q == (q + y)[..|q|];
      assert x == (p + x)[|p|..] && y == (q + y)[|q|..];
    }
  }

  // Comparing two sequences of one length piece by piece.
  lemma LessPieces<T>(key: T -> int, a: seq<T>, b: seq<T>, g: nat)
    requires g <= |a| && |a| == |b|
    ensures Less(key, a, b) <==> Less(key, a[..g], b[..g]) || (a[..g] == b[..g] && Less(key, a[g..], b[g..]))
    ensures a == b <==> a[..g] == b[..g] && a[g..] == b[g..]
  {
    assert a == a[..g] + a[g..] && b == b[..g] + b[g..];
    LessConcat(key, a[..g], b[..g], a[g..], b[g..]);
    SplitEqual(a[..g], b[..g], a[g..], b[g..]);
  }

  lemma DigitKeepsOrder(a: nat, b: nat)
    requires a < 16 && b < 16
    ensures TextLess([HexDigit(a)], [HexDigit(b)]) <==> a < b
    ensures [HexDigit(a)] == [HexDigit(b)] <==> a == b
  {
    assert HexDigit(a) as int == if a < 10 then 48 + a else 87 + a;
    assert HexDigit(b) as int == if b < 10 then 48 + b else 87 + b;
    var x, y := [HexDigit(a)], [HexDigit(b)];
    assert x[0] == HexDigit(a) && y[0] == HexDigit(b);
    assert y[1..] == [] && !Less(CharCode, x[1..], y[1..]);
  }

  lemma HexByteKeepsOrder(a: Byte, b: Byte)
    ensures var p, q := [HexDigit(a / 16), HexDigit(a % 16)], [HexDigit(b / 16), HexDigit(b % 16)];
            (TextLess(p, q) <==> a < b) && (p == q <==> a == b)
  {
    LessConcat(CharCode, [HexDigit(a / 16)], [HexDigit(b / 16)], [HexDigit(a % 16)], [HexDigit(b % 16)]);
    DigitKeepsOrder(a / 16, b / 16);
    DigitKeepsOrder(a % 16, b % 16);
    SplitEqual([HexDigit(a / 16)], [HexDigit(b / 16)], [HexDigit(a % 16)], [HexDigit(b % 16)]);
    assert [HexDigit(a / 16)] + [HexDigit(a % 16)] == [HexDigit(a / 16), HexDigit(a % 16)];
    assert [HexDigit(b / 16)] + [HexDigit(b % 16)] == [HexDigit(b / 16), HexDigit(b % 16)];
  }

  // Lower-case hex keeps the order of byte strings of any one length.
  lemma {:induction false} HexKeepsOrder(a: seq<Byte>, b: seq<Byte>)
    requires |a| == |b|
    ensures TextLess(Hex(a), Hex(b)) <==> BytesLess(a, b)
    ensures Hex(a) == Hex(b) <==> a == b
  {
    if a == [] {
    } else {
      HexKeepsOrder(a[1..], b[1..]);
      HexByteKeepsOrder(a[0], b[0]);
      var p, q := [HexDigit(a[0] / 16), HexDigit(a[0] % 16)], [HexDigit(b[0] / 16), HexDigit(b[0] % 16)];
      LessConcat(CharCode, p, q, Hex(a[1..]), Hex(b[1..]));
      SplitEqual(p, q, Hex(a[1..]), Hex(b[1..]));
      assert a == [a[0]] + a[1..] && b == [b[0]] + b[1..];
    }
  }

  lemma AfterDash(x: string, y: string)
    ensures TextLess("-" + x, "-" + y) <==> TextLess(x, y)
  {
    assert ("-" + x)[1..] == x && ("-" + y)[1..] == y;
  }

  // Dashes at fixed places do not disturb the order either.
  lemma {:induction false} DashedKeepsOrder(a: seq<Byte>, b: seq<Byte>, groups: seq<nat>)
    requires |a| == |b|
    ensures TextLess(Dashed(a, groups), Dashed(b, groups)) <==> BytesLess(a, b)
    ensures Dashed(a, groups) == Dashed(b, groups) <==> a == b
    decreases groups
  {
    if groups == [] || groups[0] > |a| {
      HexKeepsOrder(a, b);
    } else {
      var g := groups[0];
      var p, q := Hex(a[..g]), Hex(b[..g]);
      var x, y := Dashed(a[g..], groups[1..]), Dashed(b[g..], groups[1..]);
      DashedStep(a, b, g, p, q, x, y) by {
        HexKeepsOrder(a[..g], b[..g]);
        DashedKeepsOrder(a[g..], b[g..], groups[1..]);
      }
    }
  }

  lemma DashedStep(a: seq<Byte>, b: seq<Byte>, g: nat, p: string, q: string, x: string, y: string)
    requires g <= |a| && |a| == |b| && |p| == |q|
    requires (TextLess(p, q) <==> BytesLess(a[..g], b[..g])) && (p == q <==> a[..g] == b[..g])
    requires (TextLess(x, y) <==> BytesLess(a[g..], b[g..])) && (x == y <==> a[g..] == b[g..])
    ensures TextLess(p + ("-" + x), q + ("-" + y)) <==> BytesLess(a, b)
    ensures p + ("-" + x) == q + ("-" + y) <==> a == b
  {
    AfterDash(x, y);
    LessConcat(CharCode, p, q, "-" + x, "-" + y);
    SplitEqual(p, q, "-" + x, "-" + y);
    SplitEqual("-", "-", x, y);
    LessPieces(ByteCode, a, b, g);
  }

  function Pow256(len: nat): nat
  {
    if len == 0 then 1 else 256 * Pow256(len - 1)
  }

  lemma Pow256Sixteen()
    ensures Pow256(16) == 0x1_0000_0000_0000_0000_0000_0000_0000_0000
  {
    assert Pow256(4) == 0x1_0000_0000;
    assert Pow256(8) == 0x1_0000_0000_0000_0000;
    assert Pow256(12) == 0x1_0000_0000_0000_0000_0000_0000;
  }

  lemma {:induction false} BigEndianKeepsOrder(n: nat, m: nat, len: nat)
    requires n < Pow256(len) && m < Pow256(len)
    ensures BytesLess(BigEndian(n, len), BigEndian(m, len)) <==> n < m
    ensures BigEndian(n, len) == BigEndian(m, len) <==> n == m
  {
    if len == 0 {
    } else {
      BigEndianKeepsOrder(n / 256, m / 256, len - 1);
      var p, q := BigEndian(n / 256, len - 1), BigEndian(m / 256, len - 1);
      var x: seq<Byte>, y: seq<Byte> := [n % 256], [m % 256];
      LessConcat(ByteCode, p, q, x, y);
      assert x[1..] == [] && y[1..] == [];
      assert (p + x)[..len - 1] == p && (q + y)[..len - 1] == q;
      assert (p + x)[len - 1] == n % 256 && (q + y)[len - 1] == m % 256;
    }
  }

  // The service sorts ids by text before it asks for the rows, and the database locks rows by
  // the bytes of the id: both are the numeric order, so every caller locks in the same order.
  lemma LockOrdersAgree(a: Id, b: Id)
    ensures TextLess(Text(a), Text(b)) <==> BytesLess(BigEndian(a, 16), BigEndian(b, 16))
    ensures TextLess(Text(a), Text(b)) <==> a < b
    ensures Text(a) == Text(b) <==> a == b
  {
    Pow256Sixteen();
    DashedKeepsOrder(BigEndian(a, 16), BigEndian(b, 16), GROUPS);
    BigEndianKeepsOrder(a, b, 16);
  }

  // ---------- Round trip ----------

  lemma {:induction false} UnHexHex(bytes: seq<Byte>)
    ensures UnHex(Hex(bytes)) == Some(bytes)
  {
    if bytes == [] {
    } else {
      UnHexHex(bytes[1..]);
      assert Hex(bytes)[2..] == Hex(bytes[1..]);
      assert bytes == [bytes[0]] + bytes[1..];
    }
  }

  ghost predicate Fits(len: nat, groups: seq<nat>)
    decreases groups
  {
    groups == [] || (groups[0] <= len && Fits(len - groups[0], groups[1..]))
  }

  lemma {:induction false} UnDashDashed(bytes: seq<Byte>, groups: seq<nat>)
    requires Fits(|bytes|, groups)
    ensures UnDash(Dashed(bytes, groups), groups) == Some(bytes)
    decreases groups
  {
    if groups == [] {
      UnHexHex(bytes);
    } else {
      var g := groups[0];
      var rest := Dashed(bytes[g..], groups[1..]);
      var text := Dashed(bytes, groups);
      UnHexHex(bytes[..g]);
      UnDashDashed(bytes[g..], groups[1..]);
      assert text[..2 * g] == Hex(bytes[..g]) && text[2 * g] == '-';
      assert text[2 * g + 1..] == rest;
      assert bytes == bytes[..g] + bytes[g..];
    }
  }

  lemma {:induction false} ValueOfBigEndian(n: nat, len: nat)
    requires n < Pow256(len)
    ensures Value(BigEndian(n, len)) == n
  {
    if len == 0 {
    } else {
      ValueOfBigEndian(n / 256, len - 1);
      assert BigEndian(n, len)[..len - 1] == BigEndian(n / 256, len - 1);
    }
  }

  lemma ParseText(id: Id)
    ensures ParseId(Text(id)) == Some(id)
  {
    Pow256Sixteen();
    ValueOfBigEndian(id, 16);
    assert GROUPS[1..] == [2, 2, 2] && GROUPS[1..][1..] == [2, 2] && GROUPS[1..][1..][1..] == [2];
    assert Fits(16, GROUPS);
    UnDashDashed(BigEndian(id, 16), GROUPS);
  }
}
