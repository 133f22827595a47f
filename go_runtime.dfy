/** The parts of Go's runtime and standard library that the SmartBox back end
    leans on: bytes, byte strings, `strings.HasPrefix`/`TrimPrefix`/`TrimSuffix`,
    `encoding/binary` little-endian integers, `fmt`'s `%d`, and integer
    conversions with their wrap-around. */
module GoRuntime {

  datatype Option<T> = None | Some(value: T)

  /** A Go result with an `error`: `Err` carries the error's message; `Result<()>` is a bare `error`. */
  datatype Result<T> = Ok(value: T) | Err(msg: string)

  /** A Go `byte`. */
  newtype uint8 = x: int | 0 <= x < 256

  type Bytes = seq<uint8>

  /** A Go `uint16` / `uint32` value. */
  type uint16 = x: int | 0 <= x < 0x1_0000
  type uint32 = x: int | 0 <= x < 0x1_0000_0000

  /** A Go `string` is a sequence of bytes: in the model every character stands
      for one byte, and the strings the program handles hold characters 0 to 255. */
  type GoString = string

  predicate IsByteString(s: string) {
    forall i | 0 <= i < |s| :: s[i] as int < 256
  }

  /** Three writes in a row append their concatenation. */
  lemma AppendThree(s: Bytes, x0: Bytes, x1: Bytes, x2: Bytes)
    ensures s + x0 + x1 + x2 == s + (x0 + x1 + x2)
  {
  }

  /** Four writes in a row append their concatenation. */
  lemma AppendFour(s: Bytes, x0: Bytes, x1: Bytes, x2: Bytes, x3: Bytes)
    ensures s + x0 + x1 + x2 + x3 == s + (x0 + x1 + x2 + x3)
  {
  }

  /** Five writes in a row append their concatenation. */
  lemma AppendFive(s: Bytes, x0: Bytes, x1: Bytes, x2: Bytes, x3: Bytes, x4: Bytes)
    ensures s + x0 + x1 + x2 + x3 + x4 == s + (x0 + x1 + x2 + x3 + x4)
  {
  }

  /** Six writes in a row append their concatenation. */
  lemma AppendSix(s: Bytes, x0: Bytes, x1: Bytes, x2: Bytes, x3: Bytes, x4: Bytes, x5: Bytes)
    ensures s + x0 + x1 + x2 + x3 + x4 + x5 == s + (x0 + x1 + x2 + x3 + x4 + x5)
  {
  }

  /** `[]byte(s)`: each character's byte (its code, which is below 256 in a
      byte string; a larger code keeps only its low byte, where Go would
      write its UTF-8 encoding). */
  function ToBytes(s: GoString): (b: Bytes)
    ensures |b| == |s|
  {
    seq(|s|, i requires 0 <= i < |s| => (s[i] as int % 256) as uint8)
  }

  lemma ToBytesAppend(a: GoString, b: GoString)
    ensures ToBytes(a + b) == ToBytes(a) + ToBytes(b)
  {
    var ab := a + b;
    forall i | 0 <= i < |ab| ensures ToBytes(ab)[i] == (ToBytes(a) + ToBytes(b))[i] {
      if i < |a| {
        assert ab[i] == a[i];
      } else {
        assert ab[i] == b[i - |a|];
      }
    }
  }

  lemma ToBytesInjective(a: GoString, b: GoString)
    requires IsByteString(a) && IsByteString(b) && ToBytes(a) == ToBytes(b)
    ensures a == b
  {
    assert |a| == |b|;
    forall i | 0 <= i < |a| ensures a[i] == b[i] {
      assert ToBytes(a)[i] == ToBytes(b)[i];
    }
  }

  /** `n` zero bytes: `make([]byte, n)`. */
  function Zeros(n: nat): (b: Bytes)
    ensures |b| == n && forall i | 0 <= i < n :: b[i] == 0
  {
    seq(n, _ => 0)
  }

  // ---------------------------------------------------------------------------
  // encoding/binary, little endian

  /** `binary.LittleEndian.PutUint16` / `binary.Write(w, binary.LittleEndian, uint16(v))`. */
  function LE16(v: uint16): (b: Bytes)
    ensures |b| == 2
  {
    [(v % 256) as uint8, (v / 256) as uint8]
  }

  /** `binary.LittleEndian.PutUint32` / `binary.Write(w, binary.LittleEndian, uint32(v))`. */
  function LE32(v: uint32): (b: Bytes)
    ensures |b| == 4
  {
    [(v % 256) as uint8, ((v / 256) % 256) as uint8,
     ((v / 0x1_0000) % 256) as uint8, (v / 0x100_0000) as uint8]
  }

  /** `binary.LittleEndian.Uint16`: the reader's side of `LE16`. */
  function DecodeLE16(b: Bytes): (v: uint16)
    requires |b| == 2
  {
    b[0] as int + 256 * b[1] as int
  }

  /** `binary.LittleEndian.Uint32`: the reader's side of `LE32`. */
  function DecodeLE32(b: Bytes): (v: uint32)
    requires |b| == 4
  {
    b[0] as int + 256 * b[1] as int + 0x1_0000 * b[2] as int + 0x100_0000 * b[3] as int
  }

  lemma LE16RoundTrip(v: uint16)
    ensures DecodeLE16(LE16(v)) == v
  {
  }

  lemma LE32RoundTrip(v: uint32)
    ensures DecodeLE32(LE32(v)) == v
  {
    var b := LE32(v);
    assert v == v % 256 + 256 * ((v / 256) % 256) + 0x1_0000 * ((v / 0x1_0000) % 256) + 0x100_0000 * (v / 0x100_0000);
  }

  /** Two values encode alike only if they are equal: the encodings are injective. */
  lemma LE16Injective(v: uint16, w: uint16)
    requires LE16(v) == LE16(w)
    ensures v == w
  {
    LE16RoundTrip(v);
    LE16RoundTrip(w);
  }

  lemma LE32Injective(v: uint32, w: uint32)
    requires LE32(v) == LE32(w)
    ensures v == w
  {
    LE32RoundTrip(v);
    LE32RoundTrip(w);
  }

  /** Go's conversion `uint16(n)` of an `int`: keeps the low 16 bits (two's complement). */
  function ToUint16(n: int): (r: uint16)
    ensures 0 <= n < 0x1_0000 ==> r == n
    ensures (r - n) % 0x1_0000 == 0
  {
    n % 0x1_0000
  }

  /** Go's conversion `uint32(n)` of an `int`: keeps the low 32 bits. */
  function ToUint32(n: int): (r: uint32)
    ensures 0 <= n < 0x1_0000_0000 ==> r == n
    ensures (r - n) % 0x1_0000_0000 == 0
  {
    n % 0x1_0000_0000
  }

  /** Go's `%` on integers truncates toward zero, so the remainder takes the sign of `a`. */
  function GoRem(a: int, b: int): (r: int)
    requires b > 0
    ensures a >= 0 ==> 0 <= r < b && r == a % b
    ensures a < 0 ==> -b < r <= 0
  {
    if a >= 0 then a % b else -((-a) % b)
  }

  // ---------------------------------------------------------------------------
  // strings

  predicate HasPrefix(s: string, prefix: string) {
    |prefix| <= |s| && s[..|prefix|] == prefix
  }

  predicate HasSuffix(s: string, suffix: string) {
    |suffix| <= |s| && s[|s| - |suffix|..] == suffix
  }

  /** `strings.TrimPrefix`. */
  lemma HasPrefixOfAppend(a: string, b: string)
    ensures HasPrefix(a + b, a)
  {
    assert (a + b)[..|a|] == a;
  }

  lemma HasSuffixOfAppend(a: string, b: string)
    ensures HasSuffix(a + b, b)
  {
    assert (a + b)[|a + b| - |b|..] == b;
  }

  function TrimPrefix(s: GoString, prefix: GoString): (r: GoString)
    ensures HasPrefix(s, prefix) ==> prefix + r == s
    ensures !HasPrefix(s, prefix) ==> r == s
  {
    if HasPrefix(s, prefix) then s[|prefix|..] else s
  }

  /** `strings.TrimSuffix`. */
  function TrimSuffix(s: GoString, suffix: GoString): (r: GoString)
    ensures HasSuffix(s, suffix) ==> r + suffix == s
    ensures !HasSuffix(s, suffix) ==> r == s
  {
    if HasSuffix(s, suffix) then s[..|s| - |suffix|] else s
  }

  lemma TrimSuffixOfAppended(s: GoString, suffix: GoString)
    ensures TrimSuffix(s + suffix, suffix) == s
  {
    var t := s + suffix;
    assert t[|t| - |suffix|..] == suffix;
    assert t[..|t| - |suffix|] == s;
  }

  // ---------------------------------------------------------------------------
  // fmt's %d

  function DigitChar(d: int): (c: char)
    requires 0 <= d < 10
    ensures '0' <= c <= '9'
  {
    "0123456789"[d]
  }

  /** The decimal digits of a natural number, without leading zeros. */
  function NatToDecimal(n: nat): (s: GoString)
    ensures |s| >= 1
    ensures forall i | 0 <= i < |s| :: '0' <= s[i] <= '9'
    decreases n
  {
    if n < 10 then [DigitChar(n)] else NatToDecimal(n / 10) + [DigitChar(n % 10)]
  }

  /** `fmt.Sprintf("%d", n)`. */
  function Itoa(n: int): (s: GoString)
    ensures |s| >= 1
  {
    if n < 0 then "-" + NatToDecimal(-n) else NatToDecimal(n)
  }

  function Pow10(k: nat): (p: nat)
    ensures p >= 1
  {
    if k == 0 then 1 else 10 * Pow10(k - 1)
  }

  /** A number below 10^k has at most k digits. */
  lemma {:induction false} NatToDecimalLength(n: nat, k: nat)
    requires 1 <= k && n < Pow10(k)
    ensures |NatToDecimal(n)| <= k
    decreases n
  {
    if n >= 10 {
      assert Pow10(1) == 10;
      assert k >= 2;
      assert n / 10 < Pow10(k - 1);
      NatToDecimalLength(n / 10, k - 1);
    }
  }

  lemma Pow10Values()
    ensures Pow10(4) == 10_000
    ensures Pow10(9) == 1_000_000_000
    ensures Pow10(10) == 10_000_000_000
    ensures Pow10(19) == 10_000_000_000_000_000_000
  {
    assert Pow10(1) == 10;
    assert Pow10(2) == 100;
    assert Pow10(3) == 1000;
    assert Pow10(4) == 10000;
    assert Pow10(5) == 100000;
    assert Pow10(6) == 1000000;
    assert Pow10(7) == 10000000;
    assert Pow10(8) == 100000000;
    assert Pow10(9) == 1000000000;
    assert Pow10(10) == 10000000000;
    assert Pow10(11) == 100000000000;
    assert Pow10(12) == 1000000000000;
    assert Pow10(13) == 10000000000000;
    assert Pow10(14) == 100000000000000;
    assert Pow10(15) == 1000000000000000;
    assert Pow10(16) == 10000000000000000;
    assert Pow10(17) == 100000000000000000;
    assert Pow10(18) == 1000000000000000000;
    assert Pow10(19) == 10000000000000000000;
  }

  /** Every Go `int64` prints in at most 20 characters (19 digits and a sign). */
  lemma ItoaInt64Length(n: int)
    requires -0x8000_0000_0000_0000 <= n < 0x8000_0000_0000_0000
    ensures |Itoa(n)| <= 20
  {
    Pow10Values();
    if n < 0 {
      NatToDecimalLength(-n, 19);
    } else {
      NatToDecimalLength(n, 19);
    }
  }

  /** A number of magnitude below 10^k prints in at most k digits and a sign. */
  lemma ItoaLength(n: int, k: nat)
    requires 1 <= k && -(Pow10(k) as int) < n < Pow10(k)
    ensures |Itoa(n)| <= k + 1
    ensures n >= 0 ==> |Itoa(n)| <= k
  {
    if n < 0 {
      NatToDecimalLength(-n, k);
      assert |Itoa(n)| == 1 + |NatToDecimal(-n)|;
    } else {
      NatToDecimalLength(n, k);
      assert Itoa(n) == NatToDecimal(n);
    }
  }

  /** The value of a string of decimal digits, as `strconv.Atoi` reads it. */
  function DecimalValue(s: GoString): nat
    requires forall i | 0 <= i < |s| :: '0' <= s[i] <= '9'
  {
    if s == [] then 0 else 10 * DecimalValue(s[..|s| - 1]) + (s[|s| - 1] as int - '0' as int)
  }

  /** Reading back the digits `%d` prints gives the number printed. */
  lemma {:induction false} NatToDecimalRoundTrip(n: nat)
    ensures DecimalValue(NatToDecimal(n)) == n
    decreases n
  {
    var s := NatToDecimal(n);
    if n < 10 {
      assert s[..0] == [];
      assert "0123456789"[n] as int - '0' as int == n;
    } else {
      assert s[..|s| - 1] == NatToDecimal(n / 10);
      NatToDecimalRoundTrip(n / 10);
      assert "0123456789"[n % 10] as int - '0' as int == n % 10;
    }
  }

  lemma NatToDecimalInjective(m: nat, n: nat)
    requires NatToDecimal(m) == NatToDecimal(n)
    ensures m == n
  {
    NatToDecimalRoundTrip(m);
    NatToDecimalRoundTrip(n);
  }

  lemma ItoaSign(n: int)
    ensures Itoa(n)[0] == '-' <==> n < 0
  {
    if n >= 0 { assert '0' <= NatToDecimal(n)[0]; }
  }

  /** Distinct numbers print differently. */
  lemma ItoaInjective(a: int, b: int)
    requires Itoa(a) == Itoa(b)
    ensures a == b
  {
    var sa, sb := Itoa(a), Itoa(b);
    ItoaSign(a);
    ItoaSign(b);
    if a < 0 && b < 0 {
      assert sa[1..] == NatToDecimal(-a);
      assert sb[1..] == NatToDecimal(-b);
      NatToDecimalInjective(-a, -b);
    } else if a >= 0 && b >= 0 {
      NatToDecimalInjective(a, b);
    }
  }

  /** `%d` prints digits and at most a leading minus sign: never a dot. */
  lemma ItoaHasNoDot(n: int)
    ensures '.' !in Itoa(n)
  {
    var s := Itoa(n);
    forall i | 0 <= i < |s| ensures s[i] != '.' {
      if n < 0 && i > 0 { assert s[i] == NatToDecimal(-n)[i - 1]; }
    }
  }

  lemma SeparatorPosition(a: GoString, b: GoString, sep: char)
    requires sep !in a
    ensures (a + [sep] + b)[|a|] == sep
    ensures forall i | 0 <= i < |a| :: (a + [sep] + b)[i] != sep
  {
    forall i | 0 <= i < |a| ensures (a + [sep] + b)[i] != sep {
      assert (a + [sep] + b)[i] == a[i];
    }
  }

  /** Two strings joined by a separator neither contains split back apart. */
  lemma SplitAtSeparator(a1: GoString, b1: GoString, a2: GoString, b2: GoString, sep: char)
    requires sep !in a1 && sep !in a2
    requires a1 + [sep] + b1 == a2 + [sep] + b2
    ensures a1 == a2 && b1 == b2
  {
    var s := a1 + [sep] + b1;
    SeparatorPosition(a1, b1, sep);
    SeparatorPosition(a2, b2, sep);
    if |a1| == |a2| {
      assert a1 == s[..|a1|] == a2;
      assert b1 == s[|a1| + 1..] == b2;
    }
  }

  /** `fmt.Sprintf("%02d", n)` for a two-digit field. */
  function Pad2(n: int): (s: GoString)
    requires 0 <= n < 100
    ensures |s| == 2
  {
    [DigitChar(n / 10), DigitChar(n % 10)]
  }

  /** Go's four-digit year field ("2006" in a layout) for years 0 to 9999. */
  function Pad4(n: int): (s: GoString)
    requires 0 <= n < 10000
    ensures |s| == 4
  {
    Pad2(n / 100) + Pad2(n % 100)
  }
}
