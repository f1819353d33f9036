/** The pure helpers and value classes of
    src/io/openems/edge/socketcan/driver/CanSocket.java: hex formatting of
    byte arrays and identifiers, in-place byte reversal, `bitExtract`, the
    `CanId` getters, `equals` and `hashCode`, the `CanFilter` tests, the
    filter string `setFilters` builds, and the length check of the
    constructor native code calls to make a `CanFrame`.

    A Java `int` is held as its 32-bit pattern (`bv32`) and a Java `byte`
    as its unsigned pattern (`Byte`), so `b & 0xFF` is the pattern itself. */
module CanSocketJava {
  import opened CanBytes
  import opened CanIdBits

  // ---------------------------------------------------------------------
  // Hex digits

  /** `hexArray`. */
  const HexArray: string := "0123456789ABCDEF"

  /** An uppercase hex digit, as `hexArray` and `%X` produce them. */
  predicate IsHexDigit(c: char)
  {
    '0' <= c <= '9' || 'A' <= c <= 'F'
  }

  /** The value of an uppercase hex digit. */
  function HexValue(c: char): (v: nat)
    requires IsHexDigit(c)
    ensures v < 16
  {
    if c <= '9' then c as int - '0' as int else c as int - 'A' as int + 10
  }

  /** `hexArray[v]`: the digit for a nibble, the inverse of `HexValue`. */
  function HexDigit(v: nat): (c: char)
    requires v < 16
    ensures IsHexDigit(c) && HexValue(c) == v
  {
    HexArray[v]
  }

  // ---------------------------------------------------------------------
  // bytesToHex

  /** `s` spells `bytes` in hex: two digits per byte, high nibble first. */
  predicate SpellsHex(s: string, bytes: seq<Byte>)
  {
    |s| == 2 * |bytes| &&
    forall j :: 0 <= j < |bytes| ==> s[2 * j] == HexDigit(bytes[j] / 16) && s[2 * j + 1] == HexDigit(bytes[j] % 16)
  }

  /** Reads an even-length string of uppercase hex digits back into bytes,
      two digits per byte. */
  function HexToBytes(s: string): (r: seq<Byte>)
    requires |s| % 2 == 0 && forall i :: 0 <= i < |s| ==> IsHexDigit(s[i])
    ensures |r| == |s| / 2
  {
    seq(|s| / 2, j requires 0 <= j < |s| / 2 => HexValue(s[2 * j]) * 16 + HexValue(s[2 * j + 1]))
  }

  /** A hex spelling of some bytes consists of hex digits only, and reading
      it back gives those bytes. */
  lemma HexRoundTrip(s: string, bytes: seq<Byte>)
    requires SpellsHex(s, bytes)
    ensures forall i :: 0 <= i < |s| ==> IsHexDigit(s[i])
    ensures HexToBytes(s) == bytes
  {
    forall i | 0 <= i < |s|
      ensures IsHexDigit(s[i])
    {
      var k := i / 2;
      if i == 2 * k {
        assert s[i] == HexDigit(bytes[k] / 16);
      } else {
        assert s[i] == HexDigit(bytes[k] % 16);
      }
    }
    forall j | 0 <= j < |bytes|
      ensures HexToBytes(s)[j] == bytes[j]
    {
      assert HexValue(s[2 * j]) == bytes[j] / 16 && HexValue(s[2 * j + 1]) == bytes[j] % 16;
    }
  }

  /** `bytesToHex`: each byte becomes two uppercase digits, high nibble
      first, so that reading the digits back gives the bytes. */
  method BytesToHex(bytes: seq<Byte>) returns (s: string)
    ensures SpellsHex(s, bytes)
    ensures forall i :: 0 <= i < |s| ==> IsHexDigit(s[i])
    ensures HexToBytes(s) == bytes
  {
    var hexChars := new char[|bytes| * 2];
    for j := 0 to |bytes|
      invariant forall k :: 0 <= k < j ==> hexChars[2 * k] == HexDigit(bytes[k] / 16) && hexChars[2 * k + 1] == HexDigit(bytes[k] % 16)
    {
      var v := bytes[j];
      hexChars[j * 2] := HexArray[v / 16];
      hexChars[j * 2 + 1] := HexArray[v % 16];
    }
    s := hexChars[..];
    HexRoundTrip(s, bytes);
  }

  // ---------------------------------------------------------------------
  // reverseBytes

  /** `s` back to front. */
  function Reversed(s: seq<Byte>): (r: seq<Byte>)
    ensures |r| == |s|
    ensures forall i :: 0 <= i < |s| ==> r[i] == s[|s| - 1 - i]
  {
    if s == [] then [] else Reversed(s[1..]) + [s[0]]
  }

  /** Reversing twice restores the original. */
  lemma ReversedTwice(s: seq<Byte>)
    ensures Reversed(Reversed(s)) == s
  {
    assert forall i :: 0 <= i < |s| ==> Reversed(Reversed(s))[i] == s[i];
  }

  /** `reverseBytes`: swap from both ends inwards, in place, and hand back
      the same array. */
  method ReverseBytes(inArray: array<Byte>) returns (r: array<Byte>)
    modifies inArray
    ensures r == inArray
    ensures inArray[..] == Reversed(old(inArray[..]))
  {
    var n := inArray.Length;
    var left, right := 0, n - 1;
    while left < right
      invariant 0 <= left <= right + 1 <= n && right == n - 1 - left
      invariant forall i :: 0 <= i < left ==> inArray[i] == old(inArray[n - 1 - i])
      invariant forall i :: right < i < n ==> inArray[i] == old(inArray[n - 1 - i])
      invariant forall i :: left <= i <= right ==> inArray[i] == old(inArray[i])
    {
      var temp := inArray[left];
      inArray[left] := inArray[right];
      inArray[right] := temp;
      left, right := left + 1, right - 1;
    }
    forall i | left <= i <= right
      ensures inArray[i] == old(inArray[n - 1 - i])
    {
      assert i == n - 1 - i;
    }
    return inArray;
  }

  // ---------------------------------------------------------------------
  // bitExtract

  /** Java's `x << d` on two ints: only the low five bits of the distance
      count. */
  function Shl(x: bv32, d: bv32): bv32
  {
    x << (d & 31)
  }

  /** Java's `x >> d` on two ints: an arithmetic shift, which copies the
      sign bit into the vacated high bits; only the low five bits of the
      distance count. */
  function Sar(x: bv32, d: bv32): bv32
  {
    if x & 0x8000_0000 == 0 then x >> (d & 31) else !((!x) >> (d & 31))
  }

  /** `bitExtract(number, k, p)`: `k` bits of `number` from bit `p - 1`
      upwards; the result never exceeds the mask `(1 << k) - 1`. */
  function BitExtract(number: bv32, k: bv32, p: bv32): (r: bv32)
    ensures r <= Shl(1, k) - 1
  {
    (Shl(1, k) - 1) & Sar(number, p - 1)
  }

  /** The one use of `bitExtract`, with `k = 29` and `p = 1`, keeps exactly
      the 29 identifier bits, as `_getCANID_EFF` does. */
  lemma BitExtractLow29(number: bv32)
    ensures BitExtract(number, 29, 1) == GetEff(number)
  {
    ShlOne29();
    SarZero(number);
    assert GetEff(number) == number & 0x1FFF_FFFF;
  }

  lemma ShlOne29()
    ensures Shl(1, 29) - 1 == 0x1FFF_FFFF
  {
    assert Shl(1, 29) == 1 << 29;
  }

  /** A shift by nothing leaves the value alone. */
  lemma SarZero(x: bv32)
    ensures Sar(x, 0) == x
  {
    assert 0 & 31 == 0 as bv32;
  }

  // ---------------------------------------------------------------------
  // CanId

  /** Java's signed comparison `x > y` on two ints: flipping the sign bit
      turns the signed order into the unsigned one. */
  predicate SignedGt(x: bv32, y: bv32)
  {
    x ^ 0x8000_0000 > y ^ 0x8000_0000
  }

  /** `CanSocket.CanId`, holding the raw `_canId`. */
  datatype CanId = CanId(raw: bv32)

  /** `getCanId_SFF`: the 11-bit identifier, clamped to 0x7FF. The clamp
      never fires, because the SFF mask already bounds the value. */
  function GetCanIdSff(id: CanId): (r: bv32)
    ensures r <= 0x7FF
    ensures r == GetSff(id.raw)
  {
    var canId := GetSff(id.raw);
    if SignedGt(canId, 2047) then 0x7FF else canId
  }

  /** `getCanId`: the 29-bit identifier, bits 0-28 of the raw int with the
      three flags cleared. */
  function GetCanIdEff(id: CanId): (r: bv32)
    ensures r <= 0x1FFF_FFFF
    ensures r & 0x1FFF_FFFF == id.raw & 0x1FFF_FFFF
  {
    GetEff(id.raw)
  }

  /** What `equals(Object)` can be handed: null, another `CanId`, or an
      object of some other class. */
  datatype JavaObject = Null | AnId(id: CanId) | OtherClass

  /** `CanId.equals`: only a `CanId` with the same raw int is equal. */
  function Equals(self: CanId, obj: JavaObject): (r: bool)
    ensures r <==> obj == AnId(self)
  {
    match obj
    case Null => false
    case OtherClass => false
    case AnId(other) => self.raw == other.raw
  }

  /** `CanId.hashCode`: `31 * 1 + _canId`, wrapping like a Java int. */
  function HashCode(self: CanId): (r: bv32)
    ensures r - 31 == self.raw
  {
    31 + self.raw
  }

  /** Equal identifiers hash alike, and since adding 31 modulo 2^32 is
      one-to-one, equal hashes mean equal identifiers. */
  lemma HashCodeMatchesEquals(a: CanId, b: CanId)
    ensures Equals(a, AnId(b)) <==> HashCode(a) == HashCode(b)
  {
    assert HashCode(a) - 31 == a.raw && HashCode(b) - 31 == b.raw;
  }

  // ---------------------------------------------------------------------
  // Hex formatting of ints: `%X`, `%03X`, `%08X`

  /** `%X` of a non-negative value: the shortest uppercase digits. */
  function HexDigits(v: nat): (s: string)
    ensures 1 <= |s| && forall i :: 0 <= i < |s| ==> IsHexDigit(s[i])
    decreases v
  {
    if v < 16 then [HexDigit(v)] else HexDigits(v / 16) + [HexDigit(v % 16)]
  }

  /** The value of a string of uppercase hex digits, most significant first. */
  function HexStringValue(s: string): nat
    requires forall i :: 0 <= i < |s| ==> IsHexDigit(s[i])
    decreases |s|
  {
    if s == [] then 0 else HexStringValue(s[..|s| - 1]) * 16 + HexValue(s[|s| - 1])
  }

  /** 16 to the power `n`. */
  function Pow16(n: nat): nat
  {
    if n == 0 then 1 else 16 * Pow16(n - 1)
  }

  /** Reading `%X` back gives the value. */
  lemma {:induction false} HexDigitsValue(v: nat)
    ensures HexStringValue(HexDigits(v)) == v
    decreases v
  {
    if v >= 16 {
      HexDigitsValue(v / 16);
      var s := HexDigits(v);
      assert s[..|s| - 1] == HexDigits(v / 16);
    }
  }

  /** `%X` of a value below `16^w` has at most `w` digits. */
  lemma {:induction false} HexDigitsLength(v: nat, w: nat)
    requires 1 <= w && v < Pow16(w)
    ensures |HexDigits(v)| <= w
    decreases w
  {
    if v >= 16 {
      assert w >= 2;
      HexDigitsLength(v / 16, w - 1);
    }
  }

  /** `HexDigitsLength` stated for every width. */
  lemma HexDigitsFit(v: nat, w: nat)
    ensures 1 <= w && v < Pow16(w) ==> |HexDigits(v)| <= w
  {
    if 1 <= w && v < Pow16(w) {
      HexDigitsLength(v, w);
    }
  }

  /** `n` zero digits. */
  function Zeros(n: nat): (s: string)
    ensures |s| == n && forall i :: 0 <= i < n ==> s[i] == '0'
  {
    seq(n, _ => '0')
  }

  /** Leading zeros do not change a hex string's value. */
  lemma {:induction false} LeadingZerosValue(n: nat, s: string)
    requires forall i :: 0 <= i < |s| ==> IsHexDigit(s[i])
    ensures HexStringValue(Zeros(n) + s) == HexStringValue(s)
    decreases |s|
  {
    var z := Zeros(n) + s;
    if s == [] {
      ZerosValue(n);
      assert z == Zeros(n);
    } else {
      assert z[..|z| - 1] == Zeros(n) + s[..|s| - 1];
      LeadingZerosValue(n, s[..|s| - 1]);
    }
  }

  /** A run of zeros is worth 0. */
  lemma {:induction false} ZerosValue(n: nat)
    ensures HexStringValue(Zeros(n)) == 0
  {
    if n > 0 {
      assert Zeros(n)[..n - 1] == Zeros(n - 1);
      ZerosValue(n - 1);
    }
  }

  /** `String.format("%0<w>X", v)`: the digits of `v`, zero-padded on the
      left to `w`. It reads back as `v`, and is exactly `w` digits long when
      `v` fits in `w` digits. */
  function FormatHex(v: nat, w: nat): (s: string)
    ensures forall i :: 0 <= i < |s| ==> IsHexDigit(s[i])
    ensures HexStringValue(s) == v
    ensures 1 <= w && v < Pow16(w) ==> |s| == w
  {
    var d := HexDigits(v);
    HexDigitsValue(v);
    HexDigitsFit(v, w);
    if |d| >= w then d
    else
      LeadingZerosValue(w - |d|, d);
      Zeros(w - |d|) + d
  }

  /** 16^3 and 16^8, the ranges of three and eight hex digits. */
  lemma Pow16ThreeEight()
    ensures Pow16(3) == 0x1000 && Pow16(8) == 0x1_0000_0000
  {
    assert Pow16(2) == 0x100;
    assert Pow16(4) == 0x1_0000;
    assert Pow16(6) == 0x100_0000;
  }

  /** `0x%08X` of a value that fits in 32 bits: "0x" and eight digits
      that read back as the value. */
  function Prefixed8(v: nat): (s: string)
    requires v < 0x1_0000_0000
    ensures |s| == 10 && s[0] == '0' && s[1] == 'x'
    ensures forall i :: 2 <= i < 10 ==> IsHexDigit(s[i])
    ensures ',' !in s && ':' !in s
    ensures HexStringValue(s[2..]) == v
  {
    Pow16ThreeEight();
    var digits := FormatHex(v, 8);
    assert ("0x" + digits)[2..] == digits;
    "0x" + digits
  }

  /** `String.format("0x%08X", x)` of an int: its unsigned pattern, as
      "0x" and eight digits. */
  function Format0x08X(x: bv32): (s: string)
    ensures |s| == 10 && s[0] == '0' && s[1] == 'x'
    ensures forall i :: 2 <= i < 10 ==> IsHexDigit(s[i])
    ensures ',' !in s && ':' !in s
    ensures HexStringValue(s[2..]) == x as nat
  {
    Prefixed8(x as nat)
  }

  /** `getCanId_SFFHex`: `%03X` of the clamped identifier, three digits that
      read back as the 11-bit identifier. */
  function GetCanIdSffHex(id: CanId): (s: string)
    ensures |s| == 3 && forall i :: 0 <= i < 3 ==> IsHexDigit(s[i])
    ensures HexStringValue(s) == GetSff(id.raw) as nat
  {
    Pow16ThreeEight();
    FormatHex(GetCanIdSff(id) as nat, 3)
  }

  /** `getCanId_EFFHex`: `0x%08X` of the 29-bit identifier. */
  function GetCanIdEffHex(id: CanId): (s: string)
    ensures |s| == 10 && s[0] == '0' && s[1] == 'x'
    ensures forall i :: 2 <= i < 10 ==> IsHexDigit(s[i])
    ensures ',' !in s
    ensures HexStringValue(s[2..]) == GetEff(id.raw) as nat
  {
    Format0x08X(GetEff(id.raw))
  }

  // ---------------------------------------------------------------------
  // CanFilter

  /** `CanFilter.EXACT`: every bit but the ERR flag. */
  const Exact: bv32 := 0xDFFF_FFFF
  /** `CanFilter.ALL`: no bit. */
  const All: bv32 := 0

  /** `CanSocket.CanFilter`: an identifier and the mask of bits to compare. */
  datatype CanFilter = CanFilter(id: CanId, mask: bv32)

  /** `new CanFilter(id)`: a filter with the `EXACT` mask. */
  function ExactFilter(id: CanId): (f: CanFilter)
    ensures IsExact(f) && f.id == id
  {
    CanFilter(id, Exact)
  }

  /** `CanFilter.ANY`. */
  const Any := CanFilter(CanId(0), All)
  /** `CanFilter.NONE`. */
  const NoneFilter := CanFilter(CanId(0), Exact)

  /** `matchId`: the filter's 29-bit identifier and `id` are equal under
      the mask. */
  predicate MatchId(f: CanFilter, id: bv32)
    ensures id == GetEff(f.id.raw) ==> MatchId(f, id)
    ensures f.mask == All ==> MatchId(f, id)
  {
    GetEff(f.id.raw) & f.mask == id & f.mask
  }

  /** `isExact`: the mask is `EXACT`, which compares all 29 identifier bits
      and the EFF and RTR flags but not the ERR flag. */
  predicate IsExact(f: CanFilter)
    ensures IsExact(f) ==> f.mask & 0x1FFF_FFFF == 0x1FFF_FFFF
    ensures IsExact(f) ==> IsSetEffSff(f.mask) && IsSetRtr(f.mask) && !IsSetErr(f.mask)
  {
    f.mask == Exact
  }

  /** `isInverted`: bit 29 (`INVERTED_BIT`, the ERR flag) of the filter's
      29-bit identifier is raised, compared as a signed int. The EFF mask
      has already cleared that bit, so no filter is ever inverted. */
  function IsInverted(f: CanFilter): (r: bool)
    ensures !r
  {
    SignedGt(GetEff(f.id.raw) & 0x2000_0000, 0)
  }

  /** A filter matches exactly the identifiers that differ from its own
      nowhere under the mask. */
  lemma MatchIdDifference(f: CanFilter, id: bv32)
    ensures MatchId(f, id) ==> (GetEff(f.id.raw) ^ id) & f.mask == 0
    ensures (GetEff(f.id.raw) ^ id) & f.mask == 0 ==> MatchId(f, id)
  {
    MaskedEqual(GetEff(f.id.raw), id, f.mask);
  }

  /** Two values agree under a mask exactly when their difference misses it. */
  lemma MaskedEqual(a: bv32, b: bv32, m: bv32)
    ensures a & m == b & m <==> (a ^ b) & m == 0
  {
    MaskedEqualDifference(a, b, m);
    DifferenceMaskedEqual(a, b, m);
  }

  lemma MaskedEqualDifference(a: bv32, b: bv32, m: bv32)
    ensures a & m == b & m ==> (a ^ b) & m == 0
  {
  }

  lemma DifferenceMaskedEqual(a: bv32, b: bv32, m: bv32)
    ensures (a ^ b) & m == 0 ==> a & m == b & m
  {
  }

  /** With mask `ALL` a filter matches every identifier; `ANY` is such a filter. */
  lemma MatchAll(f: CanFilter, id: bv32)
    requires f.mask == All
    ensures MatchId(f, id) && MatchId(Any, id)
  {
  }

  /** An exact filter matches `id` exactly when `id` equals the filter's
      29-bit identifier apart from the ERR flag, which the mask ignores. */
  lemma ExactMatch(f: CanFilter, id: bv32)
    requires IsExact(f)
    ensures MatchId(f, id) ==> id & 0xDFFF_FFFF == GetEff(f.id.raw)
    ensures id & 0xDFFF_FFFF == GetEff(f.id.raw) ==> MatchId(f, id)
  {
    ExactMatchOnly(f, id);
    ExactMatchAll(f, id);
  }

  lemma ExactMatchOnly(f: CanFilter, id: bv32)
    requires IsExact(f)
    ensures MatchId(f, id) ==> id & 0xDFFF_FFFF == GetEff(f.id.raw)
  {
    assert f.mask == 0xDFFF_FFFF;
    assert GetEff(f.id.raw) == f.id.raw & 0x1FFF_FFFF;
    EffKeepsExact(f.id.raw);
  }

  lemma ExactMatchAll(f: CanFilter, id: bv32)
    requires IsExact(f)
    ensures id & 0xDFFF_FFFF == GetEff(f.id.raw) ==> MatchId(f, id)
  {
    assert f.mask == 0xDFFF_FFFF;
    assert GetEff(f.id.raw) == f.id.raw & 0x1FFF_FFFF;
    EffKeepsExact(f.id.raw);
  }

  lemma EffKeepsExact(x: bv32)
    ensures (x & 0x1FFF_FFFF) & 0xDFFF_FFFF == x & 0x1FFF_FFFF
  {
  }

  /** `NONE` is an exact filter for identifier 0, so it accepts identifier 0
      and 0x20000000 rather than no identifier at all. */
  lemma NoneFilterAccepts(id: bv32)
    ensures MatchId(NoneFilter, id) ==> id == 0 || id == 0x2000_0000
    ensures id == 0 || id == 0x2000_0000 ==> MatchId(NoneFilter, id)
  {
    ExactMatch(NoneFilter, id);
    assert GetEff(0) == 0;
    OnlyErrFlag(id);
  }

  /** The values with no bit outside the ERR flag are 0 and the flag alone. */
  lemma OnlyErrFlag(id: bv32)
    ensures id & 0xDFFF_FFFF == 0 ==> id == 0 || id == 0x2000_0000
  {
  }

  // ---------------------------------------------------------------------
  // setFilters

  /** `getIdHex`: `0x%08X` of the filter's 29-bit identifier. */
  function GetIdHex(f: CanFilter): (s: string)
    ensures |s| == 10 && s[0] == '0' && s[1] == 'x'
    ensures forall i :: 2 <= i < 10 ==> IsHexDigit(s[i])
    ensures HexStringValue(s[2..]) == GetEff(f.id.raw) as nat
  {
    GetCanIdEffHex(f.id)
  }

  /** `getMaskHex`: `0x%08X` of the mask, a negative int printed as its
      unsigned pattern. */
  function GetMaskHex(f: CanFilter): (s: string)
    ensures |s| == 10 && s[0] == '0' && s[1] == 'x'
    ensures forall i :: 2 <= i < 10 ==> IsHexDigit(s[i])
    ensures HexStringValue(s[2..]) == f.mask as nat
  {
    Format0x08X(f.mask)
  }

  /** One item of the filter string, `getIdHex() + ":" + getMaskHex()`:
      21 characters with the colon in the middle and no comma. */
  function FilterItem(f: CanFilter): (s: string)
    ensures |s| == 21 && s[10] == ':'
    ensures ',' !in s && s[20] != ','
  {
    GetIdHex(f) + ":" + GetMaskHex(f)
  }

  /** The items separated by commas. */
  function Join(items: seq<string>): string
    decreases |items|
  {
    if |items| == 0 then ""
    else if |items| == 1 then items[0]
    else Join(items[..|items| - 1]) + "," + items[|items| - 1]
  }

  /** How many commas `s` holds. */
  function CommaCount(s: string): nat
    decreases |s|
  {
    if s == [] then 0 else CommaCount(s[..|s| - 1]) + (if s[|s| - 1] == ',' then 1 else 0)
  }

  lemma {:induction false} CommaCountAppend(a: string, b: string)
    ensures CommaCount(a + b) == CommaCount(a) + CommaCount(b)
    decreases |b|
  {
    if b == [] {
      assert a + b == a;
    } else {
      assert (a + b)[..|a + b| - 1] == a + b[..|b| - 1];
      CommaCountAppend(a, b[..|b| - 1]);
    }
  }

  lemma {:induction false} NoCommas(s: string)
    requires ',' !in s
    ensures CommaCount(s) == 0
    decreases |s|
  {
    if s != [] {
      NoCommas(s[..|s| - 1]);
    }
  }

  /** Joining `n >= 1` comma-free items puts exactly `n - 1` commas in the
      string, and the last character comes from the last item. */
  lemma {:induction false} JoinCommas(items: seq<string>)
    requires |items| >= 1
    requires forall i :: 0 <= i < |items| ==> ',' !in items[i]
    ensures CommaCount(Join(items)) == |items| - 1
    decreases |items|
  {
    if |items| == 1 {
      NoCommas(items[0]);
    } else {
      var n := |items| - 1;
      JoinCommas(items[..n]);
      NoCommas(items[n]);
      CommaCountAppend(Join(items[..n]) + ",", items[n]);
      CommaCountAppend(Join(items[..n]), ",");
    }
  }

  /** The filter string's items, one per filter. */
  function FilterItems(data: seq<CanFilter>): (items: seq<string>)
    ensures |items| == |data|
    ensures forall i :: 0 <= i < |data| ==> items[i] == FilterItem(data[i])
  {
    seq(|data|, i requires 0 <= i < |data| => FilterItem(data[i]))
  }

  /** The string `setFilters` builds and hands to the native `_setFilters`
      (after a reset with "0x00000000:0x00000000"): the `id:mask` items of
      the filters joined by commas. */
  method SetFiltersString(data: seq<CanFilter>) returns (filterString: string)
    ensures filterString == Join(FilterItems(data))
  {
    ghost var items := FilterItems(data);
    filterString := "";
    var numfilter := 0;
    var filtercounter := |data| - 1;
    for idx := 0 to |data|
      invariant numfilter == idx
      invariant idx == 0 ==> filterString == ""
      invariant 0 < idx < |data| ==> filterString == Join(items[..idx]) + ","
      invariant idx == |data| > 0 ==> filterString == Join(items[..idx])
    {
      var f := data[idx];
      JoinSnoc(items, idx);
      ghost var joined := filterString + items[idx];
      assert joined == Join(items[..idx + 1]) by {
        if idx == 0 {
          assert joined == items[0];
        }
      }
      filterString := filterString + FilterItem(f);
      if numfilter < filtercounter {
        filterString := filterString + ",";
      }
      numfilter := numfilter + 1;
    }
    assert |data| == 0 ==> filterString == Join(items);
    assert |data| > 0 ==> items[..|data|] == items;
  }

  /** The filter string is empty for no filters; for `n` filters it holds
      `n - 1` commas, so one between each pair of items, and none at the end. */
  lemma {:induction false} FilterStringCommas(data: seq<CanFilter>)
    ensures |data| == 0 ==> Join(FilterItems(data)) == ""
    ensures |data| > 0 ==> CommaCount(Join(FilterItems(data))) == |data| - 1
    ensures |data| > 0 ==> |Join(FilterItems(data))| > 0 && Join(FilterItems(data))[|Join(FilterItems(data))| - 1] != ','
  {
    if |data| > 0 {
      var items := FilterItems(data);
      JoinCommas(items);
      JoinEndsWithLast(items);
    }
  }

  /** Joining one more item appends it, after a comma unless it is the first. */
  lemma JoinSnoc(items: seq<string>, i: nat)
    requires i < |items|
    ensures Join(items[..i + 1]) == if i == 0 then items[0] else Join(items[..i]) + "," + items[i]
  {
    assert items[..i + 1][..i] == items[..i];
  }

  /** A join of filter items ends with the last item's final character. */
  lemma JoinEndsWithLast(items: seq<string>)
    requires |items| >= 1 && |items[|items| - 1]| == 21
    ensures |Join(items)| >= 21
    ensures Join(items)[|Join(items)| - 1] == items[|items| - 1][20]
  {
  }

  // ---------------------------------------------------------------------
  // CanFrame

  /** `CanSocket.CanInterface`: an interface index and its name, if known. */
  datatype CanInterface = CanInterface(ifIndex: Int32, ifName: Option<string>)

  /** `CanSocket.CanFrame`. */
  datatype CanFrame = CanFrame(canIf: CanInterface, canId: CanId, data: seq<Byte>)

  /** Why a Java call ended abruptly: an exception with a message (empty
      when none is given), or an `IOException` built from an `errno`. */
  datatype JavaException =
    | IllegalArgumentException(message: string)
    | IOException(message: string)
    | IOExceptionErrno(errno: int)

  /** The private constructor native code calls: more than 8 data bytes
      throw `IllegalArgumentException`; otherwise the frame holds the
      interface index without a name, the raw identifier and the data. */
  function NewCanFrameFromNative(canIf: Int32, canid: bv32, data: seq<Byte>): (r: Result<CanFrame, JavaException>)
    ensures r.Err? <==> |data| > 8
    ensures r.Err? ==> r.error == IllegalArgumentException("")
    ensures r.Ok? ==> r.value.canIf.ifIndex == canIf && r.value.canId.raw == canid && r.value.data == data
  {
    if |data| > 8 then Err(IllegalArgumentException(""))
    else Ok(CanFrame(CanInterface(canIf, None), CanId(canid), data))
  }
}
