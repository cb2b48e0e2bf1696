/**
 * Byte-level helpers of the binary protocol: the little-endian integer
 * decoder `bigHexToInt` (which works by writing the bytes as hex text,
 * reversing them and parsing the text back as a base-16 integer), and the
 * hex text conversions `bytes.hex` (device ids in decoded responses) and
 * `bytes.fromhex` (the gateway id written into control requests).
 */
module ByteCodec {
  import opened Wrappers

  type byte = b: int | 0 <= b < 256

  /** The elements of `s` in reverse order (`bytearray.reverse`). */
  function Reverse<T>(s: seq<T>): (r: seq<T>)
    ensures |r| == |s|
    ensures forall i :: 0 <= i < |s| ==> r[i] == s[|s| - 1 - i]
  {
    if s == [] then [] else Reverse(s[1..]) + [s[0]]
  }

  function Pow256(n: nat): (r: nat)
    ensures r >= 1
  {
    if n == 0 then 1 else 256 * Pow256(n - 1)
  }

  /** The value of `s` read with the FIRST byte most significant. */
  function BigEndian(s: seq<byte>): nat
  {
    if s == [] then 0 else BigEndian(s[..|s| - 1]) * 256 + s[|s| - 1]
  }

  /** The value of `s` read with the first byte least significant: the sum of s[i] * 256^i. */
  function LittleEndian(s: seq<byte>): nat
  {
    if s == [] then 0 else s[0] + 256 * LittleEndian(s[1..])
  }

  lemma {:induction false} LittleEndianBound(s: seq<byte>)
    ensures LittleEndian(s) < Pow256(|s|)
  {
    if s != [] {
      LittleEndianBound(s[1..]);
    }
  }

  /** The byte order `bigHexToInt` undoes: reading the reversed bytes big-endian is reading the original little-endian. */
  lemma {:induction false} BigEndianOfReverse(s: seq<byte>)
    ensures BigEndian(Reverse(s)) == LittleEndian(s)
  {
    if s != [] {
      var r := Reverse(s[1..]);
      assert Reverse(s) == r + [s[0]];
      assert (r + [s[0]])[..|r|] == r;
      BigEndianOfReverse(s[1..]);
    }
  }

  // ---------------------------------------------------------------- hex text

  function HexDigit(d: int): (c: char)
    requires 0 <= d < 16
    ensures IsHexDigit(c) && DigitValue(c) == d
  {
    "0123456789abcdef"[d]
  }

  predicate IsHexDigit(c: char)
  {
    ('0' <= c <= '9') || ('a' <= c <= 'f') || ('A' <= c <= 'F')
  }

  function DigitValue(c: char): (d: int)
    requires IsHexDigit(c)
    ensures 0 <= d < 16
  {
    if '0' <= c <= '9' then c as int - '0' as int
    else if 'a' <= c <= 'f' then c as int - 'a' as int + 10
    else c as int - 'A' as int + 10
  }

  /** The ASCII white space `bytes.fromhex` skips between byte pairs. */
  predicate IsSpace(c: char)
  {
    c == ' ' || c == '\t' || c == '\n' || c == '\r' || c as int == 11 || c as int == 12
  }

  /** `bytes.hex()`: two lower-case hex digits per byte. */
  function HexString(b: seq<byte>): (s: string)
    ensures |s| == 2 * |b|
    ensures forall i :: 0 <= i < |s| ==> IsHexDigit(s[i])
  {
    if b == [] then [] else [HexDigit(b[0] / 16), HexDigit(b[0] % 16)] + HexString(b[1..])
  }

  lemma {:induction false} HexStringAppend(a: seq<byte>, b: seq<byte>)
    ensures HexString(a + b) == HexString(a) + HexString(b)
  {
    if a != [] {
      assert (a + b)[0] == a[0] && (a + b)[1..] == a[1..] + b;
      HexStringAppend(a[1..], b);
      calc {
        HexString(a + b);
        [HexDigit(a[0] / 16), HexDigit(a[0] % 16)] + HexString(a[1..] + b);
        [HexDigit(a[0] / 16), HexDigit(a[0] % 16)] + (HexString(a[1..]) + HexString(b));
      }
    } else {
      assert a + b == b;
    }
  }

  /**
   * `bytes.fromhex(s)`: white space is skipped before each pair, every
   * other character must start a pair of hex digits (either case);
   * anything else raises ValueError, modelled as None.
   */
  function FromHex(s: string): (r: Option<seq<byte>>)
    decreases |s|
  {
    if s == [] then Some([])
    else if IsSpace(s[0]) then FromHex(s[1..])
    else if |s| >= 2 && IsHexDigit(s[0]) && IsHexDigit(s[1]) then
      match FromHex(s[2..])
      case None => None
      case Some(rest) => Some([DigitValue(s[0]) * 16 + DigitValue(s[1])] + rest)
    else None
  }

  /** `fromhex` inverts `hex`: the gateway id text and the device id bytes convert both ways. */
  lemma {:induction false} FromHexOfHexString(b: seq<byte>)
    ensures FromHex(HexString(b)) == Some(b)
  {
    if b != [] {
      var s := HexString(b);
      assert s[2..] == HexString(b[1..]);
      FromHexOfHexString(b[1..]);
      assert DigitValue(s[0]) * 16 + DigitValue(s[1]) == b[0];
      assert [b[0]] + b[1..] == b;
    }
  }

  /** `int(s, 16)` on a string made only of hex digits. */
  function ParseHex(s: string): nat
    requires forall i :: 0 <= i < |s| ==> IsHexDigit(s[i])
  {
    if s == [] then 0 else ParseHex(s[..|s| - 1]) * 16 + DigitValue(s[|s| - 1])
  }

  lemma {:induction false} ParseHexOfHexString(b: seq<byte>)
    ensures ParseHex(HexString(b)) == BigEndian(b)
    decreases |b|
  {
    if b != [] {
      var init, last := b[..|b| - 1], b[|b| - 1];
      assert b == init + [last];
      HexStringAppend(init, [last]);
      var s := HexString(b);
      var t := HexString(init);
      assert HexString([last]) == [HexDigit(last / 16), HexDigit(last % 16)];
      assert s == t + [HexDigit(last / 16), HexDigit(last % 16)];
      assert s[..|s| - 1] == t + [HexDigit(last / 16)];
      assert s[..|s| - 1][..|t|] == t;
      ParseHexOfHexString(init);
    }
  }

  // ---------------------------------------------------------------- bigHexToInt

  /** The argument kinds `bigHexToInt` distinguishes at run time. */
  datatype HexArgument = HexText(text: string) | HexInt(value: int) | HexBytes(bytes: seq<byte>)

  /**
   * `bigHexToInt`: a str is rejected (`bytearray(str)` without an encoding
   * raises TypeError), an int is returned unchanged, and a byte string is
   * written as hex, parsed back with `fromhex`, reversed, written as hex
   * again and read with `int(…, 16)`, which raises ValueError on the empty
   * string. Errors are None.
   */
  function BigHexToInt(arg: HexArgument): (r: Option<int>)
    ensures arg.HexText? ==> r == None
    ensures arg.HexInt? ==> r == Some(arg.value)
    ensures arg.HexBytes? && arg.bytes == [] ==> r == None
    ensures arg.HexBytes? && arg.bytes != [] ==> r == Some(LittleEndian(arg.bytes))
    ensures arg.HexBytes? && r.Some? ==> 0 <= r.value < Pow256(|arg.bytes|)
  {
    match arg
    case HexText(_) => None
    case HexInt(i) => Some(i)
    case HexBytes(b) =>
      FromHexOfHexString(b);
      match FromHex(HexString(b))
      case None => None
      case Some(littleHex) =>
        var text := HexString(Reverse(littleHex));
        if text == [] then None
        else
          ParseHexOfHexString(Reverse(b));
          BigEndianOfReverse(b);
          LittleEndianBound(b);
          Some(ParseHex(text))
  }
}
