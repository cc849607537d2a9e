/** Hexadecimal text: the digits used by `Guid.ToString()` and by the
    webhook signature check, which prints a MAC with
    `BitConverter.ToString(bytes).Replace("-", "").ToLower()`
    (IyzipayWebhookService.CalculateHMACSHA256). */
module HexEncoding {
  import opened Wrappers
  import opened Text

  type Byte = x: int | 0 <= x < 256
  type Nibble = x: int | 0 <= x < 16

  function UpperHexDigit(n: Nibble): char {
    "0123456789ABCDEF"[n]
  }

  function LowerHexDigit(n: Nibble): char {
    "0123456789abcdef"[n]
  }

  predicate IsLowerHexDigit(c: char) {
    ('0' <= c <= '9') || ('a' <= c <= 'f')
  }

  /** The value of a hexadecimal digit of either case. */
  function HexValue(c: char): (r: Option<Nibble>)
    ensures r.Some? <==> (('0' <= c <= '9') || ('a' <= c <= 'f') || ('A' <= c <= 'F'))
  {
    if '0' <= c <= '9' then Some(c as int - '0' as int)
    else if 'a' <= c <= 'f' then Some(c as int - 'a' as int + 10)
    else if 'A' <= c <= 'F' then Some(c as int - 'A' as int + 10)
    else None
  }

  /** Reading a printed digit gives its value back, whichever case was printed. */
  lemma HexValueOfDigit(n: Nibble)
    ensures HexValue(LowerHexDigit(n)) == Some(n)
    ensures HexValue(UpperHexDigit(n)) == Some(n)
    ensures LowerChar(UpperHexDigit(n)) == LowerHexDigit(n)
    ensures IsLowerHexDigit(LowerHexDigit(n))
  {
  }

  /** Two upper-case digits for one byte, as `BitConverter.ToString` prints it. */
  function UpperPair(b: Byte): string {
    [UpperHexDigit(b / 16), UpperHexDigit(b % 16)]
  }

  function LowerPair(b: Byte): string {
    [LowerHexDigit(b / 16), LowerHexDigit(b % 16)]
  }

  /** `BitConverter.ToString(bytes)`: upper-case pairs joined by '-' ("0A-FF-10"). */
  function BitConverterToString(bytes: seq<Byte>): string {
    if bytes == [] then ""
    else if |bytes| == 1 then UpperPair(bytes[0])
    else UpperPair(bytes[0]) + "-" + BitConverterToString(bytes[1..])
  }

  /** `s.Replace("-", "")`. */
  function RemoveDashes(s: string): (r: string)
    ensures forall i :: 0 <= i < |r| ==> r[i] != '-'
  {
    if s == [] then []
    else if s[0] == '-' then RemoveDashes(s[1..])
    else [s[0]] + RemoveDashes(s[1..])
  }

  /** The lower-case hexadecimal text of a byte string, two digits per byte. */
  function LowerHex(bytes: seq<Byte>): string {
    if bytes == [] then "" else LowerPair(bytes[0]) + LowerHex(bytes[1..])
  }

  /** The printing pipeline of CalculateHMACSHA256 applied to a MAC value. */
  function PrintMac(mac: seq<Byte>): (r: string)
    ensures forall i :: 0 <= i < |r| ==> r[i] != '-' && !('A' <= r[i] <= 'Z')
  {
    ToLower(RemoveDashes(BitConverterToString(mac)))
  }

  lemma {:induction false} RemoveDashesAppend(a: string, b: string)
    ensures RemoveDashes(a + b) == RemoveDashes(a) + RemoveDashes(b)
  {
    if a != [] {
      assert (a + b)[1..] == a[1..] + b;
      RemoveDashesAppend(a[1..], b);
    } else {
      assert a + b == b;
    }
  }

  lemma ToLowerAppend(a: string, b: string)
    ensures ToLower(a + b) == ToLower(a) + ToLower(b)
  {
  }

  /** The printed MAC is exactly the lower-case hexadecimal text of its bytes:
      the dashes `BitConverter` inserts are all removed and every digit is
      lower-cased. */
  lemma {:induction false} PrintMacIsLowerHex(mac: seq<Byte>)
    ensures PrintMac(mac) == LowerHex(mac)
  {
    if mac == [] {
    } else {
      var p := UpperPair(mac[0]);
      assert RemoveDashes(p) == p by {
        assert p[0] != '-' && p[1] != '-';
        assert RemoveDashes(p[1..]) == p[1..] by {
          assert p[1..][1..] == [];
          assert RemoveDashes(p[1..]) == [p[1]] + RemoveDashes(p[1..][1..]);
        }
        assert RemoveDashes(p) == [p[0]] + RemoveDashes(p[1..]);
      }
      HexValueOfDigit(mac[0] / 16);
      HexValueOfDigit(mac[0] % 16);
      assert ToLower(p) == LowerPair(mac[0]);
      if |mac| == 1 {
        assert LowerHex(mac) == LowerPair(mac[0]) + LowerHex(mac[1..]);
      } else {
        var rest := BitConverterToString(mac[1..]);
        RemoveDashesAppend(p + "-", rest);
        RemoveDashesAppend(p, "-");
        assert RemoveDashes("-") == "";
        PrintMacIsLowerHex(mac[1..]);
        ToLowerAppend(p, RemoveDashes(rest));
      }
    }
  }

  /** Two digits per byte, all of them lower-case hexadecimal digits. */
  lemma {:induction false} LowerHexShape(bytes: seq<Byte>)
    ensures |LowerHex(bytes)| == 2 * |bytes|
    ensures forall i :: 0 <= i < |LowerHex(bytes)| ==> IsLowerHexDigit(LowerHex(bytes)[i])
  {
    if bytes != [] {
      LowerHexShape(bytes[1..]);
      HexValueOfDigit(bytes[0] / 16);
      HexValueOfDigit(bytes[0] % 16);
      var h := LowerHex(bytes);
      assert h == LowerPair(bytes[0]) + LowerHex(bytes[1..]);
      forall i | 0 <= i < |h| ensures IsLowerHexDigit(h[i]) {
        if i >= 2 {
          assert h[i] == LowerHex(bytes[1..])[i - 2];
        }
      }
    }
  }

  /** Hexadecimal text back to bytes; `None` when a digit is invalid or the
      length is odd. */
  function HexDecode(s: string): Option<seq<Byte>> {
    if s == [] then Some([])
    else if |s| == 1 then None
    else
      var hi :- HexValue(s[0]);
      var lo :- HexValue(s[1]);
      var rest :- HexDecode(s[2..]);
      Some([hi * 16 + lo] + rest)
  }

  /** Decoding a printed pair consumes exactly that pair. */
  lemma HexDecodePair(b: Byte, rest: string, tail: seq<Byte>)
    requires HexDecode(rest) == Some(tail)
    ensures HexDecode(LowerPair(b) + rest) == Some([b] + tail)
  {
    var h := LowerPair(b) + rest;
    var hi, lo := b / 16, b % 16;
    assert HexValue(h[0]) == Some(hi) by {
      HexValueOfDigit(hi);
    }
    assert HexValue(h[1]) == Some(lo) by {
      HexValueOfDigit(lo);
    }
    assert h[2..] == rest;
    assert hi * 16 + lo == b;
  }

  /** The hexadecimal text loses nothing: decoding it gives the bytes back. */
  lemma {:induction false} HexRoundTrip(bytes: seq<Byte>)
    ensures HexDecode(LowerHex(bytes)) == Some(bytes)
  {
    if bytes != [] {
      assert LowerHex(bytes) == LowerPair(bytes[0]) + LowerHex(bytes[1..]);
      HexRoundTrip(bytes[1..]);
      HexDecodePair(bytes[0], LowerHex(bytes[1..]), bytes[1..]);
      assert [bytes[0]] + bytes[1..] == bytes;
    }
  }

  /** The delivered signature is lower-cased before it is compared with the
      computed one (IyzipayWebhookService line 95). */
  predicate SignatureMatches(computed: string, delivered: string) {
    computed == ToLower(delivered)
  }

  /** A MAC is accepted whether its digits arrive in lower or in upper case,
      and a delivered value matches only if it spells the MAC's bytes. */
  lemma SignatureIgnoresCase(mac: seq<Byte>, delivered: string)
    ensures SignatureMatches(PrintMac(mac), LowerHex(mac))
    ensures SignatureMatches(PrintMac(mac), ToUpper(LowerHex(mac)))
    ensures SignatureMatches(PrintMac(mac), delivered) <==> SignatureMatches(PrintMac(mac), ToLower(delivered))
    ensures SignatureMatches(PrintMac(mac), delivered) ==> HexDecode(ToLower(delivered)) == Some(mac)
  {
    PrintMacIsLowerHex(mac);
    LowerHexShape(mac);
    HexRoundTrip(mac);
    var h := LowerHex(mac);
    ToLowerFixed(h);
    ToLowerOfToUpper(h);
    ToLowerIdempotent(delivered);
  }
}
