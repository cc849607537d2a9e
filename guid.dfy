/** `System.Guid` as the plugin uses it: the order GUID is printed with
    `ToString()` into the gateway's conversation id and basket id, and read
    back with `Guid.TryParse` when a webhook or a confirmation arrives. */
module Guids {
  import opened Wrappers
  import opened Text
  import opened HexEncoding

  /** The 32 hexadecimal digits of a GUID, in the order `ToString()` prints them. */
  type Guid = s: seq<Nibble> | |s| == 32 witness seq(32, i => 0)

  /** The digits of a GUID, lower case, without separators (the "N" format). */
  function Digits(g: Guid): (r: string)
    ensures |r| == 32
    ensures forall i :: 0 <= i < 32 ==> r[i] == LowerHexDigit(g[i])
  {
    seq(32, i requires 0 <= i < 32 => LowerHexDigit(g[i]))
  }

  predicate IsDashPosition(i: int) {
    i == 8 || i == 13 || i == 18 || i == 23
  }

  /** Where the j-th digit stands in the "D" format. */
  function CharIndex(j: nat): (i: nat)
    requires j < 32
    ensures i < 36 && !IsDashPosition(i)
  {
    j + (if j >= 8 then 1 else 0) + (if j >= 12 then 1 else 0)
      + (if j >= 16 then 1 else 0) + (if j >= 20 then 1 else 0)
  }

  /** Which digit stands at a non-dash position of the "D" format. */
  function DigitIndex(i: nat): (j: nat)
    requires i < 36 && !IsDashPosition(i)
    ensures j < 32 && CharIndex(j) == i
  {
    i - (if i > 8 then 1 else 0) - (if i > 13 then 1 else 0)
      - (if i > 18 then 1 else 0) - (if i > 23 then 1 else 0)
  }

  /** `Guid.ToString()`: the "D" format, 8-4-4-4-12 lower-case digits. */
  function GuidToString(g: Guid): (r: string)
    ensures |r| == 36
    ensures forall i :: 0 <= i < 36 && IsDashPosition(i) ==> r[i] == '-'
    ensures forall j :: 0 <= j < 32 ==> r[CharIndex(j)] == LowerHexDigit(g[j])
  {
    var r := seq(36, i requires 0 <= i < 36 =>
      if IsDashPosition(i) then '-' else LowerHexDigit(g[DigitIndex(i)]));
    assert forall j :: 0 <= j < 32 ==> DigitIndex(CharIndex(j)) == j;
    r
  }

  /** 32 hexadecimal digits of either case, nothing else. */
  function ParseDigits(t: string): (r: Option<Guid>)
    requires |t| == 32
    ensures r.Some? <==> forall i :: 0 <= i < 32 ==> HexValue(t[i]).Some?
  {
    if forall i :: 0 <= i < 32 ==> HexValue(t[i]).Some? then
      Some(seq(32, i requires 0 <= i < 32 => HexValue(t[i]).value))
    else None
  }

  /** The "D" format: digit groups separated by '-' at positions 8, 13, 18 and 23. */
  function ParseDashed(t: string): Option<Guid>
    requires |t| == 36
  {
    if t[8] == '-' && t[13] == '-' && t[18] == '-' && t[23] == '-' then
      ParseDigits(seq(32, j requires 0 <= j < 32 => t[CharIndex(j)]))
    else None
  }

  /** `Guid.TryParse`: surrounding white space is ignored, then the "N" (32
      digits), "D" (dashed), "B" ({dashed}) and "P" ((dashed)) formats are
      accepted; a null string is rejected. */
  function TryParse(s: Option<string>): (g: Option<Guid>)
    ensures s.None? ==> g.None?
    ensures g.Some? ==> |Trim(s.value)| in {32, 36, 38}
  {
    match s
    case None => None
    case Some(str) => ParseTrimmed(Trim(str))
  }

  function ParseTrimmed(t: string): (g: Option<Guid>)
    ensures g.Some? ==> |t| in {32, 36, 38}
  {
    if |t| == 32 then ParseDigits(t)
    else if |t| == 36 then ParseDashed(t)
    else if |t| == 38 && ((t[0] == '{' && t[37] == '}') || (t[0] == '(' && t[37] == ')')) then
      ParseDashed(t[1..37])
    else None
  }

  lemma PrintedIsTrimmed(g: Guid)
    ensures Trim(GuidToString(g)) == GuidToString(g)
  {
    var s := GuidToString(g);
    HexValueOfDigit(g[0]);
    HexValueOfDigit(g[31]);
    assert s[CharIndex(0)] == LowerHexDigit(g[0]);
    assert s[CharIndex(31)] == LowerHexDigit(g[31]);
    TrimFixedPoints(s);
  }

  lemma ParseDashedPrinted(g: Guid)
    ensures ParseDashed(GuidToString(g)) == Some(g)
  {
    var s := GuidToString(g);
    var h := seq(32, j requires 0 <= j < 32 => s[CharIndex(j)]);
    forall j | 0 <= j < 32 ensures HexValue(h[j]) == Some(g[j]) {
      HexValueOfDigit(g[j]);
    }
    assert ParseDigits(h) == Some(g) by {
      assert seq(32, j requires 0 <= j < 32 => HexValue(h[j]).value) == g;
    }
  }

  /** A GUID printed by `ToString()` parses back to the same GUID. */
  lemma ParsePrinted(g: Guid)
    ensures TryParse(Some(GuidToString(g))) == Some(g)
  {
    var s := GuidToString(g);
    PrintedIsTrimmed(g);
    assert |Trim(s)| == 36;
    ParseDashedPrinted(g);
  }

  /** Distinct GUIDs print differently, so the printed conversation id
      designates exactly one order. */
  lemma GuidToStringInjective(a: Guid, b: Guid)
    requires GuidToString(a) == GuidToString(b)
    ensures a == b
  {
    ParsePrinted(a);
    ParsePrinted(b);
  }

  /** A string that is empty or only white space is not a GUID. */
  lemma BlankIsNotGuid(s: string)
    requires forall i :: 0 <= i < |s| ==> IsWhiteSpace(s[i])
    ensures TryParse(Some(s)) == None
  {
    TrimFixedPoints(s);
    assert Trim(s) == [];
    assert ParseTrimmed([]) == None;
  }
}
