/**
  BSON ObjectIds as the recipe routes use them: `ObjectId(recipe_id)` turns the
  string from the URL into an identifier, and `str(...)` turns a stored
  identifier back into a string for the JSON reply.

  An ObjectId is twelve bytes. Its string form is those bytes as 24
  lower-case hexadecimal digits; parsing accepts exactly 24 hexadecimal digits
  of either case and raises InvalidId on anything else. How the twelve bytes
  are generated (timestamp, counter) does not matter here and is not modelled.
*/
module ObjectIds {
  import opened Wrappers

  newtype byte = x: int | 0 <= x < 256

  /** An ObjectId: exactly twelve bytes. */
  type Id = b: seq<byte> | |b| == 12 witness [0, 0, 0, 0, 0, 0, 0, 0, 0, 0, 0, 0]

  predicate IsHexChar(c: char) {
    '0' <= c <= '9' || 'a' <= c <= 'f' || 'A' <= c <= 'F'
  }

  predicate IsLowerHexChar(c: char) {
    '0' <= c <= '9' || 'a' <= c <= 'f'
  }

  predicate AllHex(s: string) {
    forall i :: 0 <= i < |s| ==> IsHexChar(s[i])
  }

  /** The strings `ObjectId(s)` accepts: 24 hexadecimal digits. */
  predicate IsObjectIdString(s: string) {
    |s| == 24 && AllHex(s)
  }

  /** ASCII lower-casing of one character. */
  function LowerChar(c: char): char {
    if 'A' <= c <= 'Z' then (c as int - 'A' as int + 'a' as int) as char else c
  }

  function Lower(s: string): (l: string)
    ensures |l| == |s|
  {
    if s == [] then [] else [LowerChar(s[0])] + Lower(s[1..])
  }

  function DigitValue(c: char): (n: nat)
    requires IsHexChar(c)
    ensures n < 16
  {
    if '0' <= c <= '9' then c as int - '0' as int
    else if 'a' <= c <= 'f' then c as int - 'a' as int + 10
    else c as int - 'A' as int + 10
  }

  /** The lower-case digit for `n`; it is the digit `DigitValue` reads back as `n`. */
  function HexDigit(n: nat): (c: char)
    requires n < 16
    ensures IsLowerHexChar(c) && DigitValue(c) == n
  {
    if n < 10 then ('0' as int + n) as char else ('a' as int + n - 10) as char
  }

  /** Bytes as lower-case hexadecimal, two digits per byte, high nibble first. */
  function Hex(bs: seq<byte>): (s: string)
    ensures |s| == 2 * |bs|
    ensures forall i :: 0 <= i < |s| ==> IsLowerHexChar(s[i])
  {
    if bs == [] then []
    else [HexDigit(bs[0] as int / 16), HexDigit(bs[0] as int % 16)] + Hex(bs[1..])
  }

  /** Hexadecimal digits (either case) back to bytes, two digits per byte. */
  function Unhex(s: string): (bs: seq<byte>)
    requires |s| % 2 == 0 && AllHex(s)
    ensures |bs| == |s| / 2
  {
    if s == [] then []
    else [(DigitValue(s[0]) * 16 + DigitValue(s[1])) as byte] + Unhex(s[2..])
  }

  /** `str(oid)`: the canonical string form of an identifier. */
  function Render(id: Id): (s: string)
    ensures IsObjectIdString(s)
    ensures forall i :: 0 <= i < |s| ==> IsLowerHexChar(s[i])
  {
    Hex(id)
  }

  /** `ObjectId(s)` for a string `s`: None stands for the InvalidId it raises. */
  function Parse(s: string): (r: Option<Id>)
    ensures r.Some? <==> IsObjectIdString(s)
  {
    if IsObjectIdString(s) then Some(Unhex(s)) else None
  }

  lemma HexDigitOfDigitValue(c: char)
    requires IsHexChar(c)
    ensures HexDigit(DigitValue(c)) == LowerChar(c)
  {
  }

  lemma {:induction false} UnhexHex(bs: seq<byte>)
    ensures AllHex(Hex(bs)) && Unhex(Hex(bs)) == bs
  {
    if bs != [] {
      UnhexHex(bs[1..]);
      var s := Hex(bs);
      assert s[2..] == Hex(bs[1..]);
      assert DigitValue(s[0]) * 16 + DigitValue(s[1]) == bs[0] as int;
    }
  }

  lemma {:induction false} HexUnhex(s: string)
    requires |s| % 2 == 0 && AllHex(s)
    ensures Hex(Unhex(s)) == Lower(s)
  {
    if s != [] {
      HexUnhex(s[2..]);
      var n := DigitValue(s[0]) * 16 + DigitValue(s[1]);
      assert n / 16 == DigitValue(s[0]) && n % 16 == DigitValue(s[1]);
      HexDigitOfDigitValue(s[0]);
      HexDigitOfDigitValue(s[1]);
      assert s[1..][1..] == s[2..];
      assert Lower(s) == [LowerChar(s[0]), LowerChar(s[1])] + Lower(s[2..]);
    }
  }

  /** Parsing the string form of an identifier gives back that identifier. */
  lemma ParseRender(id: Id)
    ensures Parse(Render(id)) == Some(id)
  {
    UnhexHex(id);
  }

  /** A string that parses is the string form of its identifier, up to letter case. */
  lemma RenderParse(s: string, id: Id)
    requires Parse(s) == Some(id)
    ensures Render(id) == Lower(s)
  {
    HexUnhex(s);
  }

  /** Distinct identifiers have distinct string forms. */
  lemma RenderInjective(a: Id, b: Id)
    ensures Render(a) == Render(b) ==> a == b
  {
    ParseRender(a);
    ParseRender(b);
  }
}
