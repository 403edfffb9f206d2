// TextFileConverter: guessing a text file's charset from its leading bytes and a
// UTF-8 validity check (the well-formed byte sequences of section 4 of RFC 3629),
// and the line copy that rewrites a non-UTF-8 file.
module TextConverter {
  import opened JStrings

  type Byte = b: int | 0 <= b < 256

  // ------------------------------------------------------- UTF-8 well-formedness

  predicate IsTail(b: Byte) { 0x80 <= b <= 0xBF }

  /** Length of the well-formed UTF-8 character at the start of s, or 0 when s does
      not start with one (RFC 3629, section 4: UTF8-1 .. UTF8-4). */
  function CharLength(s: seq<Byte>): (n: nat)
    ensures n <= 4 && n <= |s|
  {
    if s == [] then 0
    else
      var b := s[0];
      if b <= 0x7F then 1
      else if 0xC2 <= b <= 0xDF then
        if |s| >= 2 && IsTail(s[1]) then 2 else 0
      else if 0xE0 <= b <= 0xEF then
        var lo := if b == 0xE0 then 0xA0 else 0x80;
        var hi := if b == 0xED then 0x9F else 0xBF;
        if |s| >= 3 && lo <= s[1] <= hi && IsTail(s[2]) then 3 else 0
      else if 0xF0 <= b <= 0xF4 then
        var lo := if b == 0xF0 then 0x90 else 0x80;
        var hi := if b == 0xF4 then 0x8F else 0xBF;
        if |s| >= 4 && lo <= s[1] <= hi && IsTail(s[2]) && IsTail(s[3]) then 4 else 0
      else 0
  }

  /** isValidUTF8: a strict decoder accepts the whole array. */
  predicate IsValidUtf8(s: seq<Byte>)
    decreases |s|
  {
    s == [] || (CharLength(s) > 0 && IsValidUtf8(s[CharLength(s)..]))
  }

  // ------------------------------------------------------------- UTF-8 encoding

  /** The UTF-8 encoding of one Unicode scalar value. */
  function EncodeChar(c: char): (r: seq<Byte>)
    ensures 1 <= |r| <= 4
  {
    var v := c as int;
    if v < 0x80 then [v]
    else if v < 0x800 then [0xC0 + v / 64, 0x80 + v % 64]
    else if v < 0x10000 then [0xE0 + v / 4096, 0x80 + (v / 64) % 64, 0x80 + v % 64]
    else [0xF0 + v / 262144, 0x80 + (v / 4096) % 64, 0x80 + (v / 64) % 64, 0x80 + v % 64]
  }

  function Encode(s: string): seq<Byte>
  {
    if s == [] then [] else EncodeChar(s[0]) + Encode(s[1..])
  }

  lemma ThreeByteChar(v: int)
    requires 0x800 <= v < 0x10000 && !(0xD800 <= v < 0xE000)
    ensures v / 4096 == 0 ==> 0xA0 <= 0x80 + (v / 64) % 64
    ensures v / 4096 == 0xD ==> 0x80 + (v / 64) % 64 <= 0x9F
  {
  }

  lemma FourByteChar(v: int)
    requires 0x10000 <= v <= 0x10FFFF
    ensures v / 262144 <= 4
    ensures v / 262144 == 0 ==> 0x90 <= 0x80 + (v / 4096) % 64
    ensures v / 262144 == 4 ==> 0x80 + (v / 4096) % 64 <= 0x8F
  {
  }

  /** A scalar value's encoding is one well-formed character, whatever follows it. */
  lemma EncodeCharLength(c: char, rest: seq<Byte>)
    ensures CharLength(EncodeChar(c) + rest) == |EncodeChar(c)|
  {
    var v := c as int;
    if 0x800 <= v < 0x10000 {
      ThreeByteChar(v);
    } else if v >= 0x10000 {
      FourByteChar(v);
    }
  }

  /** Every string's UTF-8 encoding passes the validity check. */
  lemma {:induction false} EncodeIsValid(s: string)
    ensures IsValidUtf8(Encode(s))
  {
    if s != [] {
      var e := EncodeChar(s[0]);
      EncodeCharLength(s[0], Encode(s[1..]));
      assert (e + Encode(s[1..]))[|e|..] == Encode(s[1..]);
      EncodeIsValid(s[1..]);
    }
  }

  /** Bytes below 0x80 are valid UTF-8 on their own. */
  lemma {:induction false} AsciiIsValid(s: seq<Byte>)
    requires forall i :: 0 <= i < |s| ==> s[i] < 0x80
    ensures IsValidUtf8(s)
  {
    if s != [] {
      AsciiIsValid(s[1..]);
    }
  }

  /** The bytes 0xFE and 0xFF never occur in valid UTF-8. */
  lemma {:induction false} NoFeFfInValid(s: seq<Byte>)
    requires IsValidUtf8(s)
    ensures forall i :: 0 <= i < |s| ==> s[i] < 0xFE
  {
    if s != [] {
      var n := CharLength(s);
      NoFeFfInValid(s[n..]);
      forall i | 0 <= i < |s|
        ensures s[i] < 0xFE
      {
        if i >= n {
          assert s[i] == s[n..][i - n];
        }
      }
    }
  }

  // ------------------------------------------------------- charset detection

  const Utf8: string := "UTF-8"
  const Utf16Le: string := "UTF-16LE"
  const Utf16Be: string := "UTF-16BE"
  const Gbk: string := "GBK"

  /** The UTF-8 mark EF BB BF or the UTF-16 marks FF FE and FE FF (section 3.2 of
      RFC 2781) at the start of the file. */
  predicate HasByteOrderMark(file: seq<Byte>)
  {
    (|file| >= 3 && file[..3] == [0xEF, 0xBB, 0xBF])
    || (|file| >= 2 && (file[..2] == [0xFF, 0xFE] || file[..2] == [0xFE, 0xFF]))
  }

  /** detectEncoding over the file's bytes: the first read fills up to four bytes;
      a byte-order mark decides, then the UTF-8 check, with GBK as the fallback. */
  function DetectEncoding(file: seq<Byte>): (enc: string)
    ensures enc in {Utf8, Utf16Le, Utf16Be, Gbk}
    ensures |file| >= 3 && file[..3] == [0xEF, 0xBB, 0xBF] ==> enc == Utf8
    ensures |file| >= 2 && file[..2] == [0xFF, 0xFE] ==> enc == Utf16Le
    ensures |file| >= 2 && file[..2] == [0xFE, 0xFF] ==> enc == Utf16Be
    ensures enc == Gbk <==> !IsValidUtf8(file) && !HasByteOrderMark(file)
    ensures IsValidUtf8(file) && !HasByteOrderMark(file) ==> enc == Utf8
  {
    var read := if |file| < 4 then |file| else 4;
    if read >= 3 && file[0] == 0xEF && file[1] == 0xBB && file[2] == 0xBF then Utf8
    else if read >= 2 && file[0] == 0xFF && file[1] == 0xFE then Utf16Le
    else if read >= 2 && file[0] == 0xFE && file[1] == 0xFF then Utf16Be
    else if IsValidUtf8(file) then Utf8
    else Gbk
  }

  /** Every valid UTF-8 file is detected as UTF-8: no UTF-16 mark can start it. */
  lemma ValidUtf8Detected(file: seq<Byte>)
    requires IsValidUtf8(file)
    ensures DetectEncoding(file) == Utf8
  {
    NoFeFfInValid(file);
  }

  /** Text written as UTF-8 is detected as UTF-8. */
  lemma EncodedTextIsUtf8(s: string)
    ensures DetectEncoding(Encode(s)) == Utf8
  {
    EncodeIsValid(s);
    ValidUtf8Detected(Encode(s));
  }

  /** convertToUtf8 leaves a file detected as UTF-8 alone. */
  predicate NeedsConversion(enc: string) { enc != Utf8 }

  /** Neither a UTF-8 file with a BOM nor UTF-8 text is rewritten. */
  lemma Utf8NotRewritten(s: string)
    ensures !NeedsConversion(DetectEncoding(Encode(s)))
    ensures !NeedsConversion(DetectEncoding([0xEF, 0xBB, 0xBF] + Encode(s)))
  {
    EncodedTextIsUtf8(s);
  }

  // --------------------------------------------------------------- line copy

  /** Each line followed by the line separator. */
  function Terminated(lines: seq<string>, newline: string): string
  {
    if lines == [] then [] else Terminated(lines[..|lines| - 1], newline) + lines[|lines| - 1] + newline
  }

  /** The copy loop of convertToUtf8: write each line read, then a line separator. */
  method CopyLines(lines: seq<string>, newline: string) returns (out: string)
    ensures out == Terminated(lines, newline)
  {
    out := [];
    for i := 0 to |lines|
      invariant out == Terminated(lines[..i], newline)
    {
      assert lines[..i + 1][..i] == lines[..i];
      out := out + lines[i] + newline;
    }
    assert lines[..|lines|] == lines;
  }

  /** The rewritten text is the lines joined by the separator, plus a final one. */
  lemma {:induction false} TerminatedIsJoinPlusNewline(lines: seq<string>, newline: string)
    requires lines != []
    ensures Terminated(lines, newline) == Join(lines, newline) + newline
  {
    if |lines| > 1 {
      var init := lines[..|lines| - 1];
      TerminatedIsJoinPlusNewline(init, newline);
    }
  }
}
