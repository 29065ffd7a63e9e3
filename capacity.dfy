/**
 * How the 800-character budget (main.py:32) relates to what one QR symbol
 * can hold. The encoder (main.py:350-357) uses error-correction level M and
 * lets the library pick the smallest version that fits; the `qrcode` library
 * encodes a non-ASCII segment as its UTF-8 bytes in byte mode, and the
 * largest symbol, version 40 at level M, holds 2331 bytes in that mode
 * (ISO/IEC 18004, table 7). A segment that needs more makes encoding raise,
 * which is the failure path of `generate_qr_codes`.
 */
module Capacity {
  import Segmenter
  import QrApp

  /** Byte capacity of a version 40 symbol at error-correction level M. */
  const MaxBytesLevelM: nat := 2331

  /** The number of bytes UTF-8 uses for one character. */
  function Utf8Width(c: char): (w: nat)
    ensures 1 <= w <= 4
    ensures w == 1 <==> (c as int) < 0x80
  {
    if (c as int) < 0x80 then 1
    else if (c as int) < 0x800 then 2
    else if (c as int) < 0x1_0000 then 3
    else 4
  }

  /** The UTF-8 length of a string. */
  function Utf8Length(s: string): nat {
    if s == [] then 0 else Utf8Width(s[0]) + Utf8Length(s[1..])
  }

  /** A string takes between one and four bytes per character. */
  lemma {:induction false} Utf8LengthBounds(s: string)
    ensures |s| <= Utf8Length(s) <= 4 * |s|
  {
    if s != [] {
      Utf8LengthBounds(s[1..]);
    }
  }

  /** A run of one character takes that character's width per repetition. */
  lemma {:induction false} Utf8LengthOfRun(c: char, n: nat)
    ensures Utf8Length(seq(n, _ => c)) == n * Utf8Width(c)
  {
    if n > 0 {
      assert seq(n, _ => c)[1..] == seq(n - 1, _ => c);
      Utf8LengthOfRun(c, n - 1);
    }
  }

  /** A string of ASCII characters takes one byte per character. */
  lemma {:induction false} Utf8LengthAscii(s: string)
    requires forall k :: 0 <= k < |s| ==> (s[k] as int) < 0x80
    ensures Utf8Length(s) == |s|
  {
    if s != [] {
      Utf8LengthAscii(s[1..]);
    }
  }

  /** Every ASCII segment within the 800-character budget fits one symbol. */
  lemma AsciiSegmentFits(segment: string)
    requires |segment| <= Segmenter.MaxChars
    requires forall k :: 0 <= k < |segment| ==> (segment[k] as int) < 0x80
    ensures Utf8Length(segment) <= MaxBytesLevelM
  {
    Utf8LengthAscii(segment);
  }

  /** The budget does not keep every segment within one symbol: 800 Chinese
      characters, a segment `split_text` produces from an unspaced Chinese
      text, take 2400 bytes, more than a version 40 symbol at level M holds,
      so encoding such a segment raises. */
  lemma FullChineseSegmentOverflows()
    ensures var segment := seq(Segmenter.MaxChars, _ => '码');
      |segment| <= Segmenter.MaxChars && Utf8Length(segment) == 2400 && Utf8Length(segment) > MaxBytesLevelM
  {
    Utf8LengthOfRun('码', Segmenter.MaxChars);
  }

  /** For an encoder that raises whenever the payload exceeds what a
      version 40 symbol holds at level M, generating from 2000 Chinese
      characters fails on the very first segment: no record is built, and
      the error is the first segment's. */
  lemma ChineseTextFailsToEncode(encode: string -> QrApp.EncodeResult)
    requires forall s :: Utf8Length(s) > MaxBytesLevelM ==> encode(s).EncodeFailed?
    ensures var segments := Segmenter.SplitText(seq(2000, _ => '码'), Segmenter.MaxChars, Segmenter.ChunkWrap);
            |segments| == 3 && QrApp.EncodedPrefix(segments, encode) == 0
            && QrApp.BuildRecords(segments, encode) == []
  {
    var text := seq(2000, _ => '码');
    Segmenter.TwoThousandCharacters('码');
    var segments := Segmenter.ChunkWrap(text, Segmenter.MaxChars);
    assert segments[0] == text[..800];
    assert text[..800] == seq(Segmenter.MaxChars, _ => '码');
    FullChineseSegmentOverflows();
  }

  /** The largest budget that keeps every segment, whatever its characters,
      within one symbol at level M. */
  const SafeMaxChars: nat := MaxBytesLevelM / 4

  lemma SafeBudgetFits(segment: string)
    requires |segment| <= SafeMaxChars
    ensures Utf8Length(segment) <= MaxBytesLevelM
  {
    Utf8LengthBounds(segment);
  }

  /** One more character already admits a segment that does not fit. */
  lemma SafeBudgetIsLargest()
    ensures var segment := seq(SafeMaxChars + 1, _ => '\U{10000}');
      Utf8Length(segment) > MaxBytesLevelM
  {
    Utf8LengthOfRun('\U{10000}', SafeMaxChars + 1);
  }
}
