/**
 * `split_text` (main.py:384-396): a text that fits the per-code budget is
 * kept whole; a longer one is handed to Python's `textwrap.wrap`.
 *
 * `textwrap.wrap` is library code whose source is not part of this model, so
 * `SplitText` takes the wrapping function as a parameter and everything
 * proved about an arbitrary wrapper is about `split_text`'s own branch.
 * `ChunkWrap` is a simplified stand-in: it is what `textwrap.wrap` (with
 * `break_long_words=True`) does on a text that contains no whitespace and no
 * hyphen, such as an unspaced Chinese paragraph, namely cut it into pieces of
 * exactly `width` characters plus a shorter last piece.
 */
module Segmenter {

  /** `self.max_chars` (main.py:32): the character budget of one QR code. */
  const MaxChars: nat := 800

  /** The segments joined back together in order. */
  function Concat(segments: seq<string>): string {
    if segments == [] then [] else segments[0] + Concat(segments[1..])
  }

  /** `split_text(text)` with the budget `maxChars` and the line wrapper
      `wrap`: every segment is within the budget whenever the wrapper's lines
      are, so `split_text` itself never produces an oversized segment. */
  function SplitText(text: string, maxChars: nat, wrap: (string, nat) -> seq<string>): (segments: seq<string>)
    ensures (forall k :: 0 <= k < |wrap(text, maxChars)| ==> |wrap(text, maxChars)[k]| <= maxChars) ==>
              forall k :: 0 <= k < |segments| ==> |segments[k]| <= maxChars
  {
    if |text| <= maxChars then [text] else wrap(text, maxChars)
  }

  /** A text within the budget becomes exactly one segment, equal to the text,
      whatever the wrapper does. */
  lemma ShortTextIsOneSegment(text: string, maxChars: nat, wrap: (string, nat) -> seq<string>)
    requires |text| <= maxChars
    ensures SplitText(text, maxChars, wrap) == [text]
    ensures Concat(SplitText(text, maxChars, wrap)) == text
  {
    assert Concat([text]) == text + Concat([]);
  }

  /** A text over the budget is wrapped at the budget width; `split_text`
      itself adds, drops and reorders nothing. */
  lemma LongTextIsWrapped(text: string, maxChars: nat, wrap: (string, nat) -> seq<string>)
    requires |text| > maxChars
    ensures SplitText(text, maxChars, wrap) == wrap(text, maxChars)
  {
  }

  // ---------------------------------------------------------------------
  // Stand-in for textwrap.wrap on text without whitespace or hyphens.

  /** Cuts `text` into consecutive pieces of `width` characters; the last
      piece holds the remainder. An empty text gives no pieces, as
      `textwrap.wrap("")` does. Width 0, which `textwrap` rejects, leaves a
      non-empty text whole. There are no pieces exactly when the text is
      empty. */
  function ChunkWrap(text: string, width: nat): (lines: seq<string>)
    ensures lines == [] <==> text == []
    decreases |text|
  {
    if text == [] then []
    else if width == 0 || |text| <= width then [text]
    else [text[..width]] + ChunkWrap(text[width..], width)
  }

  /** Joining the pieces gives back the text exactly. */
  lemma {:induction false} ChunkWrapConcat(text: string, width: nat)
    ensures Concat(ChunkWrap(text, width)) == text
    decreases |text|
  {
    var lines := ChunkWrap(text, width);
    if text == [] {
    } else if width == 0 || |text| <= width {
      assert Concat(lines) == text + Concat([]);
    } else {
      ChunkWrapConcat(text[width..], width);
      assert lines[1..] == ChunkWrap(text[width..], width);
      assert text == text[..width] + text[width..];
    }
  }

  /** Every piece is non-empty and within the width, and every piece but the
      last is exactly `width` long. */
  lemma {:induction false} ChunkWrapBounds(text: string, width: nat)
    requires width > 0
    ensures forall k :: 0 <= k < |ChunkWrap(text, width)| ==> 0 < |ChunkWrap(text, width)[k]| <= width
    ensures forall k :: 0 <= k < |ChunkWrap(text, width)| - 1 ==> |ChunkWrap(text, width)[k]| == width
    decreases |text|
  {
    if |text| > width {
      var rest := ChunkWrap(text[width..], width);
      ChunkWrapBounds(text[width..], width);
      var lines := ChunkWrap(text, width);
      assert lines == [text[..width]] + rest;
      assert forall k :: 1 <= k < |lines| ==> lines[k] == rest[k - 1];
    }
  }

  /** With the stand-in wrapper, splitting loses nothing, respects the budget
      and yields no empty segment for a non-empty text. */
  lemma SplitWithChunkWrap(text: string, maxChars: nat)
    requires maxChars > 0
    ensures Concat(SplitText(text, maxChars, ChunkWrap)) == text
    ensures forall k :: 0 <= k < |SplitText(text, maxChars, ChunkWrap)| ==> |SplitText(text, maxChars, ChunkWrap)[k]| <= maxChars
    ensures text != [] ==> forall k :: 0 <= k < |SplitText(text, maxChars, ChunkWrap)| ==> SplitText(text, maxChars, ChunkWrap)[k] != []
  {
    if |text| <= maxChars {
      ShortTextIsOneSegment(text, maxChars, ChunkWrap);
    } else {
      ChunkWrapConcat(text, maxChars);
      ChunkWrapBounds(text, maxChars);
    }
  }

  /** 2000 repetitions of one character at the 800-character budget give
      three segments of 800, 800 and 400 characters (for a character that is
      neither whitespace nor a hyphen, this is what `textwrap.wrap` does). */
  lemma TwoThousandCharacters(c: char)
    ensures var segments := SplitText(seq(2000, _ => c), MaxChars, ChunkWrap);
            |segments| == 3 && |segments[0]| == 800 && |segments[1]| == 800 && |segments[2]| == 400
            && Concat(segments) == seq(2000, _ => c)
  {
    var text := seq(2000, _ => c);
    var segments := ChunkWrap(text, MaxChars);
    assert segments == [text[..800]] + ChunkWrap(text[800..], 800);
    assert ChunkWrap(text[800..], 800) == [text[800..][..800]] + ChunkWrap(text[1600..], 800);
    assert text[800..][800..] == text[1600..];
    assert ChunkWrap(text[1600..], 800) == [text[1600..]];
    ChunkWrapConcat(text, MaxChars);
  }
}
