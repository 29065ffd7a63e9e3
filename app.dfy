/**
 * The batch and navigation state of `QRCodeGeneratorApp` (main.py): the
 * ordered list `qr_codes` of generated codes, the cursor `current_index`,
 * and the widget states the handlers set from them.
 *
 * Everything the class calls and cannot see is a parameter: the line wrapper
 * `textwrap.wrap`, the QR encoder with its rasteriser and preview resize
 * (which may fail), the save dialog, and the image write (which may fail).
 */
module QrApp {
  import opened PyText
  import opened Segmenter
  import opened FileNaming
  import opened Navigation

  /** A rasterised QR symbol; the model never looks inside it. */
  datatype Bitmap = Bitmap(rows: seq<seq<bool>>)

  /** What encoding one segment yields (main.py:350-363): the image at its
      original resolution, kept for export, and the copy resized for the
      on-screen preview. */
  datatype Rendered = Rendered(original: Bitmap, preview: Bitmap)

  /** Encoding a segment either succeeds or raises (a payload too large for
      any symbol version, for one). */
  datatype EncodeResult = Encoded(rendered: Rendered) | EncodeFailed(message: string)

  /** Saving an image to a path either succeeds or raises. */
  datatype WriteResult = Written | WriteFailed(message: string)

  /** One entry of `qr_codes` (main.py:366-372). */
  datatype QrRecord = QrRecord(photo: Bitmap, originalImage: Bitmap, text: string, index: nat, total: nat)

  /** The text of the status bar. */
  datatype Status =
    | Ready                                   // "就绪 - …", set at start-up
    | Generating                              // "正在生成二维码..."
    | GeneratedCount(count: nat)              // "已生成 {n} 个二维码"
    | GenerateFailed                          // "生成失败"
    | Cleared                                 // "已清空内容"
    | SavedFile(path: string)                 // "已保存: {basename}"
    | SavedBatch(count: nat, directory: string) // "已保存 {n} 个二维码到: {dir}"
    | SaveFailed                              // "保存失败"

  /** The message box a generation ends with, if any. */
  datatype GenerateOutcome = EmptyInputWarning | GenerateDone(count: nat) | GenerateError(message: string)

  /** The message box a download ends with, if any. */
  datatype SaveOutcome = NothingToDownload | Cancelled | SavedTo(count: nat, target: string) | SaveError(message: string)

  /** The position of the first element of `xs` that satisfies `p`, or `|xs|`. */
  function FirstWhere<T>(xs: seq<T>, p: T -> bool): (k: nat)
    ensures k <= |xs|
    ensures forall j :: 0 <= j < k ==> !p(xs[j])
    ensures k < |xs| ==> p(xs[k])
  {
    if xs == [] then 0 else if p(xs[0]) then 0 else 1 + FirstWhere(xs[1..], p)
  }

  /** The number of segments that encode before the first one that fails. */
  function EncodedPrefix(segments: seq<string>, encode: string -> EncodeResult): (k: nat)
    ensures k <= |segments|
    ensures forall j :: 0 <= j < k ==> encode(segments[j]).Encoded?
    ensures k < |segments| ==> encode(segments[k]).EncodeFailed?
  {
    FirstWhere(segments, (s: string) => encode(s).EncodeFailed?)
  }

  /** The record the loop of `generate_qr_codes` appends for segment `j`:
      it holds that segment with the images encoded from it, and numbers it
      `j` of `|segments|`, so its index is always below its total. */
  function RecordFor(segments: seq<string>, j: nat, rendered: Rendered): (r: QrRecord)
    requires j < |segments|
    ensures r.text == segments[j] && r.index == j && r.index < r.total == |segments|
    ensures r.originalImage == rendered.original && r.photo == rendered.preview
  {
    QrRecord(rendered.preview, rendered.original, segments[j], j, |segments|)
  }

  /** The records that `generate_qr_codes` leaves in `qr_codes`: one per
      segment, in order, up to the first segment that fails to encode. There
      are never more records than segments, and they are numbered by their
      position. */
  function BuildRecords(segments: seq<string>, encode: string -> EncodeResult): (records: seq<QrRecord>)
    ensures |records| <= |segments|
    ensures WellNumbered(records)
  {
    var k := EncodedPrefix(segments, encode);
    seq(k, j requires 0 <= j < k => RecordFor(segments, j, encode(segments[j]).rendered))
  }

  /** Every record knows its position, and all share one total that is at
      least the number of records. */
  predicate WellNumbered(records: seq<QrRecord>) {
    forall k :: 0 <= k < |records| ==>
      records[k].index == k && records[k].total == records[0].total && |records| <= records[0].total
  }

  /** What the built records hold: record j is segment j with its own
      images, position j and the segment count as total; there are as many
      records as segments encoded before the first failure, so all of them
      exactly when no segment fails. */
  lemma BuildRecordsShape(segments: seq<string>, encode: string -> EncodeResult)
    ensures var records := BuildRecords(segments, encode);
      && |records| == EncodedPrefix(segments, encode)
      && WellNumbered(records)
      && (forall j :: 0 <= j < |records| ==>
            && records[j].index == j && records[j].total == |segments| && records[j].text == segments[j]
            && records[j].originalImage == encode(segments[j]).rendered.original
            && records[j].photo == encode(segments[j]).rendered.preview)
      && (|records| == |segments| <==> forall j :: 0 <= j < |segments| ==> encode(segments[j]).Encoded?)
  {
  }

  /** The texts of the records, joined in order. */
  function RecordTexts(records: seq<QrRecord>): string {
    if records == [] then [] else records[0].text + RecordTexts(records[1..])
  }

  lemma {:induction false} RecordTextsOfBuild(segments: seq<string>, encode: string -> EncodeResult)
    requires forall j :: 0 <= j < |segments| ==> encode(segments[j]).Encoded?
    ensures RecordTexts(BuildRecords(segments, encode)) == Concat(segments)
    decreases |segments|
  {
    var records := BuildRecords(segments, encode);
    if segments != [] {
      RecordTextsOfBuild(segments[1..], encode);
      var rest := BuildRecords(segments[1..], encode);
      assert |records| == |segments| && |rest| == |segments| - 1;
      assert forall j :: 0 <= j < |rest| ==> records[1..][j].text == rest[j].text;
      RecordTextsSameTexts(records[1..], rest);
    }
  }

  lemma {:induction false} RecordTextsSameTexts(a: seq<QrRecord>, b: seq<QrRecord>)
    requires |a| == |b| && forall j :: 0 <= j < |a| ==> a[j].text == b[j].text
    ensures RecordTexts(a) == RecordTexts(b)
    decreases |a|
  {
    if a != [] {
      RecordTextsSameTexts(a[1..], b[1..]);
    }
  }

  /** A non-empty input within the budget that encodes becomes one record
      holding the whole input, numbered 1 of 1. */
  lemma ShortInputOneRecord(text: string, wrap: (string, nat) -> seq<string>, encode: string -> EncodeResult)
    requires 0 < |text| <= MaxChars && encode(text).Encoded?
    ensures var records := BuildRecords(SplitText(text, MaxChars, wrap), encode);
      |records| == 1 && records[0].text == text && records[0].index == 0 && records[0].total == 1
  {
    ShortTextIsOneSegment(text, MaxChars, wrap);
    BuildRecordsShape([text], encode);
  }

  /** With the stand-in wrapper and an encoder that never fails, the
      generated codes hold the stripped input exactly, in order. */
  lemma GeneratedTextsJoinToInput(text: string, encode: string -> EncodeResult)
    requires forall s :: encode(s).Encoded?
    ensures RecordTexts(BuildRecords(SplitText(text, MaxChars, ChunkWrap), encode)) == text
  {
    SplitWithChunkWrap(text, MaxChars);
    RecordTextsOfBuild(SplitText(text, MaxChars, ChunkWrap), encode);
  }

  /** The path and the original-resolution image of each record, as batch
      export writes them. */
  function Exports(directory: string, records: seq<QrRecord>): (e: seq<(string, Bitmap)>)
    ensures |e| == |records|
    ensures forall i :: 0 <= i < |e| ==> e[i] == (BatchPaths(directory, |records|)[i], records[i].originalImage)
  {
    var paths := BatchPaths(directory, |records|);
    seq(|records|, i requires 0 <= i < |records| => (paths[i], records[i].originalImage))
  }

  /** The number of files batch export writes before the first write that fails. */
  function SavedPrefix(directory: string, records: seq<QrRecord>, write: (string, Bitmap) -> WriteResult): (k: nat)
    ensures k <= |records|
    ensures forall j :: 0 <= j < k ==> write(BatchPaths(directory, |records|)[j], records[j].originalImage).Written?
    ensures k < |records| ==> write(BatchPaths(directory, |records|)[k], records[k].originalImage).WriteFailed?
  {
    var e := Exports(directory, records);
    FirstWhere(e, (x: (string, Bitmap)) => write(x.0, x.1).WriteFailed?)
  }

  class QrCodeGeneratorApp {
    /** The contents of the text widget, without the line break Tk always appends. */
    var textInput: string
    /** The number shown in the "字符数: n" label. */
    var charCount: nat
    var generateEnabled: bool
    /** `self.qr_codes` */
    var qrCodes: seq<QrRecord>
    /** `self.current_index` */
    var currentIndex: int
    var nav: NavButtons
    var status: Status
    /** `self.max_chars` */
    const maxChars: nat := MaxChars

    /** The invariant every handler keeps: the cursor is a valid position
        (0 on an empty list) and the records are numbered by their position. */
    ghost predicate Valid()
      reads this
    {
      && CursorOk(|qrCodes|, currentIndex)
      && WellNumbered(qrCodes)
    }

    /** The text every handler reads: `text_input.get("1.0", END).strip()`.
        The line break Tk appends is irrelevant: it is the stripped widget
        contents. */
    function InputText(): (text: string)
      reads this
      ensures text == Strip(textInput)
    {
      StripIgnoresTrailingNewline(textInput);
      Strip(textInput + "\n")
    }

    /** The navigation and download buttons show `NavRule` of the current state. */
    ghost predicate ButtonsAgree()
      reads this
    {
      nav == NavRule(|qrCodes|, currentIndex)
    }

    /** The character count and the generate button reflect the input. */
    ghost predicate GenerateButtonAgrees()
      reads this
    {
      charCount == |InputText()| && (generateEnabled <==> |InputText()| > 0)
    }

    /** `__init__` (main.py:29-32) with the initial widget states of
        `create_widgets`: empty input, every button disabled. */
    constructor ()
      ensures Valid() && ButtonsAgree() && GenerateButtonAgrees()
      ensures textInput == [] && qrCodes == [] && currentIndex == 0
      ensures nav == AllDisabled && !generateEnabled && status == Ready
    {
      textInput := [];
      charCount := 0;
      generateEnabled := false;
      qrCodes := [];
      currentIndex := 0;
      nav := AllDisabled;
      status := Ready;
      new;
      assert GenerateButtonAgrees() by {
        assert textInput + "\n" == "\n";
        StripLineBreak();
      }
    }

    /** `update_char_count`: show the stripped length and enable the generate
        button exactly when it is positive. */
    method UpdateCharCount()
      modifies this`charCount, this`generateEnabled
      ensures old(Valid()) ==> Valid()
      ensures GenerateButtonAgrees()
    {
      var text := Strip(textInput + "\n");
      charCount := |text|;
      if charCount > 0 {
        generateEnabled := true;
      } else {
        generateEnabled := false;
      }
    }

    /** The user edits the text widget, which fires `<KeyRelease>` and so
        `update_char_count`; no other state changes. */
    method OnKeyRelease(newText: string)
      modifies this`textInput, this`charCount, this`generateEnabled
      ensures old(Valid()) ==> Valid()
      ensures textInput == newText && GenerateButtonAgrees()
    {
      textInput := newText;
      UpdateCharCount();
    }

    /** `update_nav_buttons` */
    method UpdateNavButtons()
      modifies this`nav
      ensures old(Valid()) ==> Valid()
      ensures ButtonsAgree()
    {
      if qrCodes == [] {
        nav := AllDisabled;
        return;
      }
      nav := NavButtons(currentIndex > 0, currentIndex < |qrCodes| - 1, true, true);
    }

    /** `generate_qr_codes`. An empty stripped input only raises a warning.
        Otherwise the old batch is discarded first, the input is split, and
        one record per segment is appended until a segment fails to encode:
        on success the list holds every segment, the cursor is 0 and the
        buttons are refreshed when there is at least one code (a wrapper that
        returns no lines leaves them as they were); on failure the list keeps the records built so
        far (the previous batch is gone), the cursor is 0 and the buttons are
        left as they were. */
    method GenerateQrCodes(wrap: (string, nat) -> seq<string>, encode: string -> EncodeResult)
      returns (outcome: GenerateOutcome)
      requires Valid()
      modifies this`qrCodes, this`currentIndex, this`nav, this`status
      ensures Valid() && textInput == old(textInput)
      ensures InputText() == [] ==>
        outcome == EmptyInputWarning && qrCodes == old(qrCodes) && currentIndex == old(currentIndex)
        && nav == old(nav) && status == old(status)
      ensures InputText() != [] ==>
        var segments := SplitText(InputText(), maxChars, wrap);
        var k := EncodedPrefix(segments, encode);
        && qrCodes == BuildRecords(segments, encode)
        && |qrCodes| == k && currentIndex == 0
        && (k == |segments| ==> outcome == GenerateDone(|segments|) && status == GeneratedCount(|segments|))
        && (k == |segments| && segments != [] ==> ButtonsAgree())
        && (segments == [] ==> nav == old(nav))
        && (k < |segments| ==> outcome == GenerateError(encode(segments[k]).message) && status == GenerateFailed && nav == old(nav))
    {
      var text := Strip(textInput + "\n");
      if text == [] {
        outcome := EmptyInputWarning;
        return;
      }
      status := Generating;
      qrCodes := [];
      currentIndex := 0;
      var segments := SplitText(text, maxChars, wrap);
      ghost var k := EncodedPrefix(segments, encode);
      var i := 0;
      while i < |segments|
        invariant 0 <= i <= k
        invariant qrCodes == BuildRecords(segments, encode)[..i]
        invariant currentIndex == 0 && nav == old(nav)
        invariant status == Generating
      {
        var result := encode(segments[i]);
        if result.EncodeFailed? {
          assert i == k;
          status := GenerateFailed;
          outcome := GenerateError(result.message);
          return;
        }
        qrCodes := qrCodes + [RecordFor(segments, i, result.rendered)];
        i := i + 1;
      }
      assert qrCodes == BuildRecords(segments, encode);
      if qrCodes != [] {
        UpdateNavButtons();
      }
      status := GeneratedCount(|segments|);
      outcome := GenerateDone(|segments|);
    }

    /** `show_next`: step forward unless at the last code; the list never changes. */
    method ShowNext()
      requires Valid()
      modifies this`currentIndex, this`nav
      ensures Valid() && qrCodes == old(qrCodes)
      ensures currentIndex == NextIndex(|qrCodes|, old(currentIndex))
      ensures currentIndex != old(currentIndex) ==> ButtonsAgree()
      ensures currentIndex == old(currentIndex) ==> nav == old(nav)
    {
      if currentIndex < |qrCodes| - 1 {
        currentIndex := currentIndex + 1;
        UpdateNavButtons();
      }
    }

    /** `show_prev`: step back unless at the first code; the list never changes. */
    method ShowPrev()
      requires Valid()
      modifies this`currentIndex, this`nav
      ensures Valid() && qrCodes == old(qrCodes)
      ensures currentIndex == PrevIndex(|qrCodes|, old(currentIndex))
      ensures currentIndex != old(currentIndex) ==> ButtonsAgree()
      ensures currentIndex == old(currentIndex) ==> nav == old(nav)
    {
      if currentIndex > 0 {
        currentIndex := currentIndex - 1;
        UpdateNavButtons();
      }
    }

    /** `clear_content`: empty input, generate disabled, no codes, cursor 0,
        all four buttons disabled. */
    method ClearContent()
      modifies this
      ensures Valid() && ButtonsAgree() && GenerateButtonAgrees()
      ensures textInput == [] && charCount == 0 && !generateEnabled
      ensures qrCodes == [] && currentIndex == 0 && nav == AllDisabled && status == Cleared
    {
      textInput := [];
      charCount := 0;
      generateEnabled := false;
      qrCodes := [];
      currentIndex := 0;
      UpdateNavButtons();
      status := Cleared;
      assert GenerateButtonAgrees() by {
        assert textInput + "\n" == "\n";
        StripLineBreak();
      }
    }

    /** `download_single_qr`. Refused when there is no current code;
        otherwise the save dialog is offered the name `suggested`, an empty
        answer cancels, and the original-resolution image of the current code
        is written to the chosen path. */
    method DownloadSingleQr(askSavePath: string -> string, write: (string, Bitmap) -> WriteResult)
      returns (suggested: string, outcome: SaveOutcome)
      requires Valid()
      modifies this`status
      ensures Valid()
      ensures !SingleDownloadAllowed(|qrCodes|, currentIndex) ==>
        outcome == NothingToDownload && suggested == [] && status == old(status)
      ensures SingleDownloadAllowed(|qrCodes|, currentIndex) ==>
        && suggested == FileName(currentIndex, |qrCodes|)
        && var path := askSavePath(suggested);
           if path == [] then outcome == Cancelled && status == old(status)
           else match write(path, qrCodes[currentIndex].originalImage)
             case Written => outcome == SavedTo(1, path) && status == SavedFile(path)
             case WriteFailed(message) => outcome == SaveError(message) && status == SaveFailed
    {
      suggested := [];
      if qrCodes == [] || currentIndex >= |qrCodes| {
        outcome := NothingToDownload;
        return;
      }
      var current := qrCodes[currentIndex];
      suggested := FileName(currentIndex, |qrCodes|);
      var path := askSavePath(suggested);
      if path == [] {
        outcome := Cancelled;
        return;
      }
      var result := write(path, current.originalImage);
      if result.Written? {
        status := SavedFile(path);
        outcome := SavedTo(1, path);
      } else {
        status := SaveFailed;
        outcome := SaveError(result.message);
      }
    }

    /** `download_all_qr`. Refused on an empty list, cancelled by an empty
        directory; otherwise the codes are written in order to
        `BatchPaths(saveDir, n)` until a write fails. `written` lists the
        files that were written: all n with `savedCount == n` on success,
        the first k on a failure at code k (the message then reports only the
        error, not the count). */
    method DownloadAllQr(saveDir: string, write: (string, Bitmap) -> WriteResult)
      returns (savedCount: nat, written: seq<string>, outcome: SaveOutcome)
      requires Valid()
      modifies this`status
      ensures Valid()
      ensures qrCodes == [] ==>
        outcome == NothingToDownload && savedCount == 0 && written == [] && status == old(status)
      ensures qrCodes != [] && saveDir == [] ==>
        outcome == Cancelled && savedCount == 0 && written == [] && status == old(status)
      ensures qrCodes != [] && saveDir != [] ==>
        var paths := BatchPaths(saveDir, |qrCodes|);
        var k := SavedPrefix(saveDir, qrCodes, write);
        && savedCount == k && written == paths[..k]
        && (k == |qrCodes| ==> outcome == SavedTo(|qrCodes|, saveDir) && status == SavedBatch(|qrCodes|, saveDir))
        && (k < |qrCodes| ==> outcome == SaveError(write(paths[k], qrCodes[k].originalImage).message) && status == SaveFailed)
    {
      savedCount, written := 0, [];
      if qrCodes == [] {
        outcome := NothingToDownload;
        return;
      }
      if saveDir == [] {
        outcome := Cancelled;
        return;
      }
      var paths := BatchPaths(saveDir, |qrCodes|);
      ghost var k := SavedPrefix(saveDir, qrCodes, write);
      var i := 0;
      while i < |qrCodes|
        invariant 0 <= i <= k
        invariant savedCount == i && written == paths[..i]
        invariant status == old(status)
      {
        var path := JoinPath(saveDir, FileName(i, |qrCodes|));
        assert path == paths[i];
        var result := write(path, qrCodes[i].originalImage);
        if result.WriteFailed? {
          assert i == k;
          status := SaveFailed;
          outcome := SaveError(result.message);
          return;
        }
        written := written + [path];
        savedCount := savedCount + 1;
        i := i + 1;
      }
      status := SavedBatch(savedCount, saveDir);
      outcome := SavedTo(savedCount, saveDir);
    }
  }
}
