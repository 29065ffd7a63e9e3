# Long-text QR code generator: batch and navigation state

This project models, in Dafny, the logic core of a desktop tool that turns a
long text into a series of QR codes (`main.py`, class `QRCodeGeneratorApp`).
The tool strips the text typed into its input box and cuts it into segments
of at most 800 characters. It encodes each segment as one QR code and keeps
the codes in an ordered list with a cursor. Previous/next buttons move the
cursor. The current code, or all of them, can be saved as PNG files named
`二维码_<i+1>_<n>.png`.

The modules follow the parts of that class:

- `PyText`: Python's `str.strip()` (with `str.isspace()`'s exact character
  set) and `str(n)` for file names, with a parser for the round trip.
- `Segmenter`: `split_text`. A text that fits the budget is kept whole; a
  longer one goes to `textwrap.wrap`, which is a parameter here. `ChunkWrap`
  is a labelled stand-in for `textwrap.wrap`. It is exact on text with no
  whitespace and no hyphen, such as an unspaced Chinese paragraph.
- `FileNaming`: the export names, `os.path.join` and the proof that a batch
  export writes every code to its own path.
- `Navigation`: the cursor moves of `show_next`/`show_prev` (clamped, not
  wrapped) and the button rule of `update_nav_buttons`.
- `QrApp`: the class `QrCodeGeneratorApp`. Its fields are `qrCodes`,
  `currentIndex`, the input text, the button states and the status bar. Its
  methods are the handlers. Each method's `ensures` ties the new state to the
  functions above. The invariant `Valid()` keeps the cursor inside the list
  (0 when it is empty) and the records numbered by position.
- `Capacity`: how the 800-character budget compares with the 2331 bytes a
  version 40 symbol holds at error-correction level M. ASCII segments always
  fit. A full segment of Chinese characters (3 bytes each in UTF-8) does not,
  so the failure path of generation is reachable with the tool's own budget
  (`ChineseTextFailsToEncode`).
  582 characters is the largest budget that always fits.

The QR encoder, the save dialog and the file write are function parameters
that may fail. Generation empties the list before encoding starts
(main.py:342). A failure at segment k therefore leaves the records of
segments 0..k-1 and loses the previous batch. The buttons are not refreshed
after such a failure, and the model states this (`nav == old(nav)`).
Segmentation does not promise that joining the segments gives back the text:
the text is stripped first, and `textwrap` drops whitespace at line breaks.
The model proves that round trip only for the stand-in wrapper.

## Model

| member | source | states |
|---|---|---|
| PyText.IsSpaceAscii | main.py:320 | `str.isspace()`, which `strip` removes, holds on ASCII exactly for space, tab, line feed, vertical tab, form feed, carriage return and the separators 0x1C-0x1F (the full set, with the Unicode spaces, is `IsSpace`) |
| PyText.StripBounds | main.py:332 | `strip` keeps the slice `s[i..j]`: everything before `i` and from `j` on is whitespace, and a non-empty kept slice starts and ends with a character that is not whitespace |
| PyText.Strip | main.py:332 | the stripped text is no longer than the input and neither starts nor ends with whitespace |
| PyText.StripCharacterized | main.py:332 | any slice with only whitespace around it and none at its own ends is exactly the stripped text |
| PyText.StripEmptyIffAllSpace | main.py:332-335 | the stripped input is empty exactly when the input is all whitespace, which is when generation only warns |
| PyText.StripIgnoresTrailingNewline | main.py:320 | the line break Tk appends to the widget text does not change the stripped text |
| PyText.StripIdempotent | main.py:320 | stripping an already stripped text changes nothing |
| PyText.Decimal | main.py:506 | `str(n)` is non-empty, all decimal digits, with no leading zero unless n is 0 |
| PyText.DecimalRoundTrip | main.py:506 | reading the digits of `str(n)` gives back n |
| PyText.DecimalInjective | main.py:537 | different numbers render differently |
| Segmenter.SplitText | main.py:384-396 | split_text never produces a segment over the budget when the wrapper's lines respect it |
| Segmenter.ShortTextIsOneSegment | main.py:388-389 | a text of at most `max_chars` characters becomes exactly one segment equal to the text, whatever the wrapper |
| Segmenter.LongTextIsWrapped | main.py:390-394 | a longer text yields exactly what the wrapper returns at width `max_chars`: split_text itself adds, drops and reorders nothing |
| Segmenter.ChunkWrap | main.py:392-394 | the stand-in for `textwrap.wrap` gives no pieces exactly for the empty text, as `textwrap.wrap("")` does |
| Segmenter.ChunkWrapConcat | main.py:392-394 | the stand-in wrapper's pieces join back to the text exactly |
| Segmenter.ChunkWrapBounds | main.py:392-394 | the stand-in's pieces are non-empty and within the width, and all but the last are exactly the width |
| Segmenter.SplitWithChunkWrap | main.py:384-396 | with the stand-in, split_text loses nothing, respects the budget and gives no empty segment for a non-empty text |
| Segmenter.TwoThousandCharacters | main.py:388-394 | with the stand-in wrapper, 2000 repetitions of one character at budget 800 give three segments of 800, 800 and 400 that join back to the text |
| FileNaming.FileName | main.py:506 | an export name starts with the label `二维码_` and ends with the `.png` extension the save dialogs filter on |
| FileNaming.FileNameRoundTrip | main.py:506 | the export name for position i of n parses back to the 1-based number i+1 and the total n |
| FileNaming.FileNameInjective | main.py:537 | two export names are equal exactly when position and total are |
| FileNaming.JoinPath | main.py:538 | `os.path.join` keeps an absolute name as is and puts a relative one below the directory, which stays a prefix of the path |
| FileNaming.JoinPathEndsWithName | main.py:538 | a relative name is the tail of the joined path, so each file is written under the name built for it |
| FileNaming.JoinPathInjective | main.py:538 | in one directory, different relative names join to different paths |
| FileNaming.BatchPaths | main.py:536-538 | batch export targets one path per code |
| FileNaming.BatchPathsDistinct | main.py:536-539 | no two codes of a batch export are written to the same path |
| Navigation.NextIndex | main.py:428-429 | show_next moves the cursor one step forward only when it is before the last code, and keeps a valid cursor valid |
| Navigation.PrevIndex | main.py:435-436 | show_prev moves the cursor one step back only when it is after the first code, and keeps a valid cursor valid |
| Navigation.PrevUndoesNext | main.py:426-438 | a step back undoes a step forward that moved |
| Navigation.NextUndoesPrev | main.py:426-438 | a step forward undoes a step back that moved |
| Navigation.NextTimesClamps | main.py:428-429 | k presses of next leave the cursor at min(i+k, n-1): it stops at the last code instead of wrapping |
| Navigation.PrevTimesClamps | main.py:435-436 | k presses of previous leave the cursor at max(i-k, 0) |
| Navigation.NavRule | main.py:440-452 | the two download buttons are always enabled together, exactly when there is a code; with at most one code neither navigation button is enabled |
| Navigation.NavRuleMatchesHandlers | main.py:440-452 | prev is enabled iff the cursor is past 0 (iff show_prev moves), next iff it is before n-1 (iff show_next moves), both downloads iff the list is non-empty (iff single download is not refused), all four disabled iff the list is empty |
| QrApp.EncodedPrefix | main.py:349-357 | the number of segments that encode before the first one that raises: all before it encode, it fails |
| QrApp.RecordFor | main.py:366-372 | the record for segment j holds that segment and the images encoded from it, numbered j of the segment count, so its index is below its total |
| QrApp.BuildRecords | main.py:342-372 | generation never yields more records than segments, and the records are numbered by position with one shared total |
| QrApp.BuildRecordsShape | main.py:342-372 | generated record j holds segment j, index j, total = number of segments and that segment's own images; there are as many records as segments encoded before the first failure, and all of them iff no segment fails |
| QrApp.RecordTextsOfBuild | main.py:366-372 | when every segment encodes, the records' texts join to the segments joined |
| QrApp.ShortInputOneRecord | main.py:346-372 | a non-empty input within the budget that encodes gives one record holding the whole input, index 0 of total 1 |
| QrApp.GeneratedTextsJoinToInput | main.py:330-372 | with the stand-in wrapper and an encoder that never fails, the generated codes hold the stripped input exactly, in order |
| QrApp.SavedPrefix | main.py:535-540 | the number of files saved before the first write that raises; every write before it stores code j's original-resolution image (never the resized preview) at batch path j, and the write at that position fails |
| QrApp.QrCodeGeneratorApp.InputText | main.py:320 | the text the handlers read equals the stripped widget contents: Tk's appended line break makes no difference |
| QrApp.QrCodeGeneratorApp.constructor | main.py:29-32 | the app starts with an empty list, cursor 0, empty input and every button disabled |
| QrApp.QrCodeGeneratorApp.UpdateCharCount | main.py:318-328 | the count label shows the stripped length and generate is enabled iff that length is positive; the class invariant is kept |
| QrApp.QrCodeGeneratorApp.OnKeyRelease | main.py:128 | after the user edits the input, the count and the generate button reflect the new text; the class invariant is kept |
| QrApp.QrCodeGeneratorApp.UpdateNavButtons | main.py:440-452 | the four buttons are set to the button rule of the current list and cursor; the class invariant is kept |
| QrApp.QrCodeGeneratorApp.GenerateQrCodes | main.py:330-382 | an empty stripped input leaves all state unchanged; otherwise the list becomes the records of the segments encoded before the first failure, the cursor 0, and the invariant holds; on success the buttons agree with the rule when there is at least one code (main.py:375-377) and are unchanged when the wrapper gave no segment; on failure they are unchanged |
| QrApp.QrCodeGeneratorApp.ShowNext | main.py:426-431 | the cursor becomes NextIndex of the old one, the list is unchanged, the invariant is kept, and the buttons are refreshed only when the cursor moved |
| QrApp.QrCodeGeneratorApp.ShowPrev | main.py:433-438 | the cursor becomes PrevIndex of the old one, the list is unchanged, the invariant is kept, and the buttons are refreshed only when the cursor moved |
| QrApp.QrCodeGeneratorApp.ClearContent | main.py:454-495 | empty input, generate disabled, empty list, cursor 0, all four buttons disabled |
| QrApp.QrCodeGeneratorApp.DownloadSingleQr | main.py:497-521 | refused on an empty list or a cursor past the end; otherwise offers the name for cursor i of n, cancels on an empty path, and writes the current code's original image, reporting success or the error; the class invariant is kept |
| QrApp.QrCodeGeneratorApp.DownloadAllQr | main.py:523-546 | refused on an empty list, cancelled without a directory; otherwise writes the codes in order until a write fails; the saved count is the number written, equal to the list length when nothing fails; the class invariant is kept |
| Capacity.Utf8LengthBounds | main.py:356 | a segment's UTF-8 payload takes between one and four bytes per character |
| Capacity.AsciiSegmentFits | main.py:350-357 | an ASCII segment within the 800-character budget fits a version 40 symbol at level M |
| Capacity.FullChineseSegmentOverflows | main.py:32 | 800 Chinese characters take 2400 bytes, more than the 2331 a version 40 symbol holds at level M |
| Capacity.ChineseTextFailsToEncode | main.py:346-382 | for an encoder that raises above 2331 bytes, 2000 Chinese characters split with the stand-in give three segments and the first already fails, so no code is built |
| Capacity.SafeBudgetFits | main.py:32 | with a budget of 582 characters, every segment fits one symbol at level M |
| Capacity.SafeBudgetIsLargest | main.py:32 | at 583 characters a segment of four-byte characters no longer fits |

## Left out

- `textwrap.wrap` (main.py:392-394) is library code. `SplitText` takes it as a parameter. The stand-in `ChunkWrap` matches it only on text with no whitespace and no hyphen. At width 0, where `textwrap` raises, it keeps the text whole; the model never calls it with width 0.
- QR symbol construction (level M, automatic version fit), rasterising, the LANCZOS resize and `ImageTk.PhotoImage` (main.py:350-363) are one `encode` parameter that returns both images or fails. Any exception in those lines counts as that failure.
- Capacity.AsciiSegmentFits: does not model the `qrcode` library's switching to numeric or alphanumeric mode for runs of digits or capitals; byte mode is the worst case, so the bounds still hold.
- File writes (`Image.save`) and the dialogs (`asksaveasfilename`, `askdirectory`) are parameters. A cancelled dialog is the empty string.
- FileNaming.JoinPathInjective: joins with POSIX separators (`posixpath.join`). Windows drive letters and backslashes are not modelled.
- QrApp.QrCodeGeneratorApp.DownloadSingleQr: the status records the full path, where the source shows only `os.path.basename` of it.
- Status bar and message box texts are constructors of `Status`, `GenerateOutcome` and `SaveOutcome`, not the formatted Chinese strings.
- `show_current_qr` (main.py:398-424), the page label and the per-code character label are display only. The cursor invariant is what makes its indexing safe.
- `root.update()` (main.py:338) can run other pending events in the middle of a generation. The model runs each handler to completion.
- `show_full_text`, `copy_text_to_clipboard`, `center_window`, `open_github` and all widget construction and styling are UI and OS calls.
- `build_exe.py` only runs pip and PyInstaller.
- Not in the model because main.py does not do it: replacing the batch only after every segment has encoded, and reporting how many files were saved when a batch export fails partway. The code empties the list before encoding (main.py:342), and on a failed batch export it shows only the error (main.py:544-546).
