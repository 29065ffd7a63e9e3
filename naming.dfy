/**
 * The names under which QR images are exported (main.py:506 for a single
 * code, main.py:537-538 for the whole batch): `二维码_<i+1>_<n>.png` for the
 * code at position i of n, joined to the chosen directory in batch export.
 */
module FileNaming {
  import opened PyText

  datatype Option<T> = None | Some(value: T)

  /** The fixed label in front of every file name ("QR code"). */
  const Label: string := "二维码"
  const Extension: string := ".png"

  /** The file name for position `position` (0-based) of `count` codes: it
      starts with the label and an underscore and carries the `.png`
      extension that the save dialogs filter on. */
  function FileName(position: nat, count: nat): (name: string)
    ensures |name| > |Label| + 1 + |Extension|
    ensures name[..|Label| + 1] == Label + "_"
    ensures name[|name| - |Extension|..] == Extension
  {
    Label + "_" + Decimal(position + 1) + "_" + Decimal(count) + Extension
  }

  /** The first index of `c` in `s`, or `|s|` when `c` does not occur. */
  function IndexOf(s: string, c: char): (r: nat)
    ensures r <= |s|
    ensures forall k :: 0 <= k < r ==> s[k] != c
    ensures r < |s| ==> s[r] == c
  {
    if s == [] then 0 else if s[0] == c then 0 else 1 + IndexOf(s[1..], c)
  }

  /** Reads back the 1-based number and the total from a file name, if it
      has the shape that `FileName` produces. */
  function ParseFileName(name: string): Option<(nat, nat)> {
    var head := Label + "_";
    if |name| < |head| + |Extension| || name[..|head|] != head || name[|name| - |Extension|..] != Extension then None
    else
      var middle := name[|head|..|name| - |Extension|];
      var p := IndexOf(middle, '_');
      if p == |middle| then None
      else
        var number, total := middle[..p], middle[p + 1..];
        if number == [] || total == [] || !IsDigitString(number) || !IsDigitString(total) then None
        else Some((ParseDecimal(number), ParseDecimal(total)))
  }

  /** In `a + "_" + b` with `a` all digits, the first '_' follows `a`. */
  lemma IndexOfAfterDigits(a: string, b: string)
    requires IsDigitString(a)
    ensures IndexOf(a + "_" + b, '_') == |a|
  {
    var m := a + "_" + b;
    assert m[|a|] == '_';
    assert forall k :: 0 <= k < |a| ==> m[k] == a[k] && m[k] != '_';
  }

  /** Between the head and the extension, a file name holds the two numbers
      joined by '_'. */
  lemma FileNameParts(position: nat, count: nat)
    ensures var name := FileName(position, count);
            name[|Label| + 1..|name| - |Extension|] == Decimal(position + 1) + "_" + Decimal(count)
  {
    var head := Label + "_";
    var middle := Decimal(position + 1) + "_" + Decimal(count);
    var name := FileName(position, count);
    assert name == head + middle + Extension;
  }

  /** A file name carries the 1-based position and the total it was made from. */
  lemma FileNameRoundTrip(position: nat, count: nat)
    ensures ParseFileName(FileName(position, count)) == Some((position + 1, count))
  {
    var number, total := Decimal(position + 1), Decimal(count);
    var middle := number + "_" + total;
    FileNameParts(position, count);
    IndexOfAfterDigits(number, total);
    assert middle[..|number|] == number;
    assert middle[|number| + 1..] == total;
    DecimalRoundTrip(position + 1);
    DecimalRoundTrip(count);
  }

  /** Different positions or totals never share a file name. */
  lemma FileNameInjective(i: nat, n: nat, j: nat, m: nat)
    ensures FileName(i, n) == FileName(j, m) <==> i == j && n == m
  {
    FileNameRoundTrip(i, n);
    FileNameRoundTrip(j, m);
  }

  /** `os.path.join(directory, name)` with POSIX separators: an absolute name
      replaces the directory; a relative name is appended below the
      directory, which stays a prefix of the path (`JoinPathEndsWithName`
      shows the name is its tail). */
  function JoinPath(directory: string, name: string): (path: string)
    ensures |name| > 0 && name[0] == '/' ==> path == name
    ensures (name == [] || name[0] != '/') ==>
              |path| >= |directory| + |name| && path[..|directory|] == directory
  {
    if |name| > 0 && name[0] == '/' then name
    else if directory == [] || directory[|directory| - 1] == '/' then directory + name
    else directory + "/" + name
  }

  /** A relative name is the tail of the joined path: the file is written
      under exactly the name that was offered. */
  lemma JoinPathEndsWithName(directory: string, name: string)
    requires name == [] || name[0] != '/'
    ensures var path := JoinPath(directory, name);
            |path| >= |name| && path[|path| - |name|..] == name
  {
  }

  /** Within one directory, different relative names give different paths. */
  lemma JoinPathInjective(directory: string, x: string, y: string)
    requires x == [] || x[0] != '/'
    requires y == [] || y[0] != '/'
    ensures JoinPath(directory, x) == JoinPath(directory, y) <==> x == y
  {
    var base := if directory == [] || directory[|directory| - 1] == '/' then directory else directory + "/";
    assert JoinPath(directory, x) == base + x;
    assert JoinPath(directory, y) == base + y;
    assert x == (base + x)[|base|..];
    assert y == (base + y)[|base|..];
  }

  /** The paths a batch export of `count` codes writes to, in order. */
  function BatchPaths(directory: string, count: nat): (paths: seq<string>)
    ensures |paths| == count
  {
    seq(count, i requires 0 <= i < count => JoinPath(directory, FileName(i, count)))
  }

  /** A batch export never writes two codes to the same path. */
  lemma BatchPathsDistinct(directory: string, count: nat, i: nat, j: nat)
    requires i < j < count
    ensures BatchPaths(directory, count)[i] != BatchPaths(directory, count)[j]
  {
    assert FileName(i, count)[0] == Label[0];
    assert FileName(j, count)[0] == Label[0];
    JoinPathInjective(directory, FileName(i, count), FileName(j, count));
    FileNameInjective(i, count, j, count);
  }
}
