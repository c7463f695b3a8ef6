/**
 * The layout of the plain PPM ("P3") file the cameras write: the header
 * "P3\n<width> <height>\n255\n" and then the pixel lines, row by row from
 * the top, left to right within a row.
 */
module Ppm {
  import opened Optional
  import opened Decimal

  /** `writeln!(file, "P3\n{} {}\n255", width, height)`. */
  function Header(width: nat, height: nat): string
  {
    "P3\n" + IntToString(width) + " " + IntToString(height) + "\n255\n"
  }

  /** Reads back the width and height of a header, with the rest of the file. */
  function ReadHeader(s: string): Option<(int, int, string)>
  {
    if |s| < 3 || s[..3] != "P3\n" then None
    else
      match ReadInt(s[3..])
      case None => None
      case Some((width, rest)) =>
        match ReadSpacedInt(rest)
        case None => None
        case Some((height, rest)) =>
          if |rest| < 5 || rest[..5] != "\n255\n" then None else Some((width, height, rest[5..]))
  }

  /** A reader gets back the width and the height, and then whatever follows the header. */
  lemma ReadHeaderOf(width: nat, height: nat, body: string)
    ensures ReadHeader(Header(width, height) + body) == Some((width as int, height as int, body))
  {
    var tail := "\n255\n" + body;
    var afterWidth := " " + IntToString(height) + tail;
    var s := Header(width, height) + body;
    assert s == "P3\n" + (IntToString(width) + afterWidth);
    assert s[..3] == "P3\n" && s[3..] == IntToString(width) + afterWidth;
    ReadIntOf(width, afterWidth);
    ReadSpacedIntOf(height, tail);
    assert tail[..5] == "\n255\n" && tail[5..] == body;
  }

  /** The strings one after another. */
  function Concat(lines: seq<string>): string
  {
    if lines == [] then "" else Concat(lines[..|lines| - 1]) + lines[|lines| - 1]
  }

  /** The rows one after another. */
  function Flatten(rows: seq<seq<string>>): seq<string>
  {
    if rows == [] then [] else Flatten(rows[..|rows| - 1]) + rows[|rows| - 1]
  }

  /**
   * With `width` lines in every row, the flattened sequence has
   * `height * width` lines, and line `j * width + i` is line `i` of row `j`:
   * row-major order.
   */
  lemma {:induction false} FlattenRowMajor(rows: seq<seq<string>>, width: nat)
    requires forall j :: 0 <= j < |rows| ==> |rows[j]| == width
    ensures |Flatten(rows)| == |rows| * width
    ensures forall j, i :: 0 <= j < |rows| && 0 <= i < width ==>
      j * width + i < |Flatten(rows)| && Flatten(rows)[j * width + i] == rows[j][i]
  {
    if rows != [] {
      var front := rows[..|rows| - 1];
      FlattenRowMajor(front, width);
      var n := |rows| - 1;
      assert |Flatten(rows)| == n * width + width;
      forall j, i | 0 <= j < |rows| && 0 <= i < width
        ensures j * width + i < |Flatten(rows)| && Flatten(rows)[j * width + i] == rows[j][i]
      {
        if j < n {
          assert j * width + i < n * width by { MulStrict(j, n, width, i); }
          assert front[j] == rows[j];
        } else {
          assert j * width + i == n * width + i;
        }
      }
    }
  }

  /** `j * w + i < n * w` when `j < n` and `i < w`. */
  lemma MulStrict(j: nat, n: nat, w: nat, i: nat)
    requires j < n && i < w
    ensures j * w + i < n * w
  {
    var k: nat := n - j - 1;
    assert n * w == j * w + w + k * w;
  }

  /** Writing the pixel lines one by one gives the concatenation of the flattened rows. */
  lemma ConcatAppend(lines: seq<string>, more: seq<string>)
    ensures Concat(lines + more) == Concat(lines) + Concat(more)
    decreases |more|
  {
    if more == [] {
      assert lines + more == lines;
    } else {
      var last := more[|more| - 1];
      assert (lines + more)[..|lines + more| - 1] == lines + more[..|more| - 1];
      ConcatAppend(lines, more[..|more| - 1]);
    }
  }

  /** Writing line `p` of a row extends what was written by that line. */
  lemma ConcatStep(lines: seq<string>, row: seq<string>, p: nat)
    requires p < |row|
    ensures Concat(lines + row[..p + 1]) == Concat(lines + row[..p]) + row[p]
  {
    assert lines + row[..p + 1] == (lines + row[..p]) + [row[p]];
    ConcatAppend(lines + row[..p], [row[p]]);
    assert [row[p]][..0] == [];
  }

  /** Writing line `p` after the first `p` lines of `lines` gives the first `p + 1`. */
  lemma WriteLineStep(text: string, lines: seq<string>, p: nat)
    requires p < |lines|
    ensures text + Concat(lines[..p + 1]) == (text + Concat(lines[..p])) + lines[p]
  {
    assert lines[..p + 1][..p] == lines[..p];
  }

  /** Writing row `k` after the first `k` rows gives the first `k + 1`. */
  lemma WriteRowStep(text: string, rows: seq<seq<string>>, k: nat)
    requires k < |rows|
    ensures text + Concat(Flatten(rows[..k + 1])) == (text + Concat(Flatten(rows[..k]))) + Concat(rows[k])
  {
    FlattenStep(rows, k);
    ConcatAppend(Flatten(rows[..k]), rows[k]);
  }

  /** Flattening one more row appends that row. */
  lemma FlattenStep(rows: seq<seq<string>>, k: nat)
    requires k < |rows|
    ensures Flatten(rows[..k + 1]) == Flatten(rows[..k]) + rows[k]
  {
    assert rows[..k + 1][..k] == rows[..k];
  }
}
