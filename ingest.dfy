/** The line loop shared by the seven loaders: skip the header, read until the end of input or
    the first blank line, tokenize each line and keep those with enough fields for the kind. */
module Ingest {
  import opened Csv

  /** A line that is empty once trimmed; it ends a load. */
  predicate IsBlank(line: string) {
    Trim(line) == []
  }

  /** The index of the first blank line at or after `i`, or `|lines|` if there is none. */
  function BlankFrom(lines: seq<string>, i: nat): (k: nat)
    requires i <= |lines|
    ensures i <= k <= |lines|
    ensures k < |lines| ==> IsBlank(lines[k])
    ensures forall j :: i <= j < k ==> !IsBlank(lines[j])
    decreases |lines| - i
  {
    if i == |lines| || IsBlank(lines[i]) then i else BlankFrom(lines, i + 1)
  }

  /** The lines a loader reads: those after the header, up to but not including the first blank line. */
  function DataLines(lines: seq<string>): seq<string> {
    if lines == [] then [] else lines[1..BlankFrom(lines, 1)]
  }

  /** The field lists of those `rows` that tokenize to at least `arity` fields, in row order. */
  function Accepted(rows: seq<string>, arity: nat): (r: seq<seq<string>>)
    ensures |r| <= |rows|
    ensures forall k :: 0 <= k < |r| ==> |r[k]| >= arity
  {
    if rows == [] then []
    else
      var f := Tokenize(rows[|rows| - 1]);
      Accepted(rows[..|rows| - 1], arity) + (if |f| >= arity then [f] else [])
  }

  /** What a loader for a kind of the given arity builds its entities from. */
  function Records(lines: seq<string>, arity: nat): (r: seq<seq<string>>)
    ensures forall k :: 0 <= k < |r| ==> |r[k]| >= arity
  {
    Accepted(DataLines(lines), arity)
  }

  /** Every record is the field list of some data line and has at least `arity` fields. */
  lemma {:induction false} AcceptedFrom(rows: seq<string>, arity: nat)
    ensures forall f :: f in Accepted(rows, arity) ==>
      |f| >= arity && exists j :: 0 <= j < |rows| && f == Tokenize(rows[j])
  {
    if rows != [] {
      var p := rows[..|rows| - 1];
      AcceptedFrom(p, arity);
      forall f | f in Accepted(rows, arity)
        ensures |f| >= arity && exists j :: 0 <= j < |rows| && f == Tokenize(rows[j])
      {
        if f in Accepted(p, arity) {
          var j :| 0 <= j < |p| && f == Tokenize(p[j]);
          assert rows[j] == p[j];
        } else {
          assert f == Tokenize(rows[|rows| - 1]);
        }
      }
    }
  }

  /** Conversely, every data line with enough fields contributes its field list. */
  lemma {:induction false} AcceptedComplete(rows: seq<string>, arity: nat)
    ensures forall j :: 0 <= j < |rows| && |Tokenize(rows[j])| >= arity ==> Tokenize(rows[j]) in Accepted(rows, arity)
  {
    if rows != [] {
      var p := rows[..|rows| - 1];
      AcceptedComplete(p, arity);
      forall j | 0 <= j < |rows| && |Tokenize(rows[j])| >= arity
        ensures Tokenize(rows[j]) in Accepted(rows, arity)
      {
        if j < |p| {
          assert rows[j] == p[j];
        }
      }
    }
  }

  /** A row with too few fields adds nothing, a row with enough adds its field list at the end. */
  lemma AcceptedSnoc(rows: seq<string>, line: string, arity: nat)
    ensures Accepted(rows + [line], arity) ==
      Accepted(rows, arity) + (if |Tokenize(line)| >= arity then [Tokenize(line)] else [])
  {
    assert (rows + [line])[..|rows|] == rows;
  }

  /** The header is never decoded: any other first line gives the same records. */
  lemma HeaderIgnored(lines: seq<string>, header: string, arity: nat)
    requires lines != []
    ensures Records([header] + lines[1..], arity) == Records(lines, arity)
  {
    var other := [header] + lines[1..];
    assert forall j :: 1 <= j < |lines| ==> other[j] == lines[j];
    BlankFromAgrees(other, lines, 1);
    assert other[1..BlankFrom(other, 1)] == lines[1..BlankFrom(lines, 1)];
  }

  /** `BlankFrom` only looks at lines from `i` on. */
  lemma {:induction false} BlankFromAgrees(a: seq<string>, b: seq<string>, i: nat)
    requires i <= |a| == |b|
    requires forall j :: i <= j < |a| ==> a[j] == b[j]
    ensures BlankFrom(a, i) == BlankFrom(b, i)
    decreases |a| - i
  {
    if i < |a| && !IsBlank(a[i]) {
      BlankFromAgrees(a, b, i + 1);
    }
  }

  /** A blank line ends the load: nothing at or after it is read. */
  lemma StopsAtBlank(lines: seq<string>, k: nat, arity: nat)
    requires 1 <= k < |lines| && IsBlank(lines[k])
    ensures Records(lines, arity) == Records(lines[..k], arity)
  {
    var f := BlankFrom(lines, 1);
    assert f <= k;
    BlankFromPrefix(lines, k, 1);
    assert lines[..k][1..f] == lines[1..f];
  }

  /** Cutting the lines at or after their first blank one from `i` does not change where it is. */
  lemma {:induction false} BlankFromPrefix(lines: seq<string>, k: nat, i: nat)
    requires i <= k < |lines| && IsBlank(lines[k])
    ensures BlankFrom(lines, i) == BlankFrom(lines[..k], i)
    decreases k - i
  {
    if i < k && !IsBlank(lines[i]) {
      BlankFromPrefix(lines, k, i + 1);
    }
  }

  /** Lines are read in order: while no blank line has been met, a further line adds its
      field list at the end exactly when it is not blank and has enough fields. */
  lemma AppendLine(lines: seq<string>, line: string, arity: nat)
    requires lines != []
    requires forall j :: 1 <= j < |lines| ==> !IsBlank(lines[j])
    ensures Records(lines + [line], arity) ==
      Records(lines, arity) + (if !IsBlank(line) && |Tokenize(line)| >= arity then [Tokenize(line)] else [])
  {
    if IsBlank(line) {
      StopsAtBlank(lines + [line], |lines|, arity);
      assert (lines + [line])[..|lines|] == lines;
    } else {
      AppendDataLine(lines, line, arity);
    }
  }

  /** The non-blank case of `AppendLine`: the line is a data line, so it is filtered like any other. */
  lemma AppendDataLine(lines: seq<string>, line: string, arity: nat)
    requires lines != [] && !IsBlank(line)
    requires forall j :: 1 <= j < |lines| ==> !IsBlank(lines[j])
    ensures Records(lines + [line], arity) ==
      Records(lines, arity) + (if |Tokenize(line)| >= arity then [Tokenize(line)] else [])
  {
    var ext := lines + [line];
    NoBlankLine(lines);
    assert forall j :: 1 <= j < |ext| ==> !IsBlank(ext[j]);
    NoBlankLine(ext);
    assert ext[1..] == lines[1..] + [line];
    AcceptedSnoc(lines[1..], line, arity);
  }

  /** With no blank line after the header, every line after it is a data line. */
  lemma NoBlankLine(lines: seq<string>)
    requires lines != [] && forall j :: 1 <= j < |lines| ==> !IsBlank(lines[j])
    ensures DataLines(lines) == lines[1..]
  {
    BlankFromAll(lines, 1);
  }

  /** With no blank line from `i` on, `BlankFrom` runs to the end. */
  lemma {:induction false} BlankFromAll(lines: seq<string>, i: nat)
    requires i <= |lines|
    requires forall j :: i <= j < |lines| ==> !IsBlank(lines[j])
    ensures BlankFrom(lines, i) == |lines|
    decreases |lines| - i
  {
    if i < |lines| {
      BlankFromAll(lines, i + 1);
    }
  }

  /** One iteration of the read loop: a non-blank line moves the stopping point search on by one
      and extends the records read so far as `AcceptedSnoc` says. */
  lemma ReadOne(lines: seq<string>, i: nat, arity: nat)
    requires 1 <= i < |lines| && !IsBlank(lines[i])
    ensures BlankFrom(lines, i + 1) == BlankFrom(lines, i)
    ensures Accepted(lines[1..i + 1], arity) ==
      Accepted(lines[1..i], arity) + (if |Tokenize(lines[i])| >= arity then [Tokenize(lines[i])] else [])
  {
    assert lines[1..i + 1] == lines[1..i] + [lines[i]];
    AcceptedSnoc(lines[1..i], lines[i], arity);
  }

  /** The loader's loop: skip the header, tokenize lines until the end or the first blank line,
      and keep each field list that has at least `arity` fields. */
  method ReadRows(lines: seq<string>, arity: nat) returns (rows: seq<seq<string>>)
    ensures rows == Records(lines, arity)
  {
    rows := [];
    if lines == [] {
      return;
    }
    var i := 1;
    while i < |lines| && !IsBlank(lines[i])
      invariant 1 <= i <= |lines|
      invariant BlankFrom(lines, i) == BlankFrom(lines, 1)
      invariant rows == Accepted(lines[1..i], arity)
      decreases |lines| - i
    {
      var fields := ParseCsvLine(lines[i]);
      ReadOne(lines, i, arity);
      if |fields| >= arity {
        rows := rows + [fields];
      }
      i := i + 1;
    }
  }
}
