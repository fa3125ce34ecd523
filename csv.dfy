/** The quote-aware field tokenizer the data manager applies to every data line. */
module Csv {

  /** Java's `String.trim` strips every leading and trailing char whose code is at most U+0020. */
  predicate IsSpace(c: char) {
    c <= ' '
  }

  /** Every character of `s` in `[lo, hi)` is one that `trim` strips. */
  predicate SpacesBetween(s: string, lo: nat, hi: nat)
    requires lo <= hi <= |s|
  {
    forall k :: lo <= k < hi ==> IsSpace(s[k])
  }

  /** Neither end of `s` is a character that `trim` would strip. */
  predicate Trimmed(s: string) {
    s == [] || (!IsSpace(s[0]) && !IsSpace(s[|s| - 1]))
  }

  /** The first index at or after `i` that does not hold a space character, or `|s|`. */
  function SkipForward(s: string, i: nat): (k: nat)
    requires i <= |s|
    ensures i <= k <= |s| && SpacesBetween(s, i, k)
    ensures k < |s| ==> !IsSpace(s[k])
    decreases |s| - i
  {
    if i < |s| && IsSpace(s[i]) then SkipForward(s, i + 1) else i
  }

  /** The least index `k >= lo` such that `s[k..j]` holds only space characters. */
  function SkipBackward(s: string, lo: nat, j: nat): (k: nat)
    requires lo <= j <= |s|
    ensures lo <= k <= j && SpacesBetween(s, k, j)
    ensures k > lo ==> !IsSpace(s[k - 1])
    decreases j
  {
    if lo < j && IsSpace(s[j - 1]) then SkipBackward(s, lo, j - 1) else j
  }

  /** Java's `String.trim`: the slice of `s` left once both runs of space characters are cut off. */
  function Trim(s: string): (r: string)
    ensures Trimmed(r) && |r| <= |s|
  {
    var i := SkipForward(s, 0);
    var j := SkipBackward(s, i, |s|);
    s[i..j]
  }

  /** `Trim(s)` is a slice of `s`, and everything cut off on either side is a space character. */
  lemma TrimSlice(s: string)
    ensures exists i, j :: 0 <= i <= j <= |s| && Trim(s) == s[i..j] && SpacesBetween(s, 0, i) && SpacesBetween(s, j, |s|)
  {
    var i := SkipForward(s, 0);
    var j := SkipBackward(s, i, |s|);
    assert Trim(s) == s[i..j] && SpacesBetween(s, 0, i) && SpacesBetween(s, j, |s|);
  }

  /** Every character of `Trim(s)` occurs in `s`. */
  lemma TrimWithin(s: string)
    ensures forall c :: c in Trim(s) ==> c in s
  {
    var i := SkipForward(s, 0);
    var j := SkipBackward(s, i, |s|);
    var t := s[i..j];
    assert Trim(s) == t;
    forall c | c in t ensures c in s {
      var k :| 0 <= k < |t| && t[k] == c;
      assert s[i + k] == c;
    }
  }

  /** `trim` is determined by its specification: cutting space runs off a trimmed core gives the core. */
  lemma TrimSurrounded(a: string, t: string, b: string)
    requires SpacesBetween(a, 0, |a|) && SpacesBetween(b, 0, |b|) && Trimmed(t)
    ensures Trim(a + t + b) == t
  {
    var s := a + t + b;
    var i := SkipForward(s, 0);
    var j := SkipBackward(s, i, |s|);
    if t == [] {
      assert s == a + b;
      assert SpacesBetween(s, 0, |s|);
      assert i == |s|;
    } else {
      assert s[|a|] == t[0];
      assert s[|a| + |t| - 1] == t[|t| - 1];
      assert i == |a|;
      assert j == |a| + |t|;
      assert s[i..j] == t;
    }
  }

  /** `trim` leaves a trimmed string alone, so trimming twice is trimming once. */
  lemma TrimIdempotent(s: string)
    ensures Trimmed(s) ==> Trim(s) == s
    ensures Trim(Trim(s)) == Trim(s)
  {
    if Trimmed(s) {
      TrimSurrounded([], s, []);
      assert [] + s + [] == s;
    }
    var r := Trim(s);
    TrimSurrounded([], r, []);
    assert [] + r + [] == r;
  }

  /** The tokenizer's variables after some prefix of the line: the finished fields,
      the text accumulated for the current field, and the quote flag. */
  datatype ScanState = ScanState(done: seq<string>, current: string, inQuotes: bool)

  /** One character of the scan: a quote toggles the flag and is dropped, a comma outside
      quotes closes the current field (trimmed), anything else is accumulated. */
  function Step(st: ScanState, c: char): ScanState {
    if c == '"' then
      st.(inQuotes := !st.inQuotes)
    else if c == ',' && !st.inQuotes then
      ScanState(st.done + [Trim(st.current)], "", st.inQuotes)
    else
      st.(current := st.current + [c])
  }

  /** The state after scanning all of `s`, starting outside quotes with nothing accumulated. */
  function Scan(s: string): ScanState {
    if s == [] then ScanState([], "", false) else Step(Scan(s[..|s| - 1]), s[|s| - 1])
  }

  /** The fields of `line`: the finished fields, then the trimmed remainder. */
  function Tokenize(line: string): seq<string> {
    Scan(line).done + [Trim(Scan(line).current)]
  }

  /** Number of quote characters in `s`. */
  function Quotes(s: string): nat {
    if s == [] then 0 else Quotes(s[..|s| - 1]) + (if s[|s| - 1] == '"' then 1 else 0)
  }

  /** Number of commas in `s` preceded by an even number of quote characters: the delimiters. */
  function Delimiters(s: string): nat {
    if s == [] then 0
    else
      var p := s[..|s| - 1];
      Delimiters(p) + (if s[|s| - 1] == ',' && Quotes(p) % 2 == 0 then 1 else 0)
  }

  /** What holds of the scanner after any prefix: the flag is the parity of the quotes read,
      one field has been finished per delimiter, and no field or partial field holds a quote. */
  lemma {:induction false} ScanInvariant(s: string)
    ensures Scan(s).inQuotes <==> Quotes(s) % 2 == 1
    ensures |Scan(s).done| == Delimiters(s)
    ensures '"' !in Scan(s).current
    ensures forall f :: f in Scan(s).done ==> '"' !in f && Trimmed(f)
  {
    if s != [] {
      var p, c := s[..|s| - 1], s[|s| - 1];
      ScanInvariant(p);
      var st := Scan(p);
      assert Scan(s) == Step(st, c);
      if c == '"' {
      } else if c == ',' && !st.inQuotes {
        TrimWithin(st.current);
        var t := Trim(st.current);
        assert '"' !in t && Trimmed(t);
        assert Scan(s).done == st.done + [t];
      } else {
        assert Scan(s).current == st.current + [c];
      }
    }
  }

  /** A line yields exactly one field more than it has delimiters; in particular at least one. */
  lemma FieldCount(line: string)
    ensures |Tokenize(line)| == Delimiters(line) + 1
  {
    ScanInvariant(line);
  }

  /** Quote characters never reach a field: they only toggle the flag. */
  lemma FieldsHaveNoQuotes(line: string)
    ensures forall f :: f in Tokenize(line) ==> '"' !in f
  {
    ScanInvariant(line);
    TrimWithin(Scan(line).current);
  }

  /** Every field is trimmed at both ends. */
  lemma FieldsTrimmed(line: string)
    ensures forall f :: f in Tokenize(line) ==> Trimmed(f)
  {
    ScanInvariant(line);
  }

  /** Once a quote is left open, the rest of the line (if it holds no further quote)
      goes into the current field, commas included: no further field is started. */
  lemma {:induction false} UnmatchedQuoteScan(p: string, q: string)
    requires Scan(p).inQuotes
    requires '"' !in q
    ensures Scan(p + q) == Scan(p).(current := Scan(p).current + q)
    decreases |q|
  {
    if q == [] {
      assert p + q == p;
    } else {
      var q' := q[..|q| - 1];
      assert (p + q)[..|p + q| - 1] == p + q';
      UnmatchedQuoteScan(p, q');
      assert Scan(p).current + q' + [q[|q| - 1]] == Scan(p).current + q;
    }
  }

  /** After an unmatched quote the field count stops growing and the last field takes
      the whole rest of the line. */
  lemma UnmatchedQuote(p: string, q: string)
    requires Quotes(p) % 2 == 1
    requires '"' !in q
    ensures |Tokenize(p + q)| == |Tokenize(p)|
    ensures Tokenize(p + q)[..|Tokenize(p)| - 1] == Tokenize(p)[..|Tokenize(p)| - 1]
    ensures Tokenize(p + q)[|Tokenize(p)| - 1] == Trim(Scan(p).current + q)
  {
    ScanInvariant(p);
    UnmatchedQuoteScan(p, q);
  }

  /** Scanning text with neither a comma nor a quote only accumulates it. */
  lemma {:induction false} PlainScan(s: string)
    requires forall k :: 0 <= k < |s| ==> s[k] != ',' && s[k] != '"'
    ensures Scan(s) == ScanState([], s, false)
  {
    if s != [] {
      var p, c := s[..|s| - 1], s[|s| - 1];
      PlainScan(p);
      assert Scan(s) == Step(ScanState([], p, false), c);
      assert p + [c] == s;
    }
  }

  /** A line with neither a comma nor a quote is one field: the trimmed line. */
  lemma PlainLine(line: string)
    requires ',' !in line && '"' !in line
    ensures Tokenize(line) == [Trim(line)]
  {
    PlainScan(line);
  }

  /** `parseCSVLine`: a single left-to-right scan with a quote flag and an accumulator. */
  method ParseCsvLine(line: string) returns (fields: seq<string>)
    ensures fields == Tokenize(line)
  {
    fields := [];
    var inQuotes := false;
    var current := "";
    for i := 0 to |line|
      invariant Scan(line[..i]) == ScanState(fields, current, inQuotes)
    {
      var c := line[i];
      if c == '"' {
        inQuotes := !inQuotes;
      } else if c == ',' && !inQuotes {
        fields := fields + [Trim(current)];
        current := "";
      } else {
        current := current + [c];
      }
      assert line[..i + 1][..i] == line[..i];
    }
    assert line[..|line|] == line;
    fields := fields + [Trim(current)];
  }
}
