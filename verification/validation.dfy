/** The validation comparator: reads a simulation-results file and a
    reference file (two skipped lines, a delimited header line, then one
    data row per line), checks that both have the same shape and the same
    time column, and computes per-column difference norms.

    A file is the sequence of its lines and whether its text ends in a
    newline.  Converting the text of a row to
    numbers is the parameter `extract`, which yields the values read from
    the start of the line until the first one that cannot be read; the
    square root is the parameter `sqrt`. */
module Validation {
  import opened Geometry

  // ---------------------------------------------------------------------
  // Splitting a line into delimited fields
  // ---------------------------------------------------------------------

  /** The length of the first field of `s`: the index of the first
      delimiter, or |s| when there is none. */
  function FieldEnd(s: string, delim: char): (i: nat)
    ensures i <= |s|
    ensures forall j :: 0 <= j < i ==> s[j] != delim
    ensures i < |s| ==> s[i] == delim
    decreases |s|
  {
    if s == [] || s[0] == delim then 0 else 1 + FieldEnd(s[1..], delim)
  }

  /** The fields that repeated delimited `getline` calls extract from a
      line: a field ends at a delimiter (which is consumed) or at the end
      of the line, and an exhausted line yields no further field, so an
      empty line has no fields and a trailing delimiter adds no empty
      field. */
  function SplitFields(s: string, delim: char): (fields: seq<string>)
    ensures forall k :: 0 <= k < |fields| ==> delim !in fields[k]
    ensures s != [] ==> |fields| >= 1
    decreases |s|
  {
    if s == [] then []
    else
      var i := FieldEnd(s, delim);
      assert delim !in s[..i];
      if i < |s| then [s[..i]] + SplitFields(s[i + 1..], delim) else [s]
  }

  /** Fields joined with the delimiter between them. */
  function Join(fields: seq<string>, delim: char): string
  {
    if |fields| == 0 then []
    else if |fields| == 1 then fields[0]
    else fields[0] + [delim] + Join(fields[1..], delim)
  }

  /** Any index meeting the characterisation of FieldEnd is FieldEnd; with
      it, one step of the splitting loop. */
  lemma SplitStep(s: string, delim: char, k: nat)
    requires s != [] && k <= |s|
    requires forall j :: 0 <= j < k ==> s[j] != delim
    requires k < |s| ==> s[k] == delim
    ensures SplitFields(s, delim) == [s[..k]] + (if k < |s| then SplitFields(s[k + 1..], delim) else [])
  {
    var i := FieldEnd(s, delim);
    assert i == k;
    if k == |s| {
      assert s[..k] == s;
    }
  }

  /** Splitting, then joining gives back the line, unless the line ends in
      a delimiter (which the splitting drops). */
  lemma {:induction false} JoinSplit(s: string, delim: char)
    requires s == [] || s[|s| - 1] != delim
    ensures Join(SplitFields(s, delim), delim) == s
    decreases |s|
  {
    if s != [] {
      var i := FieldEnd(s, delim);
      if i < |s| {
        var rest := s[i + 1..];
        assert rest != [];
        assert rest[|rest| - 1] == s[|s| - 1];
        JoinSplit(rest, delim);
        var fs := SplitFields(rest, delim);
        assert SplitFields(s, delim) == [s[..i]] + fs;
        assert ([s[..i]] + fs)[1..] == fs;
        assert s == s[..i] + [delim] + rest;
      } else {
        assert s[..i] == s;
      }
    }
  }

  /** Joining fields that contain no delimiter, then splitting, gives back
      the fields, provided the last one is not empty. */
  lemma {:induction false} SplitJoin(fields: seq<string>, delim: char)
    requires |fields| >= 1 && fields[|fields| - 1] != []
    requires forall k :: 0 <= k < |fields| ==> delim !in fields[k]
    ensures SplitFields(Join(fields, delim), delim) == fields
    decreases |fields|
  {
    var s := Join(fields, delim);
    var f := fields[0];
    if |fields| == 1 {
      SplitStep(s, delim, |f|);
    } else {
      var rest := fields[1..];
      assert rest[|rest| - 1] == fields[|fields| - 1];
      SplitJoin(rest, delim);
      assert s == f + [delim] + Join(rest, delim);
      assert forall j :: 0 <= j < |f| ==> s[j] == f[j];
      assert forall j :: 0 <= j < |f| ==> s[j] != delim by {
        forall j | 0 <= j < |f|
          ensures s[j] != delim
        {
          assert f[j] in f;
        }
      }
      SplitStep(s, delim, |f|);
      assert s[..|f|] == f;
      assert s[|f| + 1..] == Join(rest, delim);
    }
  }

  // ---------------------------------------------------------------------
  // Reading a data file
  // ---------------------------------------------------------------------

  /** A text file: its lines (without their newline characters), and
      whether the text ends in a newline.  A file whose text ends in a
      newline has no further, empty line after it. */
  datatype TextFile = TextFile(lines: seq<string>, endsWithNewline: bool)

  /** The string the header read leaves behind: the third line when there
      is one.  In a shorter file the third read fails; a read that fails
      because the previous one already hit the end of the text does not
      clear the string, so an unterminated last line stays and is read as
      the header.  Otherwise the failed read has cleared it. */
  function HeaderLine(file: TextFile): (h: string)
    ensures |file.lines| >= 3 ==> h == file.lines[2]
    ensures |file.lines| < 3 && (file.lines == [] || file.endsWithNewline) ==> h == []
    ensures 0 < |file.lines| < 3 && !file.endsWithNewline ==> h == file.lines[|file.lines| - 1]
  {
    var n := |file.lines|;
    if n >= 3 then file.lines[2]
    else if n > 0 && !file.endsWithNewline then file.lines[n - 1]
    else []
  }

  /** The data rows are every line after the header line. */
  function DataLines(file: TextFile): (d: seq<string>)
    ensures |file.lines| >= 3 ==> d == file.lines[3..]
    ensures |file.lines| < 3 ==> d == []
  {
    if |file.lines| >= 3 then file.lines[3..] else []
  }

  /** A one-line file: without a final newline its only line is the
      header, with one field when the line holds no delimiter; with a final
      newline the header is empty.  Either way there are no data rows. */
  lemma OneLineFileHeader(line: string, delim: char)
    requires line != [] && delim !in line
    ensures SplitFields(HeaderLine(TextFile([line], false)), delim) == [line]
    ensures SplitFields(HeaderLine(TextFile([line], true)), delim) == []
    ensures DataLines(TextFile([line], false)) == [] && DataLines(TextFile([line], true)) == []
  {
    SplitJoin([line], delim);
  }

  /** The value a row supplies for a column: what was read there, or 0 (the
      value a failed read leaves in the freshly zeroed cell). */
  function Cell(values: seq<real>, col: nat): real
  {
    if col < |values| then values[col] else 0.0
  }

  /** `data` is the column-major grid read from `dataLines`: `numCols`
      columns of `numDataPoints` entries each; row r of column c holds the
      c-th value of data line r, and rows past the last data line stay 0. */
  ghost predicate GridOf(data: seq<seq<real>>, dataLines: seq<string>, numCols: nat, numDataPoints: nat,
                         extract: string -> seq<real>)
  {
    |data| == numCols
    && (forall c :: 0 <= c < numCols ==> |data[c]| == numDataPoints)
    && forall c, r {:trigger data[c][r]} :: 0 <= c < numCols && 0 <= r < numDataPoints ==>
         data[c][r] == (if r < |dataLines| then Cell(extract(dataLines[r]), c) else 0.0)
  }

  /** A grid is determined by its lines and shape. */
  lemma GridOfUnique(a: seq<seq<real>>, b: seq<seq<real>>, dataLines: seq<string>, numCols: nat,
                     numDataPoints: nat, extract: string -> seq<real>)
    requires GridOf(a, dataLines, numCols, numDataPoints, extract)
    requires GridOf(b, dataLines, numCols, numDataPoints, extract)
    ensures a == b
  {
    forall c | 0 <= c < numCols
      ensures a[c] == b[c]
    {
      assert forall r :: 0 <= r < numDataPoints ==> a[c][r] == b[c][r];
    }
  }

  /** Reads one file: skips two lines, appends the fields of the header
      line to `headersIn` (earlier headers are kept), makes one zeroed
      column of `numDataPoints` entries per header, fills row r from data
      line r and returns the number of data lines.  Every column is
      resized, which for a numeric array discards its contents, so the
      previous data plays no part.  The caller must leave room for every
      data line. */
  method ReadDataFile(file: TextFile, delim: char, numDataPoints: nat, extract: string -> seq<real>,
                      headersIn: seq<string>)
    returns (rows: nat, headers: seq<string>, data: seq<seq<real>>)
    requires |DataLines(file)| <= numDataPoints
    ensures headers == headersIn + SplitFields(HeaderLine(file), delim)
    ensures rows == |DataLines(file)|
    ensures GridOf(data, DataLines(file), |headers|, numDataPoints, extract)
  {
    headers := ReadHeaders(HeaderLine(file), delim, headersIn);
    var numCols := |headers|;

    // One zeroed column per header.
    data := seq(numCols, _ => seq(numDataPoints, _ => 0.0));

    // The data rows.
    var dataLines := DataLines(file);
    rows := 0;
    while rows < |dataLines|
      invariant rows <= |dataLines|
      invariant |data| == numCols
      invariant forall c :: 0 <= c < numCols ==> |data[c]| == numDataPoints
      invariant forall c, r {:trigger data[c][r]} :: 0 <= c < numCols && 0 <= r < numDataPoints ==>
                  data[c][r] == (if r < rows then Cell(extract(dataLines[r]), c) else 0.0)
    {
      data := ReadRow(data, numDataPoints, rows, extract(dataLines[rows]));
      rows := rows + 1;
    }
  }

  /** The header-reading loop: appends the fields of `line` to `headersIn`,
      one per delimited read. */
  method ReadHeaders(line: string, delim: char, headersIn: seq<string>) returns (headers: seq<string>)
    ensures headers == headersIn + SplitFields(line, delim)
  {
    headers := headersIn;
    var pos := 0;
    ghost var todo := SplitFields(line, delim);
    assert line[pos..] == line;
    while pos < |line|
      invariant 0 <= pos <= |line|
      invariant todo == SplitFields(line[pos..], delim)
      invariant headers + todo == headersIn + SplitFields(line, delim)
      decreases |line| - pos
    {
      var end := ScanField(line, delim, pos);
      var next := if end < |line| then end + 1 else end;
      ScanStep(line, delim, pos, end, next);
      assert headers + todo == (headers + [line[pos..end]]) + todo[1..];
      headers := headers + [line[pos..end]];
      todo := todo[1..];
      pos := next;
    }
  }

  /** The position of the first delimiter at or after `pos`, or the end of
      the line when there is none. */
  method ScanField(line: string, delim: char, pos: nat) returns (end: nat)
    requires pos <= |line|
    ensures pos <= end <= |line|
    ensures forall j :: pos <= j < end ==> line[j] != delim
    ensures end < |line| ==> line[end] == delim
  {
    end := pos;
    while end < |line| && line[end] != delim
      invariant pos <= end <= |line|
      invariant forall j :: pos <= j < end ==> line[j] != delim
    {
      end := end + 1;
    }
  }

  /** One pass of the header loop, stated on positions in the line: the
      field from `pos` ends at `end`, and reading resumes at `next`. */
  lemma ScanStep(line: string, delim: char, pos: nat, end: nat, next: nat)
    requires pos < |line| && pos <= end <= |line|
    requires forall j :: pos <= j < end ==> line[j] != delim
    requires end < |line| ==> line[end] == delim
    requires next == if end < |line| then end + 1 else end
    ensures SplitFields(line[pos..], delim) == [line[pos..end]] + SplitFields(line[next..], delim)
  {
    var rest := line[pos..];
    SplitStep(rest, delim, end - pos);
    assert rest[..end - pos] == line[pos..end];
    if end < |line| {
      assert rest[end - pos + 1..] == line[next..];
    } else {
      assert line[next..] == [];
    }
  }

  /** The row-reading loop: column by column, stores the value read for
      that column at `row`; a column with no value read keeps its cell. */
  method ReadRow(data: seq<seq<real>>, numDataPoints: nat, row: nat, values: seq<real>) returns (filled: seq<seq<real>>)
    requires row < numDataPoints
    requires forall c :: 0 <= c < |data| ==> |data[c]| == numDataPoints
    ensures |filled| == |data|
    ensures forall c :: 0 <= c < |data| ==> |filled[c]| == numDataPoints
    ensures forall c, r {:trigger filled[c][r]} :: 0 <= c < |data| && 0 <= r < numDataPoints ==>
              filled[c][r] == (if r == row && c < |values| then values[c] else data[c][r])
  {
    filled := data;
    var col := 0;
    while col < |data|
      invariant col <= |data|
      invariant |filled| == |data|
      invariant forall c :: 0 <= c < |data| ==> |filled[c]| == numDataPoints
      invariant forall c, r {:trigger filled[c][r]} :: 0 <= c < |data| && 0 <= r < numDataPoints ==>
                  filled[c][r] == (if r == row && c < col && c < |values| then values[c] else data[c][r])
    {
      if col < |values| {
        filled := filled[col := filled[col][row := values[col]]];
      }
      col := col + 1;
    }
  }

  // ---------------------------------------------------------------------
  // Norms
  // ---------------------------------------------------------------------

  /** Element-wise difference of two vectors of equal length. */
  function Diff(a: seq<real>, b: seq<real>): (d: seq<real>)
    requires |a| == |b|
    ensures |d| == |a|
    ensures forall i :: 0 <= i < |d| ==> d[i] == a[i] - b[i]
  {
    seq(|a|, i requires 0 <= i < |a| => a[i] - b[i])
  }

  /** The sum of the squares of the entries; never negative. */
  function SumSquares(v: seq<real>): (s: real)
    ensures s >= 0.0
  {
    if |v| == 0 then 0.0 else v[0] * v[0] + SumSquares(v[1..])
  }

  /** The zero vector has a zero sum of squares. */
  lemma {:induction false} SumSquaresOfZero(v: seq<real>)
    requires forall i :: 0 <= i < |v| ==> v[i] == 0.0
    ensures SumSquares(v) == 0.0
  {
    if |v| > 0 {
      assert forall i :: 0 <= i < |v[1..]| ==> v[1..][i] == v[i + 1];
      SumSquaresOfZero(v[1..]);
    }
  }

  /** The sum of squares vanishes whenever every entry does. */
  lemma SumSquaresZeroWhenZero(v: seq<real>)
    ensures (forall i :: 0 <= i < |v| ==> v[i] == 0.0) ==> SumSquares(v) == 0.0
  {
    if forall i :: 0 <= i < |v| ==> v[i] == 0.0 {
      SumSquaresOfZero(v);
    }
  }

  /** The L2 norm: the square root of the sum of squares, which is the root
      of zero for the zero vector. */
  function L2Norm(v: seq<real>, sqrt: real -> real): (r: real)
    ensures (forall i :: 0 <= i < |v| ==> v[i] == 0.0) ==> r == sqrt(0.0)
  {
    SumSquaresZeroWhenZero(v);
    sqrt(SumSquares(v))
  }

  /** The root-mean-square norm: the L2 norm with the sum of squares divided
      by the length first, so it agrees with the L2 norm on a single entry
      and is the root of zero for the zero vector. */
  function RMSNorm(v: seq<real>, sqrt: real -> real): (r: real)
    requires |v| > 0
    ensures (forall i :: 0 <= i < |v| ==> v[i] == 0.0) ==> r == sqrt(0.0)
    ensures |v| == 1 ==> r == L2Norm(v, sqrt)
  {
    SumSquaresZeroWhenZero(v);
    sqrt(SumSquares(v) / (|v| as real))
  }

  /** The largest absolute entry of a non-empty vector: it bounds every
      entry and is attained by one of them. */
  function InfNorm(v: seq<real>): (m: real)
    requires |v| >= 1
    ensures forall i :: 0 <= i < |v| ==> Abs(v[i]) <= m
    ensures exists i :: 0 <= i < |v| && m == Abs(v[i])
  {
    if |v| == 1 then Abs(v[0])
    else
      var rest := InfNorm(v[1..]);
      assert forall i :: 1 <= i < |v| ==> v[i] == v[1..][i - 1];
      if Abs(v[0]) >= rest then Abs(v[0]) else rest
  }

  /** The INF norm of a difference is zero exactly when the two columns are
      identical. */
  lemma InfNormZeroIff(a: seq<real>, b: seq<real>)
    requires |a| == |b| >= 1
    ensures InfNorm(Diff(a, b)) == 0.0 <==> a == b
  {
    var d := Diff(a, b);
    if InfNorm(d) == 0.0 {
      assert forall i :: 0 <= i < |a| ==> Abs(d[i]) <= 0.0;
      assert forall i :: 0 <= i < |a| ==> a[i] == b[i];
    }
  }

  /** `l2`, `rms` and `inf` hold, at index c, the three norms of data
      column c + 1 of `sim` minus the same column of `ref`: every column
      but the first (time). */
  ghost predicate NormsOf(l2: seq<real>, rms: seq<real>, inf: seq<real>,
                          sim: seq<seq<real>>, ref: seq<seq<real>>, sqrt: real -> real)
  {
    |sim| == |ref| >= 1 && |l2| == |sim| - 1 && |rms| == |sim| - 1 && |inf| == |sim| - 1
    && forall c :: 0 <= c < |sim| - 1 ==>
         |sim[c + 1]| == |ref[c + 1]| >= 1
         && l2[c] == L2Norm(Diff(sim[c + 1], ref[c + 1]), sqrt)
         && rms[c] == RMSNorm(Diff(sim[c + 1], ref[c + 1]), sqrt)
         && inf[c] == InfNorm(Diff(sim[c + 1], ref[c + 1]))
  }

  /** The norms loop: one entry per column after the time column. */
  method DiffNorms(sim: seq<seq<real>>, ref: seq<seq<real>>, numDataPoints: nat, sqrt: real -> real)
    returns (l2: seq<real>, rms: seq<real>, inf: seq<real>)
    requires |sim| == |ref| >= 1 && (|sim| >= 2 ==> numDataPoints >= 1)
    requires forall c :: 0 <= c < |sim| ==> |sim[c]| == numDataPoints && |ref[c]| == numDataPoints
    ensures NormsOf(l2, rms, inf, sim, ref, sqrt)
  {
    var numCols := |sim|;
    l2 := seq(numCols - 1, _ => 0.0);
    rms := seq(numCols - 1, _ => 0.0);
    inf := seq(numCols - 1, _ => 0.0);
    var col := 0;
    while col < numCols - 1
      invariant col <= numCols - 1
      invariant |l2| == |rms| == |inf| == numCols - 1
      invariant forall c :: 0 <= c < col ==>
                  l2[c] == L2Norm(Diff(sim[c + 1], ref[c + 1]), sqrt)
                  && rms[c] == RMSNorm(Diff(sim[c + 1], ref[c + 1]), sqrt)
                  && inf[c] == InfNorm(Diff(sim[c + 1], ref[c + 1]))
    {
      var d := Diff(sim[col + 1], ref[col + 1]);
      l2 := l2[col := L2Norm(d, sqrt)];
      rms := rms[col := RMSNorm(d, sqrt)];
      inf := inf[col := InfNorm(d)];
      col := col + 1;
    }
  }

  // ---------------------------------------------------------------------
  // The comparator
  // ---------------------------------------------------------------------

  class ChValidation {
    var simHeaders: seq<string>
    var refHeaders: seq<string>
    var simData: seq<seq<real>>
    var refData: seq<seq<real>>
    var numRows: nat
    var numCols: nat
    var l2Norms: seq<real>
    var rmsNorms: seq<real>
    var infNorms: seq<real>

    /** The three norm arrays have one entry per compared column, and the
        INF entries are never negative. */
    predicate Valid()
      reads this
    {
      |l2Norms| == |rmsNorms| == |infNorms|
      && forall c :: 0 <= c < |infNorms| ==> infNorms[c] >= 0.0
    }

    constructor ()
      ensures Valid()
      ensures simHeaders == [] && refHeaders == [] && simData == [] && refData == []
      ensures l2Norms == [] && rmsNorms == [] && infNorms == []
    {
      simHeaders, refHeaders, simData, refData := [], [], [], [];
      numRows, numCols := 0, 0;
      l2Norms, rmsNorms, infNorms := [], [], [];
    }

    /** Reads both files, then fails if the column counts differ, else if
        the row counts differ, else if the time columns (column 0) differ
        by an L2 norm above 1e-10.  Otherwise it stores, for every other
        column c + 1, the L2, RMS and INF norms of simulation minus
        reference at index c, and succeeds.  The header lists of both files
        grow on every call.  The time column requires at least one column
        once both checks pass, and the RMS divisor at least one data point
        when there is a column besides time. */
    method Process(simFile: TextFile, refFile: TextFile, numDataPoints: nat, delim: char,
                   extract: string -> seq<real>, sqrt: real -> real) returns (ok: bool)
      requires Valid()
      requires |DataLines(simFile)| <= numDataPoints && |DataLines(refFile)| <= numDataPoints
      requires |simHeaders| + |SplitFields(HeaderLine(simFile), delim)| == |refHeaders| + |SplitFields(HeaderLine(refFile), delim)|
               && |DataLines(simFile)| == |DataLines(refFile)|
               ==> |simHeaders| + |SplitFields(HeaderLine(simFile), delim)| >= 1
                   && (|simHeaders| + |SplitFields(HeaderLine(simFile), delim)| >= 2 ==> numDataPoints >= 1)
      modifies this
      ensures Valid()
      ensures simHeaders == old(simHeaders) + SplitFields(HeaderLine(simFile), delim)
      ensures refHeaders == old(refHeaders) + SplitFields(HeaderLine(refFile), delim)
      ensures numCols == |simHeaders| && numRows == |DataLines(simFile)|
      ensures GridOf(simData, DataLines(simFile), numCols, numDataPoints, extract)
      ensures GridOf(refData, DataLines(refFile), |refHeaders|, numDataPoints, extract)
      ensures ok <==> numCols == |refHeaders| && numRows == |DataLines(refFile)|
                      && L2Norm(Diff(simData[0], refData[0]), sqrt) <= 1e-10
      ensures ok ==> NormsOf(l2Norms, rmsNorms, infNorms, simData, refData, sqrt)
      ensures !ok ==> l2Norms == old(l2Norms) && rmsNorms == old(rmsNorms) && infNorms == old(infNorms)
    {
      LoadFiles(simFile, refFile, numDataPoints, delim, extract);

      if numCols != |refHeaders| {
        return false;
      }
      if numRows != |DataLines(refFile)| {
        return false;
      }
      if L2Norm(Diff(simData[0], refData[0]), sqrt) > 1e-10 {
        return false;
      }

      l2Norms, rmsNorms, infNorms := DiffNorms(simData, refData, numDataPoints, sqrt);
      ok := true;
    }

    /** Reads the simulation file, then the reference file, into the
        header lists and data grids; the norms are left alone. */
    method LoadFiles(simFile: TextFile, refFile: TextFile, numDataPoints: nat, delim: char,
                     extract: string -> seq<real>)
      requires |DataLines(simFile)| <= numDataPoints && |DataLines(refFile)| <= numDataPoints
      modifies this
      ensures simHeaders == old(simHeaders) + SplitFields(HeaderLine(simFile), delim)
      ensures refHeaders == old(refHeaders) + SplitFields(HeaderLine(refFile), delim)
      ensures numCols == |simHeaders| && numRows == |DataLines(simFile)|
      ensures GridOf(simData, DataLines(simFile), numCols, numDataPoints, extract)
      ensures GridOf(refData, DataLines(refFile), |refHeaders|, numDataPoints, extract)
      ensures l2Norms == old(l2Norms) && rmsNorms == old(rmsNorms) && infNorms == old(infNorms)
    {
      var rows, headers, data := ReadDataFile(simFile, delim, numDataPoints, extract, simHeaders);
      simHeaders, simData, numRows := headers, data, rows;
      numCols := |simHeaders|;
      var refRows, refH, refD := ReadDataFile(refFile, delim, numDataPoints, extract, refHeaders);
      refHeaders, refData := refH, refD;
    }

    /** The three stored norms for compared column `col` (data column
        col + 1), unchanged; the INF entry is never negative. */
    function GetDiffMetrics(col: nat): (m: (real, real, real))
      reads this
      requires Valid() && col < |l2Norms|
      ensures m == (l2Norms[col], rmsNorms[col], infNorms[col])
      ensures m.2 >= 0.0
    {
      (l2Norms[col], rmsNorms[col], infNorms[col])
    }
  }

  /** Comparing a file with itself passes every check and reports zero INF
      difference for every column, provided the file has a header and the
      square root maps 0 to 0. */
  method CompareWithItself(file: TextFile, numDataPoints: nat, delim: char,
                           extract: string -> seq<real>, sqrt: real -> real)
    returns (ok: bool, infNorms: seq<real>)
    requires 1 <= numDataPoints && |DataLines(file)| <= numDataPoints
    requires SplitFields(HeaderLine(file), delim) != []
    requires sqrt(0.0) == 0.0
    ensures ok
    ensures |infNorms| == |SplitFields(HeaderLine(file), delim)| - 1
    ensures forall c :: 0 <= c < |infNorms| ==> infNorms[c] == 0.0
  {
    var v := new ChValidation();
    ok := v.Process(file, file, numDataPoints, delim, extract, sqrt);
    GridOfUnique(v.simData, v.refData, DataLines(file), v.numCols, numDataPoints, extract);
    var d0 := Diff(v.simData[0], v.refData[0]);
    SumSquaresOfZero(d0);
    assert ok;
    infNorms := v.infNorms;
    forall c | 0 <= c < |infNorms|
      ensures infNorms[c] == 0.0
    {
      InfNormZeroIff(v.simData[c + 1], v.refData[c + 1]);
    }
  }
}
