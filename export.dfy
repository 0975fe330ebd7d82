/** The table layout and the naming rule of `Results.to_csv`: one table per run, its header
    the run's keys in insertion order, one row per `time` entry; the tables go to
    `<identifier><i>.csv` inside the directory `<identifier><stamp>`. */
module CsvExport {
  import opened Trajectories
  import opened EnsembleValidator
  import opened Ensembles

  // ---- `str(i)` for a run index ----

  predicate IsDigits(s: string) {
    forall i :: 0 <= i < |s| ==> '0' <= s[i] <= '9'
  }

  function DigitChar(d: nat): (c: char)
    requires d < 10
    ensures '0' <= c <= '9' && c as int - '0' as int == d
  {
    "0123456789"[d]
  }

  /** Python's `str` of a non-negative integer: its decimal digits, without leading zeros. */
  function NatToString(n: nat): (s: string)
    ensures |s| > 0 && IsDigits(s)
    ensures s[0] == '0' ==> n == 0 && s == "0"
    decreases n
  {
    if n < 10 then [DigitChar(n)] else NatToString(n / 10) + [DigitChar(n % 10)]
  }

  /** The value a string of decimal digits denotes. */
  function ParseNat(s: string): nat
    requires IsDigits(s)
  {
    if |s| == 0 then 0 else ParseNat(s[..|s| - 1]) * 10 + (s[|s| - 1] as int - '0' as int)
  }

  lemma {:induction false} ParseNatToString(n: nat)
    ensures ParseNat(NatToString(n)) == n
    decreases n
  {
    var s := NatToString(n);
    if n >= 10 {
      assert s[..|s| - 1] == NatToString(n / 10);
      ParseNatToString(n / 10);
    }
  }

  /** Distinct run indices give distinct strings. */
  lemma NatToStringInjective(i: nat, j: nat)
    requires NatToString(i) == NatToString(j)
    ensures i == j
  {
    ParseNatToString(i);
    ParseNatToString(j);
  }

  // ---- file naming ----

  /** `os.path.join(a, b)` on POSIX: an absolute `b` replaces `a`; otherwise one `/` is put
      between them unless `a` is empty or already ends with one. */
  function PathJoin(a: string, b: string): (p: string)
    ensures |b| > 0 && b[0] == '/' ==> p == b
    ensures !(|b| > 0 && b[0] == '/') && (|a| == 0 || a[|a| - 1] == '/') ==> p == a + b
    ensures !(|b| > 0 && b[0] == '/') && |a| > 0 && a[|a| - 1] != '/' ==> p == a + "/" + b
  {
    if |b| > 0 && b[0] == '/' then b
    else if |a| == 0 || a[|a| - 1] == '/' then a + b
    else a + "/" + b
  }

  /** The output directory: `<identifier><stamp>` under `path`, or under `.` without one. */
  function DirectoryName(path: Option<string>, identifier: string, stamp: string): string {
    PathJoin(if path.Some? then path.value else ".", identifier + stamp)
  }

  /** The table of run `i`: `<identifier><i>.csv` inside the output directory. */
  function FileName(directory: string, identifier: string, i: nat): string {
    PathJoin(directory, identifier + NatToString(i) + ".csv")
  }

  lemma JoinCancel(a: string, b1: string, b2: string)
    requires (|b1| > 0 && b1[0] == '/') == (|b2| > 0 && b2[0] == '/')
    requires PathJoin(a, b1) == PathJoin(a, b2)
    ensures b1 == b2
  {
    var p := PathJoin(a, b1);
    if !(|b1| > 0 && b1[0] == '/') {
      if |a| == 0 || a[|a| - 1] == '/' {
        assert b1 == p[|a|..] == b2;
      } else {
        assert b1 == p[|a| + 1..] == b2;
      }
    }
  }

  /** No two runs are written to the same file. */
  lemma FileNamesDistinct(directory: string, identifier: string, i: nat, j: nat)
    requires i != j
    ensures FileName(directory, identifier, i) != FileName(directory, identifier, j)
  {
    var bi := identifier + NatToString(i) + ".csv";
    var bj := identifier + NatToString(j) + ".csv";
    if FileName(directory, identifier, i) == FileName(directory, identifier, j) {
      if |identifier| > 0 {
        assert bi[0] == identifier[0] == bj[0];
      } else {
        assert bi[0] == NatToString(i)[0] && bj[0] == NatToString(j)[0];
      }
      JoinCancel(directory, bi, bj);
      assert |NatToString(i)| == |NatToString(j)| by {
        assert |bi| == |bj|;
      }
      assert NatToString(i) == bi[|identifier|..|identifier| + |NatToString(i)|] == NatToString(j);
      NatToStringInjective(i, j);
    }
  }

  // ---- table layout ----

  /** What writing a run's rows demands: it is a dict with a `time` series and no series is
      shorter than `time` (otherwise `trajectory[species][n]` raises). */
  ghost predicate Exportable(t: Trajectory) {
    t.Valid() && Time in t.data.values &&
    forall s :: s in t.data.values ==> |t.data.values[s]| >= |t.data.values[Time]|
  }

  /** `rows` holds one row per `time` entry, row `n` listing each series' `n`-th value in
      header order. */
  ghost predicate IsTableOf(rows: seq<seq<real>>, t: Trajectory)
    requires Exportable(t)
  {
    |rows| == |t.data.values[Time]| &&
    forall n :: 0 <= n < |rows| ==>
      |rows[n]| == |t.data.keys| &&
      forall j :: 0 <= j < |t.data.keys| ==> rows[n][j] == t.data.values[t.data.keys[j]][n]
  }

  datatype CsvFile = CsvFile(name: string, header: seq<string>, rows: seq<seq<real>>)

  datatype Export = Export(directory: string, files: seq<CsvFile>)

  /** The header loop: every key of the run, in insertion order. */
  method BuildHeader(t: Trajectory) returns (fieldNames: seq<string>)
    ensures fieldNames == t.data.keys
  {
    fieldNames := [];
    for j := 0 to |t.data.keys|
      invariant fieldNames == t.data.keys[..j]
    {
      fieldNames := fieldNames + [t.data.keys[j]];
    }
  }

  /** The inner row loop: the `n`-th value of every series, in header order. */
  method BuildRow(t: Trajectory, n: nat) returns (line: seq<real>)
    requires Exportable(t) && n < |t.data.values[Time]|
    ensures |line| == |t.data.keys|
    ensures forall j :: 0 <= j < |line| ==> line[j] == t.data.values[t.data.keys[j]][n]
  {
    line := [];
    for j := 0 to |t.data.keys|
      invariant |line| == j
      invariant forall i :: 0 <= i < j ==> line[i] == t.data.values[t.data.keys[i]][n]
    {
      line := line + [t.data.values[t.data.keys[j]][n]];
    }
  }

  /** The outer row loop: one row per entry of `time`. */
  method BuildRows(t: Trajectory) returns (rows: seq<seq<real>>)
    requires Exportable(t)
    ensures IsTableOf(rows, t)
  {
    rows := [];
    for n := 0 to |t.data.values[Time]|
      invariant |rows| == n
      invariant forall m :: 0 <= m < n ==>
        |rows[m]| == |t.data.keys| &&
        forall j :: 0 <= j < |t.data.keys| ==> rows[m][j] == t.data.values[t.data.keys[j]][m]
    {
      var line := BuildRow(t, n);
      rows := rows + [line];
    }
  }

  /** `to_csv(path, nametag, stamp)` without the file system: the directory and the tables it
      would write. The identifier is `nametag`, or the ensemble's title when there is none
      (whose errors then surface before anything is written); `stamp` is the text of the
      time stamp. */
  method ToCsv(res: Results, path: Option<string>, nametag: Option<string>, stamp: string) returns (out: Result<Export>)
    requires forall i :: 0 <= i < |res.runs| ==> Exportable(res.runs[i])
    ensures nametag.None? && Title(res.runs).Err? <==> out.Err?
    ensures out.Err? ==> out.error == Title(res.runs).error
    ensures out.Ok? ==>
      var identifier := if nametag.Some? then nametag.value else Title(res.runs).value;
      out.value.directory == DirectoryName(path, identifier, stamp) &&
      |out.value.files| == |res.runs| &&
      forall i :: 0 <= i < |res.runs| ==>
        out.value.files[i].name == FileName(out.value.directory, identifier, i) &&
        out.value.files[i].header == res.runs[i].data.keys &&
        IsTableOf(out.value.files[i].rows, res.runs[i])
  {
    var identifier: string;
    if nametag.Some? {
      identifier := nametag.value;
    } else {
      var title := Title(res.runs);
      if title.Err? {
        return Err(title.error);
      }
      identifier := title.value;
    }
    var directory := DirectoryName(path, identifier, stamp);
    var files: seq<CsvFile> := [];
    for i := 0 to |res.runs|
      invariant |files| == i
      invariant forall m :: 0 <= m < i ==>
        files[m].name == FileName(directory, identifier, m) &&
        files[m].header == res.runs[m].data.keys &&
        IsTableOf(files[m].rows, res.runs[m])
    {
      var t := res.runs[i];
      var fieldNames := BuildHeader(t);
      var rows := BuildRows(t);
      files := files + [CsvFile(FileName(directory, identifier, i), fieldNames, rows)];
    }
    out := Ok(Export(directory, files));
  }

  /** The `j`-th column of a table. */
  function Column(rows: seq<seq<real>>, j: nat): seq<real>
    requires forall n :: 0 <= n < |rows| ==> j < |rows[n]|
  {
    seq(|rows|, n requires 0 <= n < |rows| => rows[n][j])
  }

  /** Reading a run's table back column by column recovers each of its series, in full when
      the series is exactly as long as `time`: no value is lost or misplaced. */
  lemma ColumnsRecoverSeries(rows: seq<seq<real>>, t: Trajectory, j: nat)
    requires Exportable(t) && IsTableOf(rows, t) && j < |t.data.keys|
    ensures forall n :: 0 <= n < |rows| ==> j < |rows[n]|
    ensures Column(rows, j) == t.data.values[t.data.keys[j]][..|t.data.values[Time]|]
    ensures |t.data.values[t.data.keys[j]]| == |t.data.values[Time]| ==>
      Column(rows, j) == t.data.values[t.data.keys[j]]
  {
    assert t.data.keys[j] in t.data.values;
  }

  /** The example of a single run `{time: [0, 1], A: [5, 6]}`: header `[time, A]`, rows
      `[0, 5]` and `[1, 6]`. */
  lemma SingleRunTable(rows: seq<seq<real>>, m: ModelRef)
    requires var t := Trajectory(OrderedDict(["time", "A"], map["time" := [0.0, 1.0], "A" := [5.0, 6.0]]), m, "SSA", 0, "Success");
      Exportable(t) && IsTableOf(rows, t)
    ensures rows == [[0.0, 5.0], [1.0, 6.0]]
  {
    var t := Trajectory(OrderedDict(["time", "A"], map["time" := [0.0, 1.0], "A" := [5.0, 6.0]]), m, "SSA", 0, "Success");
    assert |rows| == 2 && |rows[0]| == 2 && |rows[1]| == 2;
    assert rows[0][0] == t.data.values[t.data.keys[0]][0];
    assert rows[0][1] == t.data.values[t.data.keys[1]][0];
    assert rows[1][0] == t.data.values[t.data.keys[0]][1];
    assert rows[1][1] == t.data.values[t.data.keys[1]][1];
    assert rows[0] == [0.0, 5.0] && rows[1] == [1.0, 6.0];
  }
}
