/**
 * The process listing: the text printed by `ps aux`, turned into process
 * records the way `getProcesses` does it. Running `ps` is outside the model;
 * its standard output is the input here.
 */
module ProcessTable {
  import opened Wrappers
  import opened Builtins

  /**
   * A process as the listing describes it: the process id (column 2), the
   * base name of the executable (column 11), the command line (columns 11 and
   * on, joined by single spaces) and the resident size (column 6). The CPU and
   * memory percentages are floating point and are not modelled.
   */
  datatype ProcessRecord = ProcessRecord(pid: ParsedInt, name: string, cmd: string, memRss: int)

  /** `ps aux` prints ten columns before the command, so a line needs eleven fields. */
  const MinFields := 11

  /** `line.trim().split(/\s+/)`: the words of the line, or a single empty field for a blank line. */
  function Fields(line: string): (fields: seq<string>)
    ensures |fields| >= 1
    ensures |fields| >= MinFields ==> fields == Words(line)
  {
    var ws := Words(line);
    if ws == [] then [""] else ws
  }

  /** `field.split('/').pop() || field` */
  function BaseName(field: string): string {
    var parts := SplitOn(field, '/');
    var last := parts[|parts| - 1];
    if last == [] then field else last
  }

  /**
   * The name is the part of the field after its last `/`; when that part is
   * empty (the field ends with `/`, or is empty) the name is the whole field.
   */
  lemma BaseNameSpec(field: string)
    ensures |BaseName(field)| <= |field| && BaseName(field) == field[|field| - |BaseName(field)|..]
    ensures field == [] || field[|field| - 1] == '/' ==> BaseName(field) == field
    ensures field != [] && field[|field| - 1] != '/' ==>
      && BaseName(field) != []
      && '/' !in BaseName(field)
      && (|BaseName(field)| == |field| || field[|field| - |BaseName(field)| - 1] == '/')
  {
    var parts := SplitOn(field, '/');
    var n := |parts|;
    var last := parts[n - 1];
    if n >= 2 {
      JoinWithLast(parts, '/');
      var init := JoinWith(parts[..n - 1], '/');
      assert field == init + ['/'] + last;
      assert field[|field| - |last|..] == last;
      assert last != [] ==> field[|field| - 1] == last[|last| - 1];
      assert field[|field| - |last| - 1] == '/';
    } else {
      assert field == last;
    }
  }

  /** One line of the listing: a record, or nothing for a line with fewer than eleven fields. */
  function ParseLine(line: string): (r: Option<ProcessRecord>)
    ensures r.Some? <==> |Words(line)| >= MinFields
    ensures r.Some? ==> r.value.cmd != [] && Words(r.value.cmd) == Words(line)[MinFields - 1..]
    ensures r.Some? ==>
      var ws := Words(line);
      r.value == ProcessRecord(ParseInt(ws[1]), BaseName(ws[10]), JoinWith(ws[10..], ' '), OrZero(ParseInt(ws[5])))
  {
    var parts := Fields(line);
    if |parts| < MinFields then None
    else
      WordsOfJoin(parts[10..]);
      Some(ProcessRecord(
        pid := ParseInt(parts[1]),
        name := BaseName(parts[10]),
        cmd := JoinWith(parts[10..], ' '),
        memRss := OrZero(ParseInt(parts[5]))))
  }

  /** The records one line contributes: its own, or none. */
  function LineRecords(line: string): (procs: seq<ProcessRecord>)
    ensures |procs| <= 1
  {
    match ParseLine(line)
    case None => []
    case Some(p) => [p]
  }

  /** `lines.map(parse).filter(Boolean)`: the records of the lines that have one, in the order of the lines. */
  function ParseLines(lines: seq<string>): (procs: seq<ProcessRecord>)
    ensures |procs| <= |lines|
  {
    if lines == [] then [] else LineRecords(lines[0]) + ParseLines(lines[1..])
  }

  /** Every record comes from some line of the listing. */
  lemma {:induction false} ParseLinesSound(lines: seq<string>, i: nat)
    requires i < |ParseLines(lines)|
    ensures exists j :: 0 <= j < |lines| && ParseLine(lines[j]) == Some(ParseLines(lines)[i])
    decreases |lines|
  {
    var head := LineRecords(lines[0]);
    var rest := ParseLines(lines[1..]);
    assert ParseLines(lines) == head + rest;
    if i < |head| {
      assert ParseLine(lines[0]) == Some(ParseLines(lines)[i]);
    } else {
      var k := i - |head|;
      assert ParseLines(lines)[i] == rest[k];
      ParseLinesSound(lines[1..], k);
      var j :| 0 <= j < |lines[1..]| && ParseLine(lines[1..][j]) == Some(rest[k]);
      assert lines[1..][j] == lines[j + 1];
    }
  }

  /** Every line that describes a process contributes its record. */
  lemma {:induction false} ParseLinesComplete(lines: seq<string>)
    ensures forall j :: 0 <= j < |lines| && ParseLine(lines[j]).Some? ==> ParseLine(lines[j]).value in ParseLines(lines)
    decreases |lines|
  {
    if lines != [] {
      ParseLinesComplete(lines[1..]);
      forall j | 0 <= j < |lines| && ParseLine(lines[j]).Some?
        ensures ParseLine(lines[j]).value in ParseLines(lines)
      {
        if j > 0 {
          assert lines[j] == lines[1..][j - 1];
        }
      }
    }
  }

  /**
   * The whole listing: `stdout.trim().split('\n').slice(1)`, so the first
   * line (the column header) is never read as a process.
   */
  function ParseListing(stdout: string): (procs: seq<ProcessRecord>)
    ensures |procs| <= |SplitOn(Trim(stdout), '\n')| - 1
  {
    var lines := SplitOn(Trim(stdout), '\n');
    ParseLines(lines[1..])
  }

  /** The records keep the order of the lines: parsing distributes over concatenation. */
  lemma {:induction false} ParseLinesAppend(a: seq<string>, b: seq<string>)
    ensures ParseLines(a + b) == ParseLines(a) + ParseLines(b)
    decreases |a|
  {
    if a == [] {
      assert a + b == b;
    } else {
      calc {
        ParseLines(a + b);
        { assert (a + b)[0] == a[0] && (a + b)[1..] == a[1..] + b; }
        LineRecords(a[0]) + ParseLines(a[1..] + b);
        { ParseLinesAppend(a[1..], b); }
        LineRecords(a[0]) + (ParseLines(a[1..]) + ParseLines(b));
        ParseLines(a) + ParseLines(b);
      }
    }
  }

  /**
   * A line made of eleven or more columns separated by single spaces is read
   * back column by column: the command is the eleventh column onwards.
   */
  lemma ParseLineOfColumns(columns: seq<string>)
    requires |columns| >= MinFields
    requires forall i :: 0 <= i < |columns| ==> columns[i] != [] && NoSpace(columns[i])
    ensures ParseLine(JoinWith(columns, ' ')) == Some(ProcessRecord(
      ParseInt(columns[1]), BaseName(columns[10]), JoinWith(columns[10..], ' '), OrZero(ParseInt(columns[5]))))
  {
    WordsOfJoin(columns);
  }

  /**
   * A listing whose lines are a header followed by rows (and which carries no
   * surrounding white space to trim) yields the records of the rows alone, in
   * their order: the header is dropped and every row is parsed.
   */
  lemma ParseListingDropsHeader(header: string, rows: seq<string>)
    requires '\n' !in header
    requires forall i :: 0 <= i < |rows| ==> '\n' !in rows[i]
    requires Trim(JoinWith([header] + rows, '\n')) == JoinWith([header] + rows, '\n')
    ensures ParseListing(JoinWith([header] + rows, '\n')) == ParseLines(rows)
  {
    var lines := [header] + rows;
    assert forall i :: 0 <= i < |lines| ==> '\n' !in lines[i] by {
      forall i | 0 <= i < |lines|
        ensures '\n' !in lines[i]
      {
        if i > 0 {
          assert lines[i] == rows[i - 1];
        }
      }
    }
    SplitOnOfJoin(lines, '\n');
    assert lines[1..] == rows;
  }

  /** A listing of the header alone, or of nothing, holds no process. */
  lemma ParseListingOfOneLine(stdout: string)
    requires '\n' !in Trim(stdout)
    ensures ParseListing(stdout) == []
  {
    var lines := SplitOn(Trim(stdout), '\n');
    if |lines| >= 2 {
      JoinWithLast(lines, '\n');
      assert false;
    }
  }
}
