/**
 Counting a process's descendants in the text of a process table
 (tools/interactive-handoff-h0/scenario_resource_measurement.go). The table may hold cycles, self-parents
 and duplicate rows.
 */
module Descendants {
  import opened Prelude
  import opened Text

  datatype Row = Row(pid: int, ppid: int)

  datatype Line = Blank | Bad | Good(row: Row)

  function ParseLine(line: string): Line {
    var fields := Fields(line);
    if |fields| == 0 then Blank
    else if |fields| != 2 then Bad
    else
      var pid, ppid := ParseInt64(fields[0]), ParseInt64(fields[1]);
      if pid.None? || pid.value <= 0 || ppid.None? || ppid.value < 0 then Bad else Good(Row(pid.value, ppid.value))
  }

  /** The rows of a table, none if some line is malformed. */
  function ParseLines(lines: seq<string>): Option<seq<Row>> {
    if lines == [] then Some([])
    else
      var rest, last := ParseLines(lines[..|lines| - 1]), ParseLine(lines[|lines| - 1]);
      if rest.None? || last.Bad? then None
      else if last.Blank? then rest
      else Some(rest.value + [last.row])
  }

  function ParseTable(text: string): Option<seq<Row>> { ParseLines(SplitOn(text, '\n')) }

  // -------------------------------------------------------------- reachability

  /** Each process on the path is the parent of the next one. */
  ghost predicate Path(rows: seq<Row>, path: seq<int>) {
    path != [] && forall i | 0 < i < |path| :: Row(path[i], path[i - 1]) in rows
  }

  ghost predicate Reachable(rows: seq<Row>, root: int, pid: int) {
    exists path :: Path(rows, path) && path[0] == root && path[|path| - 1] == pid
  }

  function Pids(rows: seq<Row>): set<int> { set i | 0 <= i < |rows| :: rows[i].pid }

  /** The processes other than the root that can be reached from it. */
  ghost function Descendants(rows: seq<Row>, root: int): set<int> {
    set pid | pid in Pids(rows) && pid != root && Reachable(rows, root, pid)
  }

  lemma ChildIsReachable(rows: seq<Row>, root: int, parent: int, child: int)
    requires Reachable(rows, root, parent) && Row(child, parent) in rows
    ensures Reachable(rows, root, child)
  {
    var path :| Path(rows, path) && path[0] == root && path[|path| - 1] == parent;
    var longer := path + [child];
    assert Path(rows, longer) && longer[0] == root && longer[|longer| - 1] == child;
  }

  /** A set closed under the child relation contains every path that starts in it. */
  lemma {:induction false} ClosedHoldsPaths(rows: seq<Row>, closed: set<int>, path: seq<int>)
    requires forall row | row in rows && row.ppid in closed :: row.pid in closed
    requires Path(rows, path) && path[0] in closed
    ensures path[|path| - 1] in closed
    decreases |path|
  {
    if |path| > 1 {
      ClosedHoldsPaths(rows, closed, path[..|path| - 1]);
      assert Row(path[|path| - 1], path[|path| - 2]) in rows;
    }
  }

  /** Anything reachable but the root is somebody's child, so the count misses no process. */
  lemma ReachableIsListed(rows: seq<Row>, root: int, pid: int)
    requires Reachable(rows, root, pid) && pid != root
    ensures pid in Pids(rows)
  {
    var path :| Path(rows, path) && path[0] == root && path[|path| - 1] == pid;
    assert Row(path[|path| - 1], path[|path| - 2]) in rows;
  }

  // ----------------------------------------------------------------- the count

  type Children = map<int, seq<int>>

  function ChildrenOf(children: Children, pid: int): seq<int> { if pid in children then children[pid] else [] }

  ghost predicate Indexes(children: Children, rows: seq<Row>) {
    forall pid, ppid :: pid in ChildrenOf(children, ppid) <==> Row(pid, ppid) in rows
  }

  method IndexChildren(lines: seq<string>) returns (children: Option<Children>)
    ensures children.Some? <==> ParseLines(lines).Some?
    ensures children.Some? ==> Indexes(children.value, ParseLines(lines).value)
  {
    var index: Children := map[];
    for i := 0 to |lines|
      invariant ParseLines(lines[..i]).Some? && Indexes(index, ParseLines(lines[..i]).value)
    {
      assert lines[..i + 1][..i] == lines[..i];
      var line := ParseLine(lines[i]);
      if line.Bad? {
        BadLineSpoils(lines, i);
        return None;
      }
      if line.Good? {
        index := index[line.row.ppid := ChildrenOf(index, line.row.ppid) + [line.row.pid]];
      }
    }
    assert lines[..|lines|] == lines;
    return Some(index);
  }

  lemma {:induction false} BadLineSpoils(lines: seq<string>, i: nat)
    requires i < |lines| && ParseLine(lines[i]).Bad?
    ensures ParseLines(lines).None?
    decreases |lines|
  {
    if i < |lines| - 1 {
      BadLineSpoils(lines[..|lines| - 1], i);
    }
  }

  /** What holds of the depth-first search at every turn. */
  ghost predicate Searching(rows: seq<Row>, root: int, seen: set<int>, stack: seq<int>) {
    && root in seen && seen <= Pids(rows) + {root}
    && (forall pid | pid in seen :: Reachable(rows, root, pid))
    && (forall pid | pid in stack :: pid in Pids(rows) && Reachable(rows, root, pid))
    && (forall row | row in rows && row.ppid in seen :: row.pid in seen || row.pid in stack)
  }

  lemma SearchStarts(rows: seq<Row>, root: int, children: Children)
    requires Indexes(children, rows)
    ensures Searching(rows, root, {root}, ChildrenOf(children, root))
  {
    assert Path(rows, [root]) && [root][0] == root;
    assert Reachable(rows, root, root);
    forall pid | pid in ChildrenOf(children, root)
      ensures pid in Pids(rows) && Reachable(rows, root, pid)
    {
      assert Row(pid, root) in rows;
      ChildIsReachable(rows, root, root, pid);
    }
    forall row | row in rows && row.ppid == root
      ensures row.pid in ChildrenOf(children, root)
    {
      assert row == Row(row.pid, root);
    }
  }

  lemma SearchSkips(rows: seq<Row>, root: int, seen: set<int>, stack: seq<int>)
    requires Searching(rows, root, seen, stack) && stack != [] && stack[|stack| - 1] in seen
    ensures Searching(rows, root, seen, stack[..|stack| - 1])
  {
    var pid := stack[|stack| - 1];
    assert stack == stack[..|stack| - 1] + [pid];
    forall q | q in stack[..|stack| - 1]
      ensures q in stack
    {
    }
  }

  lemma SearchVisits(rows: seq<Row>, root: int, children: Children, seen: set<int>, stack: seq<int>)
    requires Indexes(children, rows) && Searching(rows, root, seen, stack) && stack != [] && stack[|stack| - 1] !in seen
    ensures var pid := stack[|stack| - 1];
            Searching(rows, root, seen + {pid}, stack[..|stack| - 1] + ChildrenOf(children, pid))
  {
    var pid := stack[|stack| - 1];
    assert stack == stack[..|stack| - 1] + [pid];
    var stack' := stack[..|stack| - 1] + ChildrenOf(children, pid);
    assert pid in stack;
    forall q | q in stack'
      ensures q in Pids(rows) && Reachable(rows, root, q)
    {
      if q !in stack[..|stack| - 1] {
        assert Row(q, pid) in rows;
        ChildIsReachable(rows, root, pid, q);
      } else {
        assert q in stack;
      }
    }
    forall row | row in rows && row.ppid in seen + {pid}
      ensures row.pid in seen + {pid} || row.pid in stack'
    {
      if row.ppid == pid {
        assert row == Row(row.pid, pid);
      }
    }
  }

  lemma SearchEnds(rows: seq<Row>, root: int, seen: set<int>)
    requires Searching(rows, root, seen, [])
    ensures seen - {root} == Descendants(rows, root)
  {
    forall pid | pid in Descendants(rows, root)
      ensures pid in seen
    {
      var path :| Path(rows, path) && path[0] == root && path[|path| - 1] == pid;
      ClosedHoldsPaths(rows, seen, path);
    }
  }

  /** The number of processes other than the root that the root reaches, for every well-formed table; no
      count for any other. The search ends because each turn marks a new process or shortens the stack. */
  method CountDescendants(text: string, root: int) returns (count: Option<nat>)
    ensures count.Some? <==> ParseTable(text).Some?
    ensures count.Some? ==> count.value == |Descendants(ParseTable(text).value, root)|
  {
    var index := IndexChildren(SplitOn(text, '\n'));
    if index.None? {
      return None;
    }
    var children := index.value;
    ghost var rows := ParseTable(text).value;
    var seen, n := {root}, 0;
    var stack := ChildrenOf(children, root);
    SearchStarts(rows, root, children);
    while stack != []
      invariant Searching(rows, root, seen, stack)
      invariant n == |seen - {root}|
      decreases Pids(rows) + {root} - seen, |stack|
    {
      var pid := stack[|stack| - 1];
      if pid in seen {
        SearchSkips(rows, root, seen, stack);
        stack := stack[..|stack| - 1];
      } else {
        SearchVisits(rows, root, children, seen, stack);
        hide Reachable, Indexes;
        assert pid in stack;
        assert pid in Pids(rows) + {root} - seen;
        assert seen + {pid} - {root} == (seen - {root}) + {pid};
        seen, n := seen + {pid}, n + 1;
        stack := stack[..|stack| - 1] + ChildrenOf(children, pid);
      }
    }
    SearchEnds(rows, root, seen);
    return Some(n);
  }

  // ------------------------------------------------------------ about the count

  /** Only which rows there are matters: not their order, not how often they are listed. */
  lemma OrderAndRepetitionDoNotMatter(a: seq<Row>, b: seq<Row>, root: int)
    requires forall row :: row in a <==> row in b
    ensures Descendants(a, root) == Descendants(b, root)
  {
    SubsetReaches(a, b, root);
    SubsetReaches(b, a, root);
  }

  /** More rows, more descendants. */
  lemma SubsetReaches(a: seq<Row>, b: seq<Row>, root: int)
    requires forall row | row in a :: row in b
    ensures Descendants(a, root) <= Descendants(b, root)
  {
    forall pid | pid in Descendants(a, root)
      ensures pid in Descendants(b, root)
    {
      var path :| Path(a, path) && path[0] == root && path[|path| - 1] == pid;
      assert Path(b, path);
      ReachableIsListed(b, root, pid);
    }
  }

  function PrintRow(row: Row): string
    requires row.pid >= 0 && row.ppid >= 0
  {
    Join([Decimal(row.pid), Decimal(row.ppid)], " ")
  }

  function PrintRows(rows: seq<Row>): seq<string>
    requires forall row | row in rows :: row.pid >= 0 && row.ppid >= 0
  {
    seq(|rows|, i requires 0 <= i < |rows| => PrintRow(rows[i]))
  }

  lemma DigitsAreGraphic(s: string)
    requires AllDigits(s)
    ensures s != "" && '\n' !in s && forall i | 0 <= i < |s| :: Graphic(s[i])
  {
    assert forall i | 0 <= i < |s| :: IsDigit(s[i]);
  }

  lemma JoinTwo(a: string, b: string)
    ensures Join([a, b], " ") == a + " " + b
  {
    assert [a, b][1..] == [b] && [b][1..] == [];
    assert Join([b], " ") == b;
  }

  lemma ParsePrintedRow(row: Row)
    requires 0 < row.pid <= MAX_INT64 && 0 <= row.ppid <= MAX_INT64
    ensures ParseLine(PrintRow(row)) == Good(row)
    ensures '\n' !in PrintRow(row)
  {
    var a, b := Decimal(row.pid), Decimal(row.ppid);
    assert PrintRow(row) == Join([a, b], " ");
    JoinTwo(a, b);
    hide PrintRow, Decimal, ParseInt64, Fields, Join, AllDigits, Graphic;
    DigitsAreGraphic(a);
    DigitsAreGraphic(b);
    FieldsOfWords([a, b]);
    ParseDecimal(row.pid);
    ParseDecimal(row.ppid);
  }

  lemma {:induction false} ParsePrintedRows(rows: seq<Row>)
    requires forall row | row in rows :: 0 < row.pid <= MAX_INT64 && 0 <= row.ppid <= MAX_INT64
    ensures ParseLines(PrintRows(rows)) == Some(rows)
    decreases |rows|
  {
    hide ParseLine, PrintRow;
    if rows != [] {
      var front, last := rows[..|rows| - 1], rows[|rows| - 1];
      assert forall row | row in front :: row in rows;
      ParsePrintedRows(front);
      ParsePrintedRow(last);
      assert PrintRows(rows)[..|rows| - 1] == PrintRows(front);
      assert front + [last] == rows;
    }
  }

  ghost predicate IsRow(words: seq<string>, row: Row) {
    && |words| == 2 && ParseInt64(words[0]) == Some(row.pid) && ParseInt64(words[1]) == Some(row.ppid)
    && row.pid > 0 && row.ppid >= 0
  }

  /** A line is decided by its words, however they are padded: none make a blank line, a positive and a
      non-negative number make a row, and anything else is malformed. */
  lemma LineMeans(gaps: seq<nat>, words: seq<string>, row: Row)
    requires SetOff(gaps, words)
    ensures var line := ParseLine(Spread(gaps, words));
            && (line.Blank? <==> words == [])
            && (line == Good(row) <==> IsRow(words, row))
            && (line.Bad? <==> words != [] && forall r :: !IsRow(words, r))
  {
    FieldsOfSpread(gaps, words);
    hide Fields, Spread, ParseInt64;
    var line := ParseLine(Spread(gaps, words));
    if line.Good? {
      assert IsRow(words, line.row);
    }
  }

  /** A table has rows exactly when no line is malformed, and then just the rows of its lines, in order. */
  lemma {:induction false} TableMeans(lines: seq<string>, more: seq<string>)
    ensures ParseLines(lines).Some? <==> forall i | 0 <= i < |lines| :: !ParseLine(lines[i]).Bad?
    ensures ParseLines(lines).Some? && ParseLines(more).Some? ==>
              ParseLines(lines + more) == Some(ParseLines(lines).value + ParseLines(more).value)
    decreases |lines|, |more|
  {
    hide ParseLine;
    if lines != [] {
      TableMeans(lines[..|lines| - 1], []);
    }
    if more == [] {
      assert lines + more == lines && ParseLines(more) == Some([]);
      assert forall rows: seq<Row> :: rows + [] == rows;
    } else {
      TableMeans(lines, more[..|more| - 1]);
      var all := lines + more;
      assert all[..|all| - 1] == lines + more[..|more| - 1] && all[|all| - 1] == more[|more| - 1];
      if ParseLines(lines).Some? && ParseLines(more).Some? {
        var a, b := ParseLines(lines).value, ParseLines(more[..|more| - 1]).value;
        assert forall last: Row :: a + (b + [last]) == a + b + [last];
      }
    }
  }

  /** A printed table reads back as itself. */
  lemma ParsePrintedTable(rows: seq<Row>)
    requires rows != []
    requires forall row | row in rows :: 0 < row.pid <= MAX_INT64 && 0 <= row.ppid <= MAX_INT64
    ensures ParseTable(Join(PrintRows(rows), ['\n'])) == Some(rows)
  {
    forall line | line in PrintRows(rows)
      ensures '\n' !in line
    {
      var i :| 0 <= i < |rows| && line == PrintRow(rows[i]);
      ParsePrintedRow(rows[i]);
    }
    SplitJoin(PrintRows(rows), '\n');
    ParsePrintedRows(rows);
  }
}
