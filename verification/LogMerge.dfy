/** Merging the log files of several nodes (cmd/dvb/logs.go:401-448). */
module LogMerge {
  import opened Outcomes
  import opened Sequences

  datatype Entry = Entry(node: string, line: string, lineNum: nat)

  /** The readable files' lines; a file that cannot be opened is `None`. */
  type Files = map<string, Option<seq<string>>>

  function LinesOf(files: Files, node: string): seq<string> {
    if node in files && files[node].Some? then files[node].value else []
  }

  function NodeEntries(files: Files, node: string): (r: seq<Entry>)
    ensures |r| == |LinesOf(files, node)|
  {
    var lines := LinesOf(files, node);
    seq(|lines|, k requires 0 <= k < |lines| => Entry(node, lines[k], k))
  }

  ghost predicate Distinct(order: seq<string>) {
    forall i, j :: 0 <= i < j < |order| ==> order[i] != order[j]
  }

  /** An order in which the map of files may be traversed. */
  ghost predicate Traverses(order: seq<string>, files: Files) {
    Distinct(order) && forall node :: node in order <==> node in files
  }

  /** The entries as they are read, file by file. */
  function Collected(order: seq<string>, files: Files): seq<Entry>
  {
    if order == [] then []
    else Collected(order[..|order| - 1], files) + NodeEntries(files, order[|order| - 1])
  }

  // ------------------------------------------------------------- stable sorting

  function OfLine(entries: seq<Entry>, k: nat): seq<Entry>
  {
    if entries == [] then []
    else
      var last := entries[|entries| - 1];
      OfLine(entries[..|entries| - 1], k) + (if last.lineNum == k then [last] else [])
  }

  function OfNode(entries: seq<Entry>, node: string): seq<Entry>
  {
    if entries == [] then []
    else
      var last := entries[|entries| - 1];
      OfNode(entries[..|entries| - 1], node) + (if last.node == node then [last] else [])
  }

  ghost predicate ByLine(entries: seq<Entry>) {
    forall i, j :: 0 <= i < j < |entries| ==> entries[i].lineNum <= entries[j].lineNum
  }

  /** What a stable sort by line number returns: ascending, with the entries of
      each number as they were. */
  ghost predicate StablySorted(entries: seq<Entry>, out: seq<Entry>) {
    ByLine(out) && forall k: nat :: OfLine(out, k) == OfLine(entries, k)
  }

  /** Insertion from the right, behind the entries that are not greater. */
  function Insert(entries: seq<Entry>, e: Entry): seq<Entry>
  {
    if entries == [] || entries[|entries| - 1].lineNum <= e.lineNum then entries + [e]
    else Insert(entries[..|entries| - 1], e) + [entries[|entries| - 1]]
  }

  function StableSort(entries: seq<Entry>): seq<Entry>
  {
    if entries == [] then []
    else Insert(StableSort(entries[..|entries| - 1]), entries[|entries| - 1])
  }

  lemma OfLineSnoc(entries: seq<Entry>, e: Entry, k: nat)
    ensures OfLine(entries + [e], k) == OfLine(entries, k) + (if e.lineNum == k then [e] else [])
  {
    assert (entries + [e])[..|entries|] == entries;
  }

  lemma {:induction false} OfLineAbove(entries: seq<Entry>, k: nat)
    requires forall i :: 0 <= i < |entries| ==> entries[i].lineNum < k
    ensures OfLine(entries, k) == []
  {
    if entries != [] {
      OfLineAbove(entries[..|entries| - 1], k);
    }
  }

  lemma {:induction false} InsertOfLine(entries: seq<Entry>, e: Entry, k: nat)
    ensures OfLine(Insert(entries, e), k) == OfLine(entries, k) + (if e.lineNum == k then [e] else [])
  {
    if entries == [] || entries[|entries| - 1].lineNum <= e.lineNum {
      OfLineSnoc(entries, e, k);
    } else {
      var front, last := entries[..|entries| - 1], entries[|entries| - 1];
      InsertOfLine(front, e, k);
      OfLineSnoc(Insert(front, e), last, k);
    }
  }

  lemma {:induction false} InsertMembers(entries: seq<Entry>, e: Entry)
    ensures forall x :: x in Insert(entries, e) ==> x in entries || x == e
  {
    if entries != [] && entries[|entries| - 1].lineNum > e.lineNum {
      InsertMembers(entries[..|entries| - 1], e);
    }
  }

  lemma {:induction false} InsertByLine(entries: seq<Entry>, e: Entry)
    requires ByLine(entries)
    ensures ByLine(Insert(entries, e))
  {
    if entries == [] || entries[|entries| - 1].lineNum <= e.lineNum {
    } else {
      var front, last := entries[..|entries| - 1], entries[|entries| - 1];
      InsertByLine(front, e);
      InsertMembers(front, e);
      var r := Insert(front, e);
      forall i | 0 <= i < |r|
        ensures r[i].lineNum <= last.lineNum
      {
        assert r[i] in r;
      }
    }
  }

  lemma {:induction false} StableSortIsStable(entries: seq<Entry>)
    ensures StablySorted(entries, StableSort(entries))
  {
    if entries != [] {
      StableSortIsStable(entries[..|entries| - 1]);
      var front, last := StableSort(entries[..|entries| - 1]), entries[|entries| - 1];
      InsertByLine(front, last);
      forall k: nat
        ensures OfLine(StableSort(entries), k) == OfLine(entries, k)
      {
        InsertOfLine(front, last, k);
      }
    }
  }

  /** A stable sort has one result. */
  lemma {:induction false} StablySortedUnique(a: seq<Entry>, b: seq<Entry>)
    requires ByLine(a) && ByLine(b) && forall k: nat :: OfLine(a, k) == OfLine(b, k)
    ensures a == b
  {
    if a == [] && b == [] {
    } else {
      SameLast(a, b);
      var front, other := a[..|a| - 1], b[..|b| - 1];
      forall k: nat
        ensures OfLine(front, k) == OfLine(other, k)
      {
        SameFront(a, b, k);
      }
      StablySortedUnique(front, other);
      assert a == front + [a[|a| - 1]] && b == other + [b[|b| - 1]];
    }
  }

  lemma SameFront(a: seq<Entry>, b: seq<Entry>, k: nat)
    requires a != [] && b != [] && a[|a| - 1] == b[|b| - 1] && OfLine(a, k) == OfLine(b, k)
    ensures OfLine(a[..|a| - 1], k) == OfLine(b[..|b| - 1], k)
  {
    var n := |OfLine(a[..|a| - 1], k)|;
    assert OfLine(a, k)[..n] == OfLine(a[..|a| - 1], k);
    assert OfLine(b, k)[..n] == OfLine(b[..|b| - 1], k);
  }

  lemma SameLast(a: seq<Entry>, b: seq<Entry>)
    requires ByLine(a) && ByLine(b) && forall k: nat :: OfLine(a, k) == OfLine(b, k)
    requires a != [] || b != []
    ensures a != [] && b != [] && a[|a| - 1] == b[|b| - 1]
  {
    var k := if a != [] && (b == [] || b[|b| - 1].lineNum <= a[|a| - 1].lineNum)
      then a[|a| - 1].lineNum else b[|b| - 1].lineNum;
    assert OfLine(a, k) == OfLine(b, k);
    EndsWithLast(a, k);
    EndsWithLast(b, k);
  }

  /** In ascending entries with no number above `k`, the last one of number `k`
      is the last of all, if there is any. */
  lemma EndsWithLast(a: seq<Entry>, k: nat)
    requires ByLine(a) && (a != [] ==> a[|a| - 1].lineNum <= k)
    ensures OfLine(a, k) != [] <==> a != [] && a[|a| - 1].lineNum == k
    ensures OfLine(a, k) != [] ==> OfLine(a, k)[|OfLine(a, k)| - 1] == a[|a| - 1]
  {
    if a != [] && a[|a| - 1].lineNum < k {
      OfLineAbove(a, k);
    }
  }

  // ------------------------------------------------------------ the merged output

  /** Line `k` of a file, if it has one. */
  function Cell(files: Files, node: string, k: nat): seq<Entry> {
    if k < |LinesOf(files, node)| then [Entry(node, LinesOf(files, node)[k], k)] else []
  }

  /** Line `k` of every file that has one, in traversal order. */
  function Row(order: seq<string>, files: Files, k: nat): seq<Entry>
  {
    if order == [] then [] else Row(order[..|order| - 1], files, k) + Cell(files, order[|order| - 1], k)
  }

  /** The first `n` rows. */
  function Rows(order: seq<string>, files: Files, n: nat): seq<Entry>
  {
    if n == 0 then [] else Rows(order, files, n - 1) + Row(order, files, n - 1)
  }

  /** The length of the longest file. */
  function Height(order: seq<string>, files: Files): nat
  {
    if order == [] then 0
    else
      var h, n := Height(order[..|order| - 1], files), |LinesOf(files, order[|order| - 1])|;
      if n > h then n else h
  }

  lemma {:induction false} OfLineConcat(a: seq<Entry>, b: seq<Entry>, k: nat)
    ensures OfLine(a + b, k) == OfLine(a, k) + OfLine(b, k)
  {
    if b == [] {
      assert a + b == a;
    } else {
      OfLineConcat(a, b[..|b| - 1], k);
      assert (a + b)[..|a + b| - 1] == a + b[..|b| - 1];
    }
  }

  /** A numbered sequence has one entry per number. */
  lemma {:induction false} OfLineNumbered(entries: seq<Entry>, k: nat)
    requires forall i :: 0 <= i < |entries| ==> entries[i].lineNum == i
    ensures OfLine(entries, k) == if k < |entries| then [entries[k]] else []
  {
    if entries != [] {
      OfLineNumbered(entries[..|entries| - 1], k);
    }
  }

  lemma {:induction false} CollectedRow(order: seq<string>, files: Files, k: nat)
    ensures OfLine(Collected(order, files), k) == Row(order, files, k)
  {
    if order != [] {
      var front, node := order[..|order| - 1], order[|order| - 1];
      CollectedRow(front, files, k);
      OfLineConcat(Collected(front, files), NodeEntries(files, node), k);
      OfLineNumbered(NodeEntries(files, node), k);
    }
  }

  lemma {:induction false} RowNumbers(order: seq<string>, files: Files, k: nat)
    ensures forall i :: 0 <= i < |Row(order, files, k)| ==> Row(order, files, k)[i].lineNum == k
  {
    if order != [] {
      RowNumbers(order[..|order| - 1], files, k);
    }
  }

  lemma {:induction false} OfLineUniform(entries: seq<Entry>, n: nat, k: nat)
    requires forall i :: 0 <= i < |entries| ==> entries[i].lineNum == n
    ensures OfLine(entries, k) == if k == n then entries else []
  {
    if entries != [] {
      OfLineUniform(entries[..|entries| - 1], n, k);
      assert entries == entries[..|entries| - 1] + [entries[|entries| - 1]];
    }
  }

  lemma {:induction false} RowsByLine(order: seq<string>, files: Files, n: nat)
    ensures ByLine(Rows(order, files, n))
    ensures forall i :: 0 <= i < |Rows(order, files, n)| ==> Rows(order, files, n)[i].lineNum < n
  {
    hide Row;
    if n > 0 {
      RowsByLine(order, files, n - 1);
      RowNumbers(order, files, n - 1);
    }
  }

  lemma RowOfLine(order: seq<string>, files: Files, n: nat, k: nat)
    ensures OfLine(Row(order, files, n), k) == if k == n then Row(order, files, n) else []
  {
    RowNumbers(order, files, n);
    OfLineUniform(Row(order, files, n), n, k);
  }

  lemma NextRow(order: seq<string>, files: Files, r: nat)
    ensures Rows(order, files, r + 1) == Rows(order, files, r) + Row(order, files, r)
  {
  }

  lemma NoRowsOfLine(order: seq<string>, files: Files, k: nat)
    ensures OfLine(Rows(order, files, 0), k) == []
  {
  }

  lemma {:induction false} RowsOfLine(order: seq<string>, files: Files, n: nat, k: nat)
    ensures OfLine(Rows(order, files, n), k) == if k < n then Row(order, files, k) else []
    decreases n
  {
    hide Rows, OfLine, Row;
    if n == 0 {
      NoRowsOfLine(order, files, k);
    } else {
      var before, row := Rows(order, files, n - 1), Row(order, files, n - 1);
      RowsOfLine(order, files, n - 1, k);
      RowOfLine(order, files, n - 1, k);
      NextRow(order, files, n - 1);
      assert Rows(order, files, n) == before + row;
      NextRowOfLine(before, row, Row(order, files, k), n - 1, k);
    }
  }

  lemma NextRowOfLine(before: seq<Entry>, row: seq<Entry>, wanted: seq<Entry>, n: nat, k: nat)
    requires OfLine(before, k) == if k < n then wanted else []
    requires OfLine(row, k) == if k == n then row else []
    requires k == n ==> row == wanted
    ensures OfLine(before + row, k) == if k <= n then wanted else []
  {
    OfLineConcat(before, row, k);
  }

  lemma {:induction false} RowAboveHeight(order: seq<string>, files: Files, k: nat)
    requires k >= Height(order, files)
    ensures Row(order, files, k) == []
  {
    if order != [] {
      RowAboveHeight(order[..|order| - 1], files, k);
    }
  }

  /** Sorting the collected entries transposes the files: first all first lines,
      then all second lines, and so on, each row in traversal order. */
  lemma SortTransposes(order: seq<string>, files: Files, out: seq<Entry>)
    ensures StablySorted(Collected(order, files), out) <==> out == Rows(order, files, Height(order, files))
  {
    hide OfLine, Rows, ByLine;
    var n := Height(order, files);
    RowsByLine(order, files, n);
    forall k: nat
      ensures OfLine(Rows(order, files, n), k) == OfLine(Collected(order, files), k)
    {
      CollectedRow(order, files, k);
      RowsOfLine(order, files, n, k);
      if k >= n {
        RowAboveHeight(order, files, k);
      }
    }
    if StablySorted(Collected(order, files), out) {
      StablySortedUnique(out, Rows(order, files, n));
    }
  }

  lemma {:induction false} OfLineCounts(entries: seq<Entry>, e: Entry)
    ensures multiset(entries)[e] == multiset(OfLine(entries, e.lineNum))[e]
  {
    if entries != [] {
      OfLineCounts(entries[..|entries| - 1], e);
      assert entries == entries[..|entries| - 1] + [entries[|entries| - 1]];
    }
  }

  /** No line is lost, repeated or invented. */
  lemma SortPermutes(entries: seq<Entry>, out: seq<Entry>)
    requires StablySorted(entries, out)
    ensures multiset(out) == multiset(entries)
  {
    forall e: Entry
      ensures multiset(out)[e] == multiset(entries)[e]
    {
      OfLineCounts(entries, e);
      OfLineCounts(out, e);
    }
  }

  lemma {:induction false} OfNodeConcat(a: seq<Entry>, b: seq<Entry>, node: string)
    ensures OfNode(a + b, node) == OfNode(a, node) + OfNode(b, node)
  {
    if b == [] {
      assert a + b == a;
    } else {
      OfNodeConcat(a, b[..|b| - 1], node);
      assert (a + b)[..|a + b| - 1] == a + b[..|b| - 1];
    }
  }

  lemma OfNodeCell(files: Files, v: string, k: nat, node: string)
    ensures OfNode(Cell(files, v, k), node) == if v == node then Cell(files, node, k) else []
  {
    assert OfNode([], node) == [];
  }

  lemma LastIsNew(order: seq<string>)
    requires Distinct(order) && order != []
    ensures Distinct(order[..|order| - 1]) && order[|order| - 1] !in order[..|order| - 1]
    ensures forall v :: v in order <==> v in order[..|order| - 1] || v == order[|order| - 1]
  {
    assert order == order[..|order| - 1] + [order[|order| - 1]];
  }

  lemma {:induction false} OfNodeRow(order: seq<string>, files: Files, k: nat, node: string)
    requires Distinct(order)
    ensures OfNode(Row(order, files, k), node) == if node in order then Cell(files, node, k) else []
  {
    assert OfNode([], node) == [];
    hide OfNode, Cell;
    if order != [] {
      var front, last := order[..|order| - 1], order[|order| - 1];
      LastIsNew(order);
      hide Distinct;
      OfNodeRow(front, files, k, node);
      OfNodeConcat(Row(front, files, k), Cell(files, last, k), node);
      OfNodeCell(files, last, k, node);
      var cell := Cell(files, node, k);
      if node == last {
        assert [] + cell == cell;
      } else {
        assert OfNode(Row(front, files, k), node) + [] == OfNode(Row(front, files, k), node);
      }
    }
  }

  /** The first `n` entries, or all of them. */
  function Upto(entries: seq<Entry>, n: nat): seq<Entry> {
    if n < |entries| then entries[..n] else entries
  }

  lemma UptoNext(files: Files, node: string, n: nat)
    ensures Upto(NodeEntries(files, node), n) + Cell(files, node, n) == Upto(NodeEntries(files, node), n + 1)
  {
  }

  lemma NoRowsOfNode(order: seq<string>, files: Files, node: string)
    ensures OfNode(Rows(order, files, 0), node) == Upto(NodeEntries(files, node), 0)
  {
  }

  lemma {:induction false} OfNodeRows(order: seq<string>, files: Files, n: nat, node: string)
    requires Distinct(order) && node in order
    ensures OfNode(Rows(order, files, n), node) == Upto(NodeEntries(files, node), n)
    decreases n
  {
    hide Rows, Row, Distinct, OfNode, Cell, NodeEntries, Upto;
    if n == 0 {
      NoRowsOfNode(order, files, node);
    } else {
      var before, row := Rows(order, files, n - 1), Row(order, files, n - 1);
      OfNodeRows(order, files, n - 1, node);
      OfNodeRow(order, files, n - 1, node);
      NextRow(order, files, n - 1);
      assert Rows(order, files, n) == before + row;
      OfNodeConcat(before, row, node);
      UptoNext(files, node, n - 1);
    }
  }

  lemma {:induction false} HeightCovers(order: seq<string>, files: Files, node: string)
    requires node in order
    ensures |LinesOf(files, node)| <= Height(order, files)
  {
    if order[|order| - 1] != node {
      assert order == order[..|order| - 1] + [order[|order| - 1]];
      HeightCovers(order[..|order| - 1], files, node);
    }
  }

  /** Whatever the traversal order, each node's lines come out complete and in
      their own order. */
  lemma NodeOrderKept(order: seq<string>, files: Files, node: string)
    requires Traverses(order, files) && node in files
    ensures OfNode(StableSort(Collected(order, files)), node) == NodeEntries(files, node)
  {
    StableSortIsStable(Collected(order, files));
    SortTransposes(order, files, StableSort(Collected(order, files)));
    OfNodeRows(order, files, Height(order, files), node);
    HeightCovers(order, files, node);
  }

  /** The lines of one node are the lines of its file. */
  lemma NodeLinesKept(order: seq<string>, files: Files, node: string, lines: seq<string>)
    requires Traverses(order, files) && node in files && files[node] == Some(lines)
    ensures var shown := OfNode(StableSort(Collected(order, files)), node);
            && |shown| == |lines|
            && forall k :: 0 <= k < |lines| ==> shown[k].node == node && shown[k].line == lines[k] && shown[k].lineNum == k
  {
    NodeOrderKept(order, files, node);
  }

  // ------------------------------------------------------------------------ tail

  /** `--tail n` keeps the last `n` entries; zero or less keeps all. */
  function Tail(entries: seq<Entry>, n: int): seq<Entry> {
    if 0 < n < |entries| then entries[|entries| - n..] else entries
  }

  /** The tail is the end of the entries, of the length asked for if there are
      that many. */
  lemma TailMeaning(entries: seq<Entry>, n: int)
    ensures n <= 0 ==> Tail(entries, n) == entries
    ensures n > 0 ==> |Tail(entries, n)| == if |entries| < n then |entries| else n
    ensures IsSuffix(Tail(entries, n), entries)
  {
  }

  ghost predicate IsSuffix(a: seq<Entry>, b: seq<Entry>) {
    |a| <= |b| && a == b[|b| - |a|..]
  }

  /** After the tail the lines shown of each node are the end of its file. */
  lemma TailShowsSuffixes(order: seq<string>, files: Files, n: int, node: string)
    requires Traverses(order, files) && node in files
    ensures IsSuffix(OfNode(Tail(StableSort(Collected(order, files)), n), node), NodeEntries(files, node))
  {
    hide StableSort, Collected, NodeEntries, OfNode, Traverses;
    NodeOrderKept(order, files, node);
    TailOfNode(StableSort(Collected(order, files)), n, node);
  }

  /** Dropping the first entries drops the first ones of each node. */
  lemma TailOfNode(entries: seq<Entry>, n: int, node: string)
    ensures IsSuffix(OfNode(Tail(entries, n), node), OfNode(entries, node))
  {
    hide OfNode;
    if 0 < n < |entries| {
      var cut := |entries| - n;
      assert entries == entries[..cut] + entries[cut..];
      OfNodeConcat(entries[..cut], entries[cut..], node);
    }
  }

  // ------------------------------------------- when the map order shows in the tail

  /** The entries that the tail drops. */
  function Head(entries: seq<Entry>, n: int): seq<Entry> {
    if 0 < n < |entries| then entries[..|entries| - n] else []
  }

  lemma HeadAndTail(entries: seq<Entry>, n: int)
    ensures multiset(Head(entries, n)) + multiset(Tail(entries, n)) == multiset(entries)
  {
    if 0 < n < |entries| {
      assert entries == entries[..|entries| - n] + entries[|entries| - n..];
    }
  }

  /** The merged entries before the tail. */
  function Output(order: seq<string>, files: Files): seq<Entry> {
    Rows(order, files, Height(order, files))
  }

  /** The shown lines are the same for every traversal order. */
  ghost predicate OrderDoesNotShow(files: Files, n: int) {
    forall o, p :: Traverses(o, files) && Traverses(p, files) ==>
      multiset(Tail(Output(o, files), n)) == multiset(Tail(Output(p, files), n))
  }

  /** The lines that the files have up to line number `r`. */
  function LinesUpto(order: seq<string>, files: Files, r: nat): nat
  {
    if order == [] then 0
    else
      var length := |LinesOf(files, order[|order| - 1])|;
      LinesUpto(order[..|order| - 1], files, r) + (if length < r then length else r)
  }

  /** The lines that the files have in all. */
  function LineCount(order: seq<string>, files: Files): nat
  {
    if order == [] then 0 else LineCount(order[..|order| - 1], files) + |LinesOf(files, order[|order| - 1])|
  }

  /** The lines that the tail drops. */
  function DroppedLines(order: seq<string>, files: Files, n: int): nat {
    if 0 < n < LineCount(order, files) then LineCount(order, files) - n else 0
  }

  /** The tail drops whole rows only: as many lines as the files have up to some
      line number. */
  ghost predicate CutsBetweenRows(order: seq<string>, files: Files, n: int) {
    exists r: nat :: LinesUpto(order, files, r) == DroppedLines(order, files, n)
  }

  lemma {:induction false} NextRowLength(order: seq<string>, files: Files, r: nat)
    ensures LinesUpto(order, files, r + 1) == LinesUpto(order, files, r) + |Row(order, files, r)|
  {
    if order != [] {
      NextRowLength(order[..|order| - 1], files, r);
    }
  }

  lemma {:induction false} NoLinesUpto(order: seq<string>, files: Files)
    ensures LinesUpto(order, files, 0) == 0
  {
    if order != [] {
      NoLinesUpto(order[..|order| - 1], files);
    }
  }

  lemma {:induction false} RowsLength(order: seq<string>, files: Files, r: nat)
    ensures |Rows(order, files, r)| == LinesUpto(order, files, r)
    decreases r
  {
    hide Row, LinesUpto;
    if r == 0 {
      NoLinesUpto(order, files);
    } else {
      RowsLength(order, files, r - 1);
      NextRow(order, files, r - 1);
      NextRowLength(order, files, r - 1);
    }
  }

  lemma {:induction false} AllLinesUpto(order: seq<string>, files: Files, r: nat)
    requires r >= Height(order, files)
    ensures LinesUpto(order, files, r) == LineCount(order, files)
  {
    if order != [] {
      AllLinesUpto(order[..|order| - 1], files, r);
    }
  }

  lemma HeadLength(order: seq<string>, files: Files, n: int)
    ensures |Output(order, files)| == LineCount(order, files)
    ensures |Head(Output(order, files), n)| == DroppedLines(order, files, n)
  {
    hide Rows, LinesUpto, LineCount, Height;
    RowsLength(order, files, Height(order, files));
    AllLinesUpto(order, files, Height(order, files));
  }

  lemma {:induction false} OfNodeCounts(entries: seq<Entry>, e: Entry)
    ensures multiset(entries)[e] == multiset(OfNode(entries, e.node))[e]
  {
    if entries != [] {
      OfNodeCounts(entries[..|entries| - 1], e);
      assert entries == entries[..|entries| - 1] + [entries[|entries| - 1]];
    }
  }

  /** A row holds the same lines for every traversal order. */
  lemma RowSameLines(o: seq<string>, p: seq<string>, files: Files, k: nat)
    requires Traverses(o, files) && Traverses(p, files)
    ensures multiset(Row(o, files, k)) == multiset(Row(p, files, k))
  {
    forall e: Entry
      ensures multiset(Row(o, files, k))[e] == multiset(Row(p, files, k))[e]
    {
      OfNodeCounts(Row(o, files, k), e);
      OfNodeCounts(Row(p, files, k), e);
      OfNodeRow(o, files, k, e.node);
      OfNodeRow(p, files, k, e.node);
    }
  }

  lemma {:induction false} RowsSameLines(o: seq<string>, p: seq<string>, files: Files, n: nat)
    requires Traverses(o, files) && Traverses(p, files)
    ensures multiset(Rows(o, files, n)) == multiset(Rows(p, files, n))
    ensures |Rows(o, files, n)| == |Rows(p, files, n)|
  {
    hide Row, Traverses;
    if n > 0 {
      RowsSameLines(o, p, files, n - 1);
      RowSameLines(o, p, files, n - 1);
    }
    assert |Rows(o, files, n)| == |multiset(Rows(o, files, n))|;
    assert |Rows(p, files, n)| == |multiset(Rows(p, files, n))|;
  }

  lemma {:induction false} HeightIsALength(o: seq<string>, files: Files)
    ensures Height(o, files) == 0 || exists v :: v in o && |LinesOf(files, v)| == Height(o, files)
  {
    if o != [] {
      HeightIsALength(o[..|o| - 1], files);
      assert o == o[..|o| - 1] + [o[|o| - 1]];
      assert o[|o| - 1] in o;
    }
  }

  lemma SameHeight(o: seq<string>, p: seq<string>, files: Files)
    requires Traverses(o, files) && Traverses(p, files)
    ensures Height(o, files) == Height(p, files)
  {
    HeightIsALength(o, files);
    HeightIsALength(p, files);
    if v :| v in o && |LinesOf(files, v)| == Height(o, files) {
      HeightCovers(p, files, v);
    }
    if v :| v in p && |LinesOf(files, v)| == Height(p, files) {
      HeightCovers(o, files, v);
    }
  }

  lemma {:induction false} RowsPrefix(order: seq<string>, files: Files, r: nat, n: nat)
    requires r <= n
    ensures |Rows(order, files, r)| <= |Rows(order, files, n)|
    ensures Rows(order, files, n)[..|Rows(order, files, r)|] == Rows(order, files, r)
  {
    if r < n {
      RowsPrefix(order, files, r, n - 1);
    }
  }

  lemma {:induction false} RowsBeyondHeight(order: seq<string>, files: Files, n: nat)
    requires n >= Height(order, files)
    ensures Rows(order, files, n) == Output(order, files)
  {
    hide Row;
    if n > Height(order, files) {
      RowsBeyondHeight(order, files, n - 1);
      RowAboveHeight(order, files, n - 1);
    }
  }

  /** As many rows as are dropped are the dropped entries. */
  lemma HeadIsRows(order: seq<string>, files: Files, n: int, r: nat)
    requires |Rows(order, files, r)| == |Head(Output(order, files), n)|
    ensures Head(Output(order, files), n) == Rows(order, files, r)
  {
    var h := Height(order, files);
    if r <= h {
      RowsPrefix(order, files, r, h);
    } else {
      RowsBeyondHeight(order, files, r);
    }
  }

  lemma WholeRowsHideOrder(o: seq<string>, p: seq<string>, files: Files, n: int)
    requires Traverses(o, files) && Traverses(p, files) && CutsBetweenRows(o, files, n)
    ensures multiset(Tail(Output(o, files), n)) == multiset(Tail(Output(p, files), n))
  {
    hide Traverses, Rows, Height, LinesUpto, DroppedLines, Output, Head, Tail;
    var r: nat :| LinesUpto(o, files, r) == DroppedLines(o, files, n);
    RowsLength(o, files, r);
    HeadLength(o, files, n);
    SameOutput(o, p, files, n);
    SameHeight(o, p, files);
    RowsSameLines(o, p, files, Height(o, files));
    RowsSameLines(o, p, files, r);
    HeadIsRows(o, files, n, r);
    HeadIsRows(p, files, n, r);
    HeadAndTail(Output(o, files), n);
    HeadAndTail(Output(p, files), n);
    Cancel(multiset(Rows(o, files, r)), multiset(Tail(Output(o, files), n)), multiset(Tail(Output(p, files), n)));
  }

  lemma Cancel(m: multiset<Entry>, x: multiset<Entry>, y: multiset<Entry>)
    requires m + x == m + y
    ensures x == y
  {
    assert x == (m + x) - m;
    assert y == (m + y) - m;
  }

  function Reversed<T>(s: seq<T>): (r: seq<T>)
    ensures |r| == |s|
    ensures forall i :: 0 <= i < |s| ==> r[i] == s[|s| - 1 - i]
  {
    if s == [] then [] else [s[|s| - 1]] + Reversed(s[..|s| - 1])
  }

  lemma {:induction false} RowOfConcat(a: seq<string>, b: seq<string>, files: Files, k: nat)
    ensures Row(a + b, files, k) == Row(a, files, k) + Row(b, files, k)
  {
    hide Cell;
    if b == [] {
      assert a + b == a;
    } else {
      var front, last := b[..|b| - 1], b[|b| - 1];
      RowOfConcat(a, front, files, k);
      assert (a + b)[..|a + b| - 1] == a + front;
      Regroup(Row(a, files, k), Row(front, files, k), Cell(files, last, k));
    }
  }

  lemma ReversedEnd(a: seq<Entry>, c: seq<Entry>)
    requires |c| <= 1
    ensures Reversed(a + c) == c + Reversed(a)
  {
    if c == [] {
      assert a + c == a;
    } else {
      assert (a + c)[..|a|] == a;
    }
  }

  lemma RowOfOne(node: string, files: Files, k: nat)
    ensures Row([node], files, k) == Cell(files, node, k) && |Cell(files, node, k)| <= 1
  {
    assert [node][..0] == [];
    assert Row([], files, k) == [];
  }

  lemma {:induction false} RowReversed(order: seq<string>, files: Files, k: nat)
    ensures Row(Reversed(order), files, k) == Reversed(Row(order, files, k))
  {
    hide Cell;
    if order != [] {
      var front, last := order[..|order| - 1], order[|order| - 1];
      RowReversed(front, files, k);
      RowOfConcat([last], Reversed(front), files, k);
      RowOfOne(last, files, k);
      ReversedEnd(Row(front, files, k), Cell(files, last, k));
    }
  }

  lemma ReversedTraverses(order: seq<string>, files: Files)
    requires Traverses(order, files)
    ensures Traverses(Reversed(order), files)
  {
    var r := Reversed(order);
    assert forall i :: 0 <= i < |order| ==> order[i] == r[|order| - 1 - i];
  }

  lemma {:induction false} RowNodes(order: seq<string>, files: Files, k: nat)
    ensures forall i :: 0 <= i < |Row(order, files, k)| ==> Row(order, files, k)[i].node in order
  {
    if order != [] {
      RowNodes(order[..|order| - 1], files, k);
      assert order == order[..|order| - 1] + [order[|order| - 1]];
    }
  }

  /** A row has no line twice. */
  lemma {:induction false} RowDistinct(order: seq<string>, files: Files, k: nat)
    requires Distinct(order)
    ensures forall i, j :: 0 <= i < j < |Row(order, files, k)| ==> Row(order, files, k)[i] != Row(order, files, k)[j]
  {
    if order != [] {
      LastIsNew(order);
      RowDistinct(order[..|order| - 1], files, k);
      RowNodes(order[..|order| - 1], files, k);
    }
  }

  /** A proper part of a list without repetitions is not the same part of the
      reversed list. */
  lemma PartsDiffer(row: seq<Entry>, c: nat)
    requires 0 < c < |row| && forall i, j :: 0 <= i < j < |row| ==> row[i] != row[j]
    ensures multiset(row[..c]) != multiset(Reversed(row)[..c])
  {
    var part := Reversed(row)[..c];
    assert row[..c][0] in multiset(row[..c]);
    forall i | 0 <= i < c
      ensures part[i] != row[0]
    {
      assert part[i] == row[|row| - 1 - i];
    }
    assert row[0] !in part;
    assert row[0] !in multiset(part);
  }

  lemma HeadPrefix(order: seq<string>, files: Files, n: int, m: nat)
    requires |Head(Output(order, files), n)| <= |Rows(order, files, m)|
    ensures Head(Output(order, files), n) == Rows(order, files, m)[..|Head(Output(order, files), n)|]
  {
    var h := Height(order, files);
    if m <= h {
      RowsPrefix(order, files, m, h);
    } else {
      RowsBeyondHeight(order, files, m);
    }
    hide Rows, Height;
  }

  /** A cut that falls into row `r` drops the rows before and a part of it. */
  lemma HeadInRow(order: seq<string>, files: Files, n: int, r: nat)
    requires |Rows(order, files, r)| <= |Head(Output(order, files), n)| <= |Rows(order, files, r + 1)|
    ensures |Head(Output(order, files), n)| - |Rows(order, files, r)| <= |Row(order, files, r)|
    ensures Head(Output(order, files), n) ==
            Rows(order, files, r) + Row(order, files, r)[..|Head(Output(order, files), n)| - |Rows(order, files, r)|]
  {
    hide Row, Height, Rows, Head, Output;
    HeadPrefix(order, files, n, r + 1);
    NextRow(order, files, r);
  }

  /** If the cut falls inside row `r`, the first line of the row is dropped in one
      order and shown in the reversed one. */
  lemma SplitRowShowsOrder(order: seq<string>, files: Files, n: int, r: nat)
    requires Traverses(order, files)
    requires var cut := |Head(Output(order, files), n)|;
             |Rows(order, files, r)| < cut < |Rows(order, files, r + 1)|
    ensures Traverses(Reversed(order), files)
    ensures multiset(Tail(Output(order, files), n)) != multiset(Tail(Output(Reversed(order), files), n))
  {
    var back := Reversed(order);
    ReversedTraverses(order, files);
    assert Distinct(order);
    hide Traverses, Height, Row, Distinct;
    var c := |Head(Output(order, files), n)| - |Rows(order, files, r)|;
    SameOutput(order, back, files, n);
    RowsSameLines(order, back, files, r);
    RowsSameLines(order, back, files, r + 1);
    HeadInRow(order, files, n, r);
    HeadInRow(back, files, n, r);
    RowReversed(order, files, r);
    RowDistinct(order, files, r);
    PartsDiffer(Row(order, files, r), c);
    hide Rows, Head, Tail, Output;
    HeadsDiffer(multiset(Rows(order, files, r)), multiset(Row(order, files, r)[..c]),
                multiset(Reversed(Row(order, files, r))[..c]),
                multiset(Tail(Output(order, files), n)), multiset(Tail(Output(back, files), n)));
  }

  lemma HeadsDiffer(rows: multiset<Entry>, part: multiset<Entry>, other: multiset<Entry>,
                    tail: multiset<Entry>, otherTail: multiset<Entry>)
    requires (rows + part) + tail == (rows + other) + otherTail && part != other
    ensures tail != otherTail
  {
    if tail == otherTail {
      assert tail + (rows + part) == (rows + part) + tail;
      assert tail + (rows + other) == (rows + other) + otherTail;
      Cancel(tail, rows + part, rows + other);
      Cancel(rows, part, other);
    }
  }

  /** All orders merge the same lines, and drop equally many. */
  lemma SameOutput(o: seq<string>, p: seq<string>, files: Files, n: int)
    requires Traverses(o, files) && Traverses(p, files)
    ensures multiset(Output(o, files)) == multiset(Output(p, files))
    ensures |Head(Output(o, files), n)| == |Head(Output(p, files), n)|
    ensures multiset(Head(Output(o, files), n)) + multiset(Tail(Output(o, files), n)) ==
            multiset(Head(Output(p, files), n)) + multiset(Tail(Output(p, files), n))
  {
    hide Traverses, Height, Rows;
    SameHeight(o, p, files);
    RowsSameLines(o, p, files, Height(o, files));
    HeadAndTail(Output(o, files), n);
    HeadAndTail(Output(p, files), n);
  }

  /** Every cut meets a border between rows or falls inside one. */
  lemma {:induction false} CutSomewhere(order: seq<string>, files: Files, cut: nat, n: nat)
    requires cut <= |Rows(order, files, n)|
    ensures exists r: nat :: |Rows(order, files, r)| == cut
                             || |Rows(order, files, r)| < cut < |Rows(order, files, r + 1)|
  {
    hide Row;
    if cut == |Rows(order, files, n)| {
    } else if cut < |Rows(order, files, n)| && n > 0 {
      if |Rows(order, files, n - 1)| < cut {
        assert |Rows(order, files, n - 1)| < cut < |Rows(order, files, n - 1 + 1)|;
      } else {
        CutSomewhere(order, files, cut, n - 1);
      }
    }
  }

  /** The shown lines do not depend on the order in which the map of files is
      traversed exactly when the tail cuts between two rows. */
  lemma OrderDoesNotShowIff(order: seq<string>, files: Files, n: int)
    requires Traverses(order, files)
    ensures OrderDoesNotShow(files, n) <==> CutsBetweenRows(order, files, n)
  {
    hide Traverses, Rows, Height, Head, Tail, LinesUpto, DroppedLines;
    if CutsBetweenRows(order, files, n) {
      forall o, p | Traverses(o, files) && Traverses(p, files)
        ensures multiset(Tail(Output(o, files), n)) == multiset(Tail(Output(p, files), n))
      {
        WholeRowsHideOrder(order, o, files, n);
        WholeRowsHideOrder(order, p, files, n);
      }
    } else {
      CutWithin(order, files, n);
      HeadLength(order, files, n);
      forall r: nat
        ensures |Rows(order, files, r)| != |Head(Output(order, files), n)|
      {
        RowsLength(order, files, r);
      }
      CutSomewhere(order, files, |Head(Output(order, files), n)|, Height(order, files));
      var r: nat :| |Rows(order, files, r)| < |Head(Output(order, files), n)| < |Rows(order, files, r + 1)|;
      SplitRowShowsOrder(order, files, n, r);
      assert !OrderDoesNotShow(files, n);
    }
  }

  lemma CutWithin(order: seq<string>, files: Files, n: int)
    ensures |Head(Output(order, files), n)| <= |Rows(order, files, Height(order, files))|
  {
  }

  // --------------------------------------------------------------- the procedure

  lemma SortedByLine(entries: seq<Entry>, out: seq<Entry>)
    requires StablySorted(entries, out)
    ensures ByLine(out)
  {
  }

  lemma TailByLine(entries: seq<Entry>, n: int)
    requires ByLine(entries)
    ensures ByLine(Tail(entries, n))
  {
  }

  lemma NothingCollected(files: Files)
    ensures Collected([], files) == []
  {
  }

  lemma CollectedNext(order: seq<string>, files: Files, node: string)
    ensures Collected(order + [node], files) == Collected(order, files) + NodeEntries(files, node)
    ensures node in files && files[node].None? ==> Collected(order + [node], files) == Collected(order, files)
  {
    assert (order + [node])[..|order|] == order;
  }

  /** `streamMultipleLogFiles` up to printing: reads the files in the order the
      map yields them, sorts, and cuts. */
  method MergedLogs(files: Files, tail: int) returns (shown: seq<Entry>, ghost order: seq<string>)
    ensures Traverses(order, files)
    ensures shown == Tail(Rows(order, files, Height(order, files)), tail)
    ensures tail <= 0 ==> multiset(shown) == multiset(Collected(order, files))
    ensures ByLine(shown)
    ensures forall node :: node in files ==> IsSuffix(OfNode(shown, node), NodeEntries(files, node))
    ensures forall node :: node in files && tail <= 0 ==> OfNode(shown, node) == NodeEntries(files, node)
  {
    hide StableSort, Rows, StablySorted, Collected, NodeEntries;
    NothingCollected(files);
    var entries: seq<Entry> := [];
    order := [];
    var remaining := files.Keys;
    while remaining != {}
      invariant remaining <= files.Keys
      invariant Distinct(order)
      invariant forall node :: node in order <==> node in files && node !in remaining
      invariant entries == Collected(order, files)
      decreases |remaining|
    {
      var node :| node in remaining;
      remaining := remaining - {node};
      CollectedNext(order, files, node);
      order := order + [node];
      if files[node].Some? {
        entries := ReadInto(entries, files, node);
      }
    }
    shown := StableSort(entries);
    StableSortIsStable(entries);
    SortTransposes(order, files, shown);
    SortPermutes(entries, shown);
    forall node | node in files
      ensures IsSuffix(OfNode(Tail(shown, tail), node), NodeEntries(files, node))
      ensures OfNode(shown, node) == NodeEntries(files, node)
    {
      TailShowsSuffixes(order, files, tail, node);
      NodeOrderKept(order, files, node);
    }
    assert ByLine(shown) by {
      SortedByLine(entries, shown);
    }
    hide ByLine, OfNode, IsSuffix;
    TailByLine(shown, tail);
    if tail > 0 && |shown| > tail {
      shown := shown[|shown| - tail..];
    }
  }

  /** Appends the lines of one file, counting them. */
  method ReadInto(entries: seq<Entry>, files: Files, node: string) returns (r: seq<Entry>)
    requires node in files && files[node].Some?
    ensures r == entries + NodeEntries(files, node)
  {
    r := entries;
    var lineNum := 0;
    while lineNum < |files[node].value|
      invariant lineNum <= |files[node].value|
      invariant r == entries + NodeEntries(files, node)[..lineNum]
    {
      r := r + [Entry(node, files[node].value[lineNum], lineNum)];
      lineNum := lineNum + 1;
    }
  }
}
