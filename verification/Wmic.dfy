/** The query loop of wmic: batches are fetched, decoded and printed, with one heading for each run of
    rows of the same class. */
module Wmic {
  import opened Text
  import opened Octets
  import opened Wbem
  import opened WbemStream

  /** What is printed of an object: its class name, and the names and values of its properties. */
  datatype Row = Row(cls: string, names: seq<string>, cells: seq<string>)

  function Join(parts: seq<string>, delim: string): string {
    if parts == [] then []
    else if |parts| == 1 then parts[0]
    else Join(parts[..|parts| - 1], delim) + delim + parts[|parts| - 1]
  }

  function Heading(r: Row, delim: string): string {
    "CLASS: " + r.cls + "\n" + Join(r.names, delim) + "\n"
  }

  function Cells(r: Row, delim: string): string {
    Join(r.cells, delim) + "\n"
  }

  // The intended output

  /** A run of rows of one class: its first row, and those after it. */
  datatype Run = Run(head: Row, more: seq<Row>)

  function RowsOf(runs: seq<Run>): seq<Row> {
    if runs == [] then []
    else
      var k := |runs| - 1;
      RowsOf(runs[..k]) + [runs[k].head] + runs[k].more
  }

  /** The runs cover the rows in order, each is of one class, and no two neighbours could be joined. */
  predicate MaximalRuns(runs: seq<Run>, rows: seq<Row>) {
    && RowsOf(runs) == rows
    && (forall i, j :: 0 <= i < |runs| && 0 <= j < |runs[i].more| ==> runs[i].more[j].cls == runs[i].head.cls)
    && (forall i, j :: 0 <= i && j == i + 1 < |runs| ==> runs[i].head.cls != runs[j].head.cls)
  }

  function Runs(rows: seq<Row>): seq<Run> {
    if rows == [] then []
    else
      var k := |rows| - 1;
      AddRow(Runs(rows[..k]), rows[k])
  }

  function AddRow(runs: seq<Run>, r: Row): seq<Run> {
    var k := |runs| - 1;
    if runs != [] && runs[k].head.cls == r.cls
    then runs[k := Run(runs[k].head, runs[k].more + [r])]
    else runs + [Run(r, [])]
  }

  lemma AddRowMaximal(runs: seq<Run>, rows: seq<Row>, r: Row)
    requires MaximalRuns(runs, rows)
    ensures MaximalRuns(AddRow(runs, r), rows + [r])
  {
    var added := AddRow(runs, r);
    var k := |added| - 1;
    if |added| == |runs| {
      assert added[..k] == runs[..k];
      assert RowsOf(added) == RowsOf(runs) + [r];
    } else {
      assert added[..k] == runs;
    }
  }

  lemma {:induction false} RunsAreMaximal(rows: seq<Row>)
    ensures MaximalRuns(Runs(rows), rows)
  {
    if rows != [] {
      var k := |rows| - 1;
      assert rows == rows[..k] + [rows[k]];
      RunsAreMaximal(rows[..k]);
      AddRowMaximal(Runs(rows[..k]), rows[..k], rows[k]);
    }
  }

  function AllCells(rows: seq<Row>, delim: string): string {
    if rows == [] then [] else AllCells(rows[..|rows| - 1], delim) + Cells(rows[|rows| - 1], delim)
  }

  /** One heading for each run, then its rows. */
  function RenderRuns(runs: seq<Run>, delim: string): string {
    if runs == [] then []
    else
      var k := |runs| - 1;
      RenderRuns(runs[..k], delim) + RenderRun(runs[k], delim)
  }

  function RenderRun(run: Run, delim: string): string {
    Heading(run.head, delim) + Cells(run.head, delim) + AllCells(run.more, delim)
  }

  function Render(rows: seq<Row>, delim: string): string {
    RenderRuns(Runs(rows), delim)
  }

  /** The class of the last row printed. */
  function LastClass(rows: seq<Row>): Option<string> {
    if rows == [] then None else Some(rows[|rows| - 1].cls)
  }

  lemma {:induction false} LastRunClass(rows: seq<Row>)
    requires rows != []
    ensures Runs(rows) != [] && Runs(rows)[|Runs(rows)| - 1].head.cls == rows[|rows| - 1].cls
  {
  }

  /** Printing one more row: a heading only if its class differs from the last one's. */
  lemma RenderSnoc(rows: seq<Row>, r: Row, delim: string)
    ensures Render(rows + [r], delim) ==
            Render(rows, delim) +
            ((if LastClass(rows) == Some(r.cls) then [] else Heading(r, delim)) + Cells(r, delim))
  {
    assert (rows + [r])[..|rows|] == rows;
    var runs := Runs(rows);
    if rows != [] {
      LastRunClass(rows);
    }
    if LastClass(rows) == Some(r.cls) {
      ExtendRun(runs, r, delim);
    } else {
      OpenRun(runs, r, delim);
    }
  }

  lemma ExtendRun(runs: seq<Run>, r: Row, delim: string)
    requires runs != []
    ensures var k := |runs| - 1;
            RenderRuns(runs[k := Run(runs[k].head, runs[k].more + [r])], delim) ==
            RenderRuns(runs, delim) + ([] + Cells(r, delim))
  {
    var k := |runs| - 1;
    var more := runs[k].more + [r];
    var extended := runs[k := Run(runs[k].head, more)];
    assert extended[..k] == runs[..k] && more[..|more| - 1] == runs[k].more;
    var before, first := RenderRuns(runs[..k], delim), Heading(runs[k].head, delim) + Cells(runs[k].head, delim);
    var rest := AllCells(runs[k].more, delim);
    assert [] + Cells(r, delim) == Cells(r, delim);
    Associate(first, rest, Cells(r, delim));
    Associate(before, first + rest, Cells(r, delim));
  }

  lemma OpenRun(runs: seq<Run>, r: Row, delim: string)
    ensures RenderRuns(runs + [Run(r, [])], delim) == RenderRuns(runs, delim) + (Heading(r, delim) + Cells(r, delim))
  {
  }

  // The client

  /** A server with a result set, that answers each request with as many rows as it has, up to the number
      asked for. */
  class Server<Class, Inst> {
    const items: seq<Item<Class, Inst>>
    const writer: Writer<Class, Inst>
    const minor: Byte
    var pos: nat

    constructor (items: seq<Item<Class, Inst>>, writer: Writer<Class, Inst>, minor: Byte)
      ensures this.items == items && this.writer == writer && this.minor == minor && pos == 0
    {
      this.items := items;
      this.writer := writer;
      this.minor := minor;
      pos := 0;
    }

    method Next(count: nat) returns (data: Option<Bytes>, n: nat)
      requires pos <= |items|
      modifies this
      ensures n == (if count < |items| - old(pos) then count else |items| - old(pos))
      ensures pos == old(pos) + n
      ensures data == if n == 0 then None else Some(EncodeMessage(writer, items[old(pos)..pos], minor))
    {
      n := if count < |items| - pos then count else |items| - pos;
      var batch := items[pos..pos + n];
      pos := pos + n;
      data := if n == 0 then None else Some(EncodeMessage(writer, batch, minor));
    }
  }

  function Shown<Class, Inst>(show: (Class, Inst) -> Row, items: seq<Item<Class, Inst>>): seq<Row> {
    seq(|items|, i requires 0 <= i < |items| => show(items[i].cls, items[i].inst))
  }

  method PrintJoined(parts: seq<string>, delim: string) returns (s: string)
    ensures s == Join(parts, delim)
  {
    s := [];
    for j := 0 to |parts|
      invariant s == Join(parts[..j], delim)
    {
      assert parts[..j + 1][..j] == parts[..j];
      s := s + (if j == 0 then [] else delim) + parts[j];
    }
    assert parts[..|parts|] == parts;
  }

  method PrintRow(row: Row, className: Option<string>, delim: string) returns (text: string)
    ensures text == (if className == Some(row.cls) then [] else Heading(row, delim)) + Cells(row, delim)
  {
    text := [];
    if className != Some(row.cls) {
      var names := PrintJoined(row.names, delim);
      text := "CLASS: " + row.cls + "\n" + names + "\n";
    }
    var cells := PrintJoined(row.cells, delim);
    text := text + (cells + "\n");
  }

  lemma RenderNext(before: seq<Row>, rows: seq<Row>, i: nat, delim: string)
    requires i < |rows|
    ensures var done := before + rows[..i];
            && Render(before + rows[..i + 1], delim) ==
               Render(done, delim) +
               ((if LastClass(done) == Some(rows[i].cls) then [] else Heading(rows[i], delim)) + Cells(rows[i], delim))
            && LastClass(before + rows[..i + 1]) == Some(rows[i].cls)
  {
    assert before + rows[..i + 1] == before + rows[..i] + [rows[i]];
    RenderSnoc(before + rows[..i], rows[i], delim);
  }

  method PrintRows(rows: seq<Row>, delim: string, ghost before: seq<Row>, out: string, className: Option<string>)
    returns (out': string, className': Option<string>)
    requires out == Render(before, delim) && className == LastClass(before)
    ensures out' == Render(before + rows, delim) && className' == LastClass(before + rows)
  {
    out', className' := out, className;
    assert before + rows[..0] == before;
    for i := 0 to |rows|
      invariant out' == Render(before + rows[..i], delim) && className' == LastClass(before + rows[..i])
    {
      RenderNext(before, rows, i, delim);
      var text := PrintRow(rows[i], className', delim);
      out', className' := out' + text, Some(rows[i].cls);
    }
    assert rows[..|rows|] == rows;
  }

  /** Every batch that the server may send fits a message. */
  ghost predicate AllFit<Class, Inst>(w: Writer<Class, Inst>, items: seq<Item<Class, Inst>>, minor: Byte) {
    forall lo, hi :: 0 <= lo < hi <= |items| ==> Fits(w, items[lo..hi], minor)
  }

  lemma KnownSplit<Class, Inst>(cache: seq<(Guid, Class)>, items: seq<Item<Class, Inst>>, lo: nat, hi: nat)
    requires lo <= hi <= |items| && Known(cache, items[lo..])
    ensures Known(cache, items[lo..hi]) && Known(CacheAfter(cache, items[lo..hi]), items[hi..])
  {
    assert items[lo..] == items[lo..hi] + items[hi..];
    KnownConcat(cache, items[lo..hi], items[hi..]);
  }

  method ReadBatch<Class(!new), Inst(!new)>(enum: Enumeration<Class, Inst>, ghost w: Writer<Class, Inst>,
                                            ghost batch: seq<Item<Class, Inst>>, ghost minor: Byte, data: Bytes, n: nat)
    returns (status: Status, objects: seq<Object<Class, Inst>>)
    requires Undoes(enum.codec, w) && Known(enum.cache, batch) && Fits(w, batch, minor)
    requires data == EncodeMessage(w, batch, minor) && n == |batch|
    modifies enum
    ensures status == Ok && objects == Decoded(batch) && enum.cache == CacheAfter(old(enum.cache), batch)
  {
    MessageRead(enum.codec, w, enum.cache, batch, minor);
    status, objects := enum.Parse(data, n);
  }

  /** IEnumWbemClassObject_SmartNext: one request, and the decoding of its answer. */
  method SmartNext<Class(!new), Inst(!new)>(server: Server<Class, Inst>, enum: Enumeration<Class, Inst>, count: nat)
    returns (status: Status, objects: seq<Object<Class, Inst>>)
    requires server.pos <= |server.items| && Undoes(enum.codec, server.writer)
    requires AllFit(server.writer, server.items, server.minor)
    requires Known(enum.cache, server.items[server.pos..])
    modifies server, enum
    ensures server.pos == old(server.pos) + |objects| <= |server.items|
    ensures |objects| == (if count < |server.items| - old(server.pos) then count else |server.items| - old(server.pos))
    ensures status == Ok && objects == Decoded(server.items[old(server.pos)..server.pos])
    ensures Known(enum.cache, server.items[server.pos..])
  {
    var data, n := server.Next(count);
    ghost var batch := server.items[old(server.pos)..server.pos];
    KnownSplit(enum.cache, server.items, old(server.pos), server.pos);
    if data.None? {
      return Ok, [];
    }
    status, objects := ReadBatch(enum, server.writer, batch, server.minor, data.value, n);
  }

  function RowOf<Class, Inst>(show: (Class, Inst) -> Row, o: Object<Class, Inst>): Row {
    match o.cls
    case None => Row([], [], [])
    case Some(cls) => show(cls, o.inst)
  }

  function RowsOfObjects<Class, Inst>(show: (Class, Inst) -> Row, objects: seq<Object<Class, Inst>>): seq<Row> {
    seq(|objects|, i requires 0 <= i < |objects| => RowOf(show, objects[i]))
  }

  lemma ShownNext<Class, Inst>(show: (Class, Inst) -> Row, items: seq<Item<Class, Inst>>, lo: nat, hi: nat)
    requires lo <= hi <= |items|
    ensures Shown(show, items[..lo]) + RowsOfObjects(show, Decoded(items[lo..hi])) == Shown(show, items[..hi])
  {
  }

  /** The do-while loop of wmic's main, for any batch size: what it prints is the rendering of all rows,
      whatever the batch size and whichever classes the server leaves out. */
  method Query<Class(!new), Inst(!new)>(server: Server<Class, Inst>, enum: Enumeration<Class, Inst>, cnt: nat,
                                        show: (Class, Inst) -> Row, delim: string) returns (out: string)
    requires cnt > 0
    requires server.pos == 0 && enum.cache == [] && Undoes(enum.codec, server.writer)
    requires AllFit(server.writer, server.items, server.minor) && Known([], server.items)
    modifies server, enum
    ensures out == Render(Shown(show, server.items), delim)
  {
    out := [];
    var className, more := None, true;
    assert server.items[0..] == server.items;
    while more
      invariant 0 <= server.pos <= |server.items|
      invariant !more ==> server.pos == |server.items|
      invariant Known(enum.cache, server.items[server.pos..])
      invariant out == Render(Shown(show, server.items[..server.pos]), delim)
      invariant className == LastClass(Shown(show, server.items[..server.pos]))
      decreases |server.items| - server.pos, more
    {
      ghost var lo := server.pos;
      var status, objects := SmartNext(server, enum, cnt);
      if objects == [] {
        break;
      }
      var rows := RowsOfObjects(show, objects);
      ghost var before := Shown(show, server.items[..lo]);
      ShownNext(show, server.items, lo, server.pos);
      out, className := PrintRows(rows, delim, before, out, className);
      more := |objects| == cnt;
    }
    assert server.items[..|server.items|] == server.items;
  }
}
