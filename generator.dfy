/**
 * The table derivations of the process-control-strategy generator: the
 * unit-operation x CQA control matrix, the CPP/IPC parameter view, the
 * phase-scoped acceptance criteria, the per-unit-operation parameter
 * groups, the per-unit-operation narrative and the phase justification.
 */
module Generator {
  import opened Strings
  import opened Frames

  /** The development phases, in order. */
  const PhaseOrder: seq<string> := ["Preclinical", "Phase 1", "Phase 2", "Phase 3/PPQ"]

  // ------------------------------------------------------------------
  // Control matrix
  // ------------------------------------------------------------------

  /** The placeholder of a matrix cell with no declared relationship (an em dash). */
  const NoRelation: string := "\U{2014}"

  /** The name given to the row axis when the matrix becomes a table. */
  const IndexColumn: string := "Unit Operation"

  /** Rows are unit operations, columns are CQAs. */
  datatype Matrix = Matrix(unitOps: seq<string>, cqas: seq<string>, cells: seq<seq<Cell>>)

  predicate Shaped(m: Matrix)
  {
    |m.cells| == |m.unitOps| && forall i :: 0 <= i < |m.cells| ==> |m.cells[i]| == |m.cqas|
  }

  /** A mapping row names the pair (u, c). */
  predicate Targets(row: Row, u: string, c: string)
  {
    Get(row, "UnitOp") == Str(u) && Get(row, "CQA") == Str(c)
  }

  /** What a matching mapping row writes: its ControlType, "Monitors" when the table has no such column. */
  function WrittenType(row: Row): Cell
  {
    GetOr(row, "ControlType", Str("Monitors"))
  }

  /** The cell (u, c) once all of `rows` have been applied: the last writer for the pair wins. */
  function CellAfter(rows: seq<Row>, u: string, c: string): Cell
  {
    if rows == [] then Str(NoRelation)
    else if Targets(rows[|rows| - 1], u, c) then WrittenType(rows[|rows| - 1])
    else CellAfter(rows[..|rows| - 1], u, c)
  }

  /**
   * make_control_matrix: a grid over the distinct unit operations and the
   * distinct CQAs, filled with the placeholder, then overwritten by every
   * mapping row whose pair lies on both axes.
   */
  method ControlMatrix(unitops: Frame, cqaTable: Frame, mapping: Frame) returns (m: Matrix, table: Frame)
    requires "UnitOp" in unitops.columns && "CQA" in cqaTable.columns
    requires Str(IndexColumn) !in Column(cqaTable, "CQA")
    ensures m.unitOps == DistinctNonNull(Column(unitops, "UnitOp"))
    ensures m.cqas == DistinctNonNull(Column(cqaTable, "CQA"))
    ensures Shaped(m)
    ensures forall i, j :: 0 <= i < |m.unitOps| && 0 <= j < |m.cqas| ==>
              m.cells[i][j] == CellAfter(mapping.rows, m.unitOps[i], m.cqas[j])
    ensures table == MatrixFrame(m)
  {
    var uops := DistinctNonNull(Column(unitops, "UnitOp"));
    var cqas := DistinctNonNull(Column(cqaTable, "CQA"));
    var cells := FillMatrix(uops, cqas, mapping.rows);
    m := Matrix(uops, cqas, cells);
    table := MatrixFrame(m);
  }

  /** The grid of placeholders, overwritten by every mapping row whose pair lies on both axes. */
  method FillMatrix(uops: seq<string>, cqas: seq<string>, mapping: seq<Row>) returns (cells: seq<seq<Cell>>)
    requires Distinct(uops) && Distinct(cqas)
    ensures |cells| == |uops| && forall i :: 0 <= i < |cells| ==> |cells[i]| == |cqas|
    ensures forall i, j :: 0 <= i < |uops| && 0 <= j < |cqas| ==> cells[i][j] == CellAfter(mapping, uops[i], cqas[j])
  {
    cells := seq(|uops|, _ => seq(|cqas|, _ => Str(NoRelation)));
    for k := 0 to |mapping|
      invariant |cells| == |uops|
      invariant forall i :: 0 <= i < |cells| ==> |cells[i]| == |cqas|
      invariant forall i, j :: 0 <= i < |uops| && 0 <= j < |cqas| ==>
                  cells[i][j] == CellAfter(mapping[..k], uops[i], cqas[j])
    {
      var row := mapping[k];
      var u := Get(row, "UnitOp");
      var c := Get(row, "CQA");
      var ctype := WrittenType(row);
      assert mapping[..k + 1][..k] == mapping[..k];
      if u.Str? && c.Str? && u.value in uops && c.value in cqas {
        var i := FirstIndex(uops, u.value);
        var j := FirstIndex(cqas, c.value);
        cells := cells[i := cells[i][j := ctype]];
      }
    }
    assert mapping[..|mapping|] == mapping;
  }

  /** A pair that no mapping row names keeps the placeholder. */
  lemma {:induction false} CellAfterUnmapped(rows: seq<Row>, u: string, c: string)
    requires forall k :: 0 <= k < |rows| ==> !Targets(rows[k], u, c)
    ensures CellAfter(rows, u, c) == Str(NoRelation)
  {
    if rows != [] {
      CellAfterUnmapped(rows[..|rows| - 1], u, c);
    }
  }

  /** The last mapping row naming a pair decides its cell. */
  lemma {:induction false} CellAfterLastWriter(rows: seq<Row>, u: string, c: string, k: nat)
    requires k < |rows| && Targets(rows[k], u, c)
    requires forall l :: k < l < |rows| ==> !Targets(rows[l], u, c)
    ensures CellAfter(rows, u, c) == WrittenType(rows[k])
  {
    if k < |rows| - 1 {
      CellAfterLastWriter(rows[..|rows| - 1], u, c, k);
    }
  }

  /** A row that does not name the pair can be dropped from anywhere without changing the cell. */
  lemma {:induction false} CellAfterSkipsRow(before: seq<Row>, r: Row, after: seq<Row>, u: string, c: string)
    requires !Targets(r, u, c)
    ensures CellAfter(before + [r] + after, u, c) == CellAfter(before + after, u, c)
    decreases |after|
  {
    if after == [] {
      assert (before + [r] + after)[..|before| + 1 - 1] == before;
      assert before + after == before;
    } else {
      var n := |after| - 1;
      assert (before + [r] + after)[..|before| + 1 + n] == before + [r] + after[..n];
      assert (before + after)[..|before| + n] == before + after[..n];
      CellAfterSkipsRow(before, r, after[..n], u, c);
    }
  }

  /** A mapping row whose UnitOp or CQA is off the matrix axes changes no cell and raises nothing. */
  lemma OffAxisRowIsIgnored(uops: seq<string>, cqas: seq<string>, before: seq<Row>, r: Row, after: seq<Row>)
    requires !(Get(r, "UnitOp").Str? && Get(r, "UnitOp").value in uops && Get(r, "CQA").Str? && Get(r, "CQA").value in cqas)
    ensures forall u, c :: u in uops && c in cqas ==>
              CellAfter(before + [r] + after, u, c) == CellAfter(before + after, u, c)
  {
    forall u, c | u in uops && c in cqas
      ensures CellAfter(before + [r] + after, u, c) == CellAfter(before + after, u, c)
    {
      CellAfterSkipsRow(before, r, after, u, c);
    }
  }

  /** Without a ControlType column every cell is the placeholder or "Monitors". */
  lemma {:induction false} CellAfterWithoutControlType(rows: seq<Row>, u: string, c: string)
    requires forall k :: 0 <= k < |rows| ==> "ControlType" !in rows[k]
    ensures CellAfter(rows, u, c) == Str(NoRelation) || CellAfter(rows, u, c) == Str("Monitors")
  {
    if rows != [] && !Targets(rows[|rows| - 1], u, c) {
      CellAfterWithoutControlType(rows[..|rows| - 1], u, c);
    }
  }

  function MatrixRow(m: Matrix, i: nat): Row
    requires Shaped(m) && i < |m.unitOps|
  {
    (map c | c in m.cqas :: m.cells[i][FirstIndex(m.cqas, c)])[IndexColumn := Str(m.unitOps[i])]
  }

  /**
   * `mat.reset_index()` with the index named "Unit Operation": the row axis
   * becomes the first column.  pandas refuses a CQA of that same name.
   */
  function MatrixFrame(m: Matrix): (f: Frame)
    requires Shaped(m) && Distinct(m.cqas) && IndexColumn !in m.cqas
    ensures f.columns == [IndexColumn] + m.cqas
    ensures WellFormed(f) && |f.rows| == |m.unitOps|
    ensures forall i :: 0 <= i < |f.rows| ==> f.rows[i][IndexColumn] == Str(m.unitOps[i])
    ensures forall i, j :: 0 <= i < |f.rows| && 0 <= j < |m.cqas| ==> f.rows[i][m.cqas[j]] == m.cells[i][j]
  {
    var f := Frame([IndexColumn] + m.cqas, seq(|m.unitOps|, i requires 0 <= i < |m.unitOps| => MatrixRow(m, i)));
    assert forall j :: 0 <= j < |m.cqas| ==> FirstIndex(m.cqas, m.cqas[j]) == j;
    f
  }

  // ------------------------------------------------------------------
  // CPP / IPC view
  // ------------------------------------------------------------------

  const CppIpcColumns: seq<string> := ["UnitOp", "Parameter", "Class", "IPC", "Target", "Range"]

  /** `[c for c in cols if c in present]`. */
  function KeepPresent(cols: seq<string>, present: seq<string>): (r: seq<string>)
    ensures forall c :: c in r <==> c in cols && c in present
    ensures Distinct(cols) ==> Distinct(r)
    ensures InOrderOf(r, cols)
  {
    if cols == [] then []
    else
      var rest := KeepPresent(cols[1..], present);
      ConsKeepsOrder(cols[0], cols[0] in present, rest, cols[1..]);
      assert [cols[0]] + cols[1..] == cols;
      (if cols[0] in present then [cols[0]] else []) + rest
  }

  /** `r` lists some elements of `cols` in the order in which they stand in `cols`. */
  ghost predicate InOrderOf(r: seq<string>, cols: seq<string>)
  {
    forall i, j :: 0 <= i < j < |r| ==> Precedes(cols, r[i], r[j])
  }

  /** `x` stands at some position of `cols` before a position holding `y`. */
  ghost predicate Precedes(cols: seq<string>, x: string, y: string)
  {
    exists p, q :: 0 <= p < q < |cols| && cols[p] == x && cols[q] == y
  }

  /** Putting an element in front of both lists keeps the order, whether or not it is kept. */
  lemma ConsKeepsOrder(x: string, keep: bool, rest: seq<string>, tail: seq<string>)
    requires forall y :: y in rest ==> y in tail
    requires InOrderOf(rest, tail)
    ensures InOrderOf((if keep then [x] else []) + rest, [x] + tail)
  {
    var r := (if keep then [x] else []) + rest;
    var cols := [x] + tail;
    var d := if keep then 1 else 0;
    forall i, j | 0 <= i < j < |r|
      ensures Precedes(cols, r[i], r[j])
    {
      if keep && i == 0 {
        assert r[j] == rest[j - 1] && rest[j - 1] in tail;
        var k :| 0 <= k < |tail| && tail[k] == rest[j - 1];
        assert cols[0] == r[i] && cols[k + 1] == r[j];
        assert Precedes(cols, r[i], r[j]);
      } else {
        assert r[i] == rest[i - d] && r[j] == rest[j - d];
        assert Precedes(tail, rest[i - d], rest[j - d]);
        var p, q :| 0 <= p < q < |tail| && tail[p] == rest[i - d] && tail[q] == rest[j - d];
        assert cols[p + 1] == r[i] && cols[q + 1] == r[j];
        assert Precedes(cols, r[i], r[j]);
      }
    }
    assert InOrderOf(r, cols);
  }

  /** A parameter row restricted to the kept columns, with Class rendered as text. */
  function ProjectRow(row: Row, keep: seq<string>): Row
  {
    map c | c in keep :: if c == "Class" then Str(Display(Get(row, c))) else Get(row, c)
  }

  function ProjectRows(rows: seq<Row>, keep: seq<string>): seq<Row>
  {
    seq(|rows|, i requires 0 <= i < |rows| => ProjectRow(rows[i], keep))
  }

  /** The projected rows have exactly the kept columns, Class as text and every other cell copied. */
  lemma ProjectRowsFacts(rows: seq<Row>, keep: seq<string>)
    ensures |ProjectRows(rows, keep)| == |rows|
    ensures forall i :: 0 <= i < |rows| ==> ProjectRows(rows, keep)[i].Keys == set c | c in keep
    ensures forall i, c :: 0 <= i < |rows| && c in keep && c != "Class" ==>
              ProjectRows(rows, keep)[i][c] == Get(rows[i], c)
    ensures forall i :: 0 <= i < |rows| && "Class" in keep ==>
              ProjectRows(rows, keep)[i]["Class"] == Str(Display(Get(rows[i], "Class")))
  {
  }

  lemma CppIpcColumnsDistinct()
    ensures Distinct(CppIpcColumns)
  {
  }

  /**
   * make_cpp_ipc_mapping: the parameter table restricted to the fixed columns
   * it has, with Class rendered as text.
   */
  function CppIpcMapping(params: Frame): (out: Frame)
    requires "Class" in params.columns
    ensures out.columns == KeepPresent(CppIpcColumns, params.columns) && "Class" in out.columns
    ensures WellFormed(out) && |out.rows| == |params.rows|
    ensures forall i, c :: 0 <= i < |out.rows| && c in out.columns && c != "Class" ==>
              out.rows[i][c] == Get(params.rows[i], c)
    ensures forall i :: 0 <= i < |out.rows| ==> out.rows[i]["Class"] == Str(Display(Get(params.rows[i], "Class")))
  {
    var keep := KeepPresent(CppIpcColumns, params.columns);
    CppIpcColumnsDistinct();
    ProjectRowsFacts(params.rows, keep);
    Frame(keep, ProjectRows(params.rows, keep))
  }

  // ------------------------------------------------------------------
  // Acceptance criteria
  // ------------------------------------------------------------------

  const AcceptanceColumns: seq<string> := ["CQA", "Method", "Acceptance", "Notes"]

  /** The acceptance column a phase reads; any phase not listed reads the Phase 1 column. */
  function AcceptanceColumn(phase: string): (col: string)
    ensures col == "Phase2_Accept" <==> phase == "Phase 2"
    ensures col == "Phase3_Accept" <==> phase == "Phase 3/PPQ"
    ensures phase !in PhaseOrder ==> col == "Phase1_Accept"
  {
    if phase == "Preclinical" then "Phase1_Accept"
    else if phase == "Phase 1" then "Phase1_Accept"
    else if phase == "Phase 2" then "Phase2_Accept"
    else if phase == "Phase 3/PPQ" then "Phase3_Accept"
    else "Phase1_Accept"
  }

  /** One output row: the CQA (None if absent), and Method, the selected acceptance and Notes ("" if absent). */
  function AcceptanceRow(r: Row, sel: string): (a: Row)
    ensures a.Keys == set c | c in AcceptanceColumns
  {
    map["CQA" := Get(r, "CQA"), "Method" := GetOr(r, "Method", Str("")),
        "Acceptance" := GetOr(r, sel, Str("")), "Notes" := GetOr(r, "Notes", Str(""))]
  }

  /**
   * What make_acceptance_criteria promises for `phase`: one row per CQA row,
   * in input order; a frame built from no rows has no columns either.
   */
  predicate IsAcceptanceTable(out: Frame, cqas: Frame, phase: string)
  {
    && out.columns == (if cqas.rows == [] then [] else AcceptanceColumns)
    && |out.rows| == |cqas.rows|
    && forall i :: 0 <= i < |out.rows| ==> out.rows[i] == AcceptanceRow(cqas.rows[i], AcceptanceColumn(phase))
  }

  /** make_acceptance_criteria: one output row appended per CQA row. */
  method AcceptanceCriteria(cqas: Frame, phase: string) returns (out: Frame)
    ensures IsAcceptanceTable(out, cqas, phase)
    ensures WellFormed(out)
  {
    var sel := AcceptanceColumn(phase);
    var rows: seq<Row> := [];
    for k := 0 to |cqas.rows|
      invariant |rows| == k
      invariant forall i :: 0 <= i < k ==> rows[i] == AcceptanceRow(cqas.rows[i], sel)
    {
      rows := rows + [AcceptanceRow(cqas.rows[k], sel)];
    }
    out := Frame(if rows == [] then [] else AcceptanceColumns, rows);
  }

  /** The acceptance table is a function of the CQA rows and of the column the phase selects. */
  lemma AcceptanceTableDetermined(cqas: Frame, p: string, q: string, a: Frame, b: Frame)
    requires IsAcceptanceTable(a, cqas, p) && IsAcceptanceTable(b, cqas, q)
    requires AcceptanceColumn(p) == AcceptanceColumn(q)
    ensures a == b
  {
    assert a.rows == b.rows;
  }

  /**
   * Preclinical, Phase 1 and every unrecognised phase give the same table;
   * Phase 2 and Phase 3/PPQ each read their own column.
   */
  lemma AcceptancePhases(cqas: Frame, phase: string, a: Frame, b: Frame)
    requires IsAcceptanceTable(a, cqas, phase) && IsAcceptanceTable(b, cqas, "Phase 1")
    ensures phase != "Phase 2" && phase != "Phase 3/PPQ" ==> a == b
    ensures phase == "Phase 2" ==> forall i :: 0 <= i < |a.rows| ==>
              a.rows[i]["Acceptance"] == GetOr(cqas.rows[i], "Phase2_Accept", Str(""))
    ensures phase == "Phase 3/PPQ" ==> forall i :: 0 <= i < |a.rows| ==>
              a.rows[i]["Acceptance"] == GetOr(cqas.rows[i], "Phase3_Accept", Str(""))
  {
    if phase != "Phase 2" && phase != "Phase 3/PPQ" {
      AcceptanceTableDetermined(cqas, phase, "Phase 1", a, b);
    }
  }

  // ------------------------------------------------------------------
  // Parameters grouped by unit operation
  // ------------------------------------------------------------------

  const ParamColumns: seq<string> := ["Parameter", "Class", "IPC", "Target", "Range"]

  /** The heading of a unit operation's parameter table (with an en dash). */
  function Subtitle(u: string): string
  {
    u + " \U{2013} Parameters & Controls"
  }

  predicate RowOf(row: Row, u: string)
  {
    Get(row, "UnitOp") == Str(u)
  }

  /** `df[df["UnitOp"] == u]`: the rows of unit operation u, in order. */
  function RowsFor(rows: seq<Row>, u: string): (r: seq<Row>)
    ensures forall x :: x in r <==> x in rows && RowOf(x, u)
  {
    Filter(rows, (x: Row) => RowOf(x, u))
  }

  /** A parameter row after the missing expected columns are filled with "" and the fixed columns selected. */
  function NormalizedRow(row: Row, present: seq<string>): Row
  {
    map c | c in ParamColumns :: if c in present then Get(row, c) else Str("")
  }

  function ParamFrame(rows: seq<Row>, present: seq<string>): Frame
  {
    Frame(ParamColumns, seq(|rows|, i requires 0 <= i < |rows| => NormalizedRow(rows[i], present)))
  }

  /** The unit operations, in their order, that have at least one parameter row. */
  function ActiveUnitOps(uops: seq<string>, rows: seq<Row>): (r: seq<string>)
    ensures forall u :: u in r <==> u in uops && RowsFor(rows, u) != []
  {
    Filter(uops, (u: string) => RowsFor(rows, u) != [])
  }

  /** `df[c] = v` for a column the frame does not have yet. */
  function WithColumn(f: Frame, c: string, v: Cell): Frame
  {
    Frame(f.columns + [c], seq(|f.rows|, i requires 0 <= i < |f.rows| => f.rows[i][c := v]))
  }

  /** `df[cols]`. */
  function Select(f: Frame, cols: seq<string>): Frame
  {
    Frame(cols, seq(|f.rows|, i requires 0 <= i < |f.rows| => map c | c in cols :: Get(f.rows[i], c)))
  }

  /** The normalising loop: every name of `cols` the frame lacks becomes a column of "". */
  method FillMissing(df: Frame, cols: seq<string>) returns (out: Frame)
    ensures |out.rows| == |df.rows|
    ensures forall c :: c in out.columns <==> c in df.columns || c in cols
    ensures forall i, c :: 0 <= i < |out.rows| && c in df.columns ==> Get(out.rows[i], c) == Get(df.rows[i], c)
    ensures forall i, c :: 0 <= i < |out.rows| && c in cols && c !in df.columns ==> Get(out.rows[i], c) == Str("")
  {
    out := df;
    for k := 0 to |cols|
      invariant |out.rows| == |df.rows|
      invariant forall c :: c in out.columns <==> c in df.columns || c in cols[..k]
      invariant forall i, c :: 0 <= i < |out.rows| && c in df.columns ==> Get(out.rows[i], c) == Get(df.rows[i], c)
      invariant forall i, c :: 0 <= i < |out.rows| && c in cols[..k] && c !in df.columns ==> Get(out.rows[i], c) == Str("")
    {
      assert cols[..k + 1] == cols[..k] + [cols[k]];
      if cols[k] !in out.columns {
        out := WithColumn(out, cols[k], Str(""));
      }
    }
    assert cols[..|cols|] == cols;
  }

  /** One group's table: the expected columns filled in where missing, then selected. */
  method NormalizeGroup(columns: seq<string>, matching: seq<Row>) returns (selected: Frame)
    ensures selected == ParamFrame(matching, columns)
  {
    var df := FillMissing(Frame(columns, matching), ParamColumns);
    selected := Select(df, ParamColumns);
    FilledSelection(df, matching, columns);
  }

  /** The (subtitle, table) pair of each of the given unit operations, in order. */
  function Groups(active: seq<string>, params: Frame): (r: seq<(string, Frame)>)
    ensures |r| == |active|
    ensures forall k :: 0 <= k < |r| ==>
              r[k] == (Subtitle(active[k]), ParamFrame(RowsFor(params.rows, active[k]), params.columns))
  {
    if active == [] then []
    else
      var n := |active| - 1;
      Groups(active[..n], params) + [(Subtitle(active[n]), ParamFrame(RowsFor(params.rows, active[n]), params.columns))]
  }

  /**
   * make_per_unitop_param_tables: nothing when the parameter table has no
   * UnitOp column or no rows; otherwise one (subtitle, table) per unit
   * operation, in unit-operation order, that has parameter rows.
   */
  method PerUnitOpParamTables(unitops: Frame, params: Frame) returns (tables: seq<(string, Frame)>)
    requires "UnitOp" in params.columns && params.rows != [] ==> "UnitOp" in unitops.columns
    ensures "UnitOp" !in params.columns || params.rows == [] ==> tables == []
    ensures "UnitOp" in params.columns && params.rows != [] ==>
              tables == Groups(ActiveUnitOps(DistinctNonNull(Column(unitops, "UnitOp")), params.rows), params)
  {
    tables := [];
    if "UnitOp" !in params.columns || |params.rows| == 0 {
      return;
    }
    var uops := DistinctNonNull(Column(unitops, "UnitOp"));
    for idx := 0 to |uops|
      invariant tables == Groups(ActiveUnitOps(uops[..idx], params.rows), params)
    {
      var u := uops[idx];
      GroupsStep(uops, params, idx);
      var matching := RowsFor(params.rows, u);
      if matching == [] {
        continue;
      }
      var selected := NormalizeGroup(params.columns, matching);
      tables := tables + [(Subtitle(u), selected)];
      assert tables == Groups(ActiveUnitOps(uops[..idx + 1], params.rows), params);
    }
    assert uops[..|uops|] == uops;
  }

  /** One more unit operation adds its group exactly when it has parameter rows. */
  lemma GroupsStep(uops: seq<string>, params: Frame, n: nat)
    requires n < |uops|
    ensures Groups(ActiveUnitOps(uops[..n + 1], params.rows), params)
         == Groups(ActiveUnitOps(uops[..n], params.rows), params)
            + if RowsFor(params.rows, uops[n]) != [] then [(Subtitle(uops[n]), ParamFrame(RowsFor(params.rows, uops[n]), params.columns))] else []
  {
    ActiveUnitOpsStep(uops, params.rows, n);
    var active := ActiveUnitOps(uops[..n], params.rows);
    assert (active + [uops[n]])[..|active|] == active;
  }

  /** No group is empty, and each has the five expected columns. */
  lemma GroupsNonEmpty(uops: seq<string>, params: Frame, k: nat)
    requires k < |ActiveUnitOps(uops, params.rows)|
    ensures var g := Groups(ActiveUnitOps(uops, params.rows), params)[k].1;
            g.rows != [] && g.columns == ParamColumns
  {
    var a := ActiveUnitOps(uops, params.rows);
    assert a[k] in a;
  }

  lemma ActiveUnitOpsStep(uops: seq<string>, rows: seq<Row>, n: nat)
    requires n < |uops|
    ensures ActiveUnitOps(uops[..n + 1], rows)
         == ActiveUnitOps(uops[..n], rows) + if RowsFor(rows, uops[n]) != [] then [uops[n]] else []
  {
    assert uops[..n + 1][..n] == uops[..n];
  }

  /** Selecting the expected columns of the filled frame gives the normalised parameter rows. */
  lemma FilledSelection(df: Frame, matching: seq<Row>, present: seq<string>)
    requires |df.rows| == |matching|
    requires forall i, c :: 0 <= i < |df.rows| && c in present ==> Get(df.rows[i], c) == Get(matching[i], c)
    requires forall i, c :: 0 <= i < |df.rows| && c in ParamColumns && c !in present ==> Get(df.rows[i], c) == Str("")
    ensures Select(df, ParamColumns) == ParamFrame(matching, present)
  {
    var s := Select(df, ParamColumns);
    var t := ParamFrame(matching, present);
    forall i | 0 <= i < |matching|
      ensures s.rows[i] == t.rows[i]
    {
      assert forall c :: c in ParamColumns ==>
               Get(df.rows[i], c) == if c in present then Get(matching[i], c) else Str("");
    }
  }

  /** The groups keep unit-operation order: a group's unit operation comes earlier than the next one's. */
  lemma {:induction false} ActiveUnitOpsOrdered(uops: seq<string>, rows: seq<Row>, i: nat, j: nat)
    requires Distinct(uops)
    requires i < j < |ActiveUnitOps(uops, rows)|
    ensures FirstIndex(uops, ActiveUnitOps(uops, rows)[i]) < FirstIndex(uops, ActiveUnitOps(uops, rows)[j])
    decreases |uops|
  {
    var a := ActiveUnitOps(uops, rows);
    var n := |uops| - 1;
    var init := uops[..n];
    assert uops[..n + 1] == uops;
    ActiveUnitOpsStep(uops, rows, n);
    var rest := ActiveUnitOps(init, rows);
    assert a[i] in uops && a[j] in uops;
    if RowsFor(rows, uops[n]) != [] {
      assert a == rest + [uops[n]];
      assert a[i] in init;
      FirstIndexPrefix(uops, n, a[i]);
      if j < |rest| {
        assert a[j] in init;
        FirstIndexPrefix(uops, n, a[j]);
        ActiveUnitOpsOrdered(init, rows, i, j);
      } else {
        assert FirstIndex(uops, a[j]) == n;
      }
    } else {
      assert a == rest;
      assert a[i] in init && a[j] in init;
      FirstIndexPrefix(uops, n, a[i]);
      FirstIndexPrefix(uops, n, a[j]);
      ActiveUnitOpsOrdered(init, rows, i, j);
    }
  }

  /** A group keeps the parameter rows in table order: splitting the table splits each group the same way. */
  lemma GroupKeepsRowOrder(rows: seq<Row>, more: seq<Row>, u: string)
    ensures RowsFor(rows + more, u) == RowsFor(rows, u) + RowsFor(more, u)
  {
    FilterAppend(rows, more, (x: Row) => RowOf(x, u));
  }

  /** Within a group, every row carries that group's unit operation and all of them are there. */
  lemma GroupHoldsExactlyItsRows(rows: seq<Row>, u: string, x: Row)
    ensures x in RowsFor(rows, u) <==> x in rows && RowOf(x, u)
    ensures RowOf(x, u) ==> multiset(RowsFor(rows, u))[x] == multiset(rows)[x]
  {
    FilterMultiset(rows, (x: Row) => RowOf(x, u), x);
  }

  // ------------------------------------------------------------------
  // Per-unit-operation narrative
  // ------------------------------------------------------------------

  /** Class text contains "CPP" in any letter case (pCPP, CPP and nCPP all do). */
  predicate IsCppClass(row: Row)
  {
    ContainsIgnoreCase(Display(Get(row, "Class")), "CPP")
  }

  /** IPC text is "yes" in any letter case. */
  predicate IsIpcRow(row: Row)
  {
    Lower(Display(Get(row, "IPC"))) == "yes"
  }

  /** The columns the narrative looks up (pandas raises on any that is missing). */
  predicate NarrativeColumns(uops: Frame, params: Frame, mapping: Frame)
  {
    && "UnitOp" in uops.columns && "Description" in uops.columns
    && "UnitOp" in params.columns && "Class" in params.columns
    && "Parameter" in params.columns && "IPC" in params.columns
    && "UnitOp" in mapping.columns && "CQA" in mapping.columns
  }

  /** The description of the first row of the unit operation, or "" when it has none. */
  function DescriptionOf(uop: string, uops: Frame): string
  {
    var m := RowsFor(uops.rows, uop);
    if m == [] then "" else Display(Get(m[0], "Description"))
  }

  /** The distinct CQAs mapped to the unit operation. */
  function MappedCqas(uop: string, mapping: Frame): seq<string>
  {
    DistinctNonNull(CellsOf(RowsFor(mapping.rows, uop), "CQA"))
  }

  /** The distinct parameters of the unit operation whose class is a CPP kind. */
  function KeyParams(uop: string, params: Frame): seq<string>
  {
    DistinctNonNull(CellsOf(Filter(RowsFor(params.rows, uop), IsCppClass), "Parameter"))
  }

  /** The rows of the unit operation flagged as in-process controls. */
  function IpcRows(uop: string, params: Frame): seq<Row>
  {
    Filter(RowsFor(params.rows, uop), IsIpcRow)
  }

  /** The distinct parameter names of those rows. */
  function IpcParams(uop: string, params: Frame): seq<string>
  {
    DistinctNonNull(CellsOf(IpcRows(uop, params), "Parameter"))
  }

  /** A comma-separated list, or the fallback phrase when the list is empty. */
  function ListOr(xs: seq<string>, fallback: string): string
  {
    if xs == [] then fallback else Join(", ", xs)
  }

  /** The IPC phrase: "no IPCs" only when no row is flagged (flagged rows without names give ""). */
  function IpcText(uop: string, params: Frame): string
  {
    if IpcRows(uop, params) == [] then "no IPCs" else Join(", ", IpcParams(uop, params))
  }

  const Rationale: string :=
    "Risk-based rationale: Parameters are classified based on impact to CQA(s) and process understanding. "
    + "Ranges and IPCs are tightened with phase progression and supported by accumulated data."

  function CqaLine(uop: string, mapping: Frame): string
  {
    "CQAs controlled/monitored here: " + ListOr(MappedCqas(uop, mapping), "none identified") + "."
  }

  function KeyParamLine(uop: string, params: Frame): string
  {
    "Key designated pCPP/CPP parameters: " + ListOr(KeyParams(uop, params), "none designated") + "."
  }

  function IpcLine(uop: string, params: Frame): string
  {
    "In-Process Controls (IPCs): " + IpcText(uop, params) + "."
  }

  const Break: string := "\n\n"

  /**
   * make_unitop_narrative: the fixed six-paragraph template for one unit operation.
   * It names the unit operation first and states its CQA, key-parameter and IPC lines.
   */
  function UnitOpNarrative(uop: string, uops: Frame, params: Frame, mapping: Frame): (r: string)
    requires NarrativeColumns(uops, params, mapping)
    ensures ("**Unit Operation:** " + uop) <= r
    ensures Contains(r, CqaLine(uop, mapping))
    ensures Contains(r, KeyParamLine(uop, params))
    ensures Contains(r, IpcLine(uop, params))
    ensures Contains(r, "Purpose/Description: " + DescriptionOf(uop, uops))
    ensures Contains(r, Rationale)
  {
    NarrativeLayout("**Unit Operation:** " + uop, "Purpose/Description: " + DescriptionOf(uop, uops),
                    CqaLine(uop, mapping), KeyParamLine(uop, params), IpcLine(uop, params), Rationale);
    HeadOf(uop, uops)
    + (CqaLine(uop, mapping) + (Break + (KeyParamLine(uop, params) + (Break + (IpcLine(uop, params) + (Break + Rationale))))))
  }

  /** The first two paragraphs: the unit operation and its description. */
  function HeadOf(uop: string, uops: Frame): string
  {
    "**Unit Operation:** " + uop + (Break + ("Purpose/Description: " + DescriptionOf(uop, uops) + Break))
  }

  /** The six paragraphs joined by blank lines: the first begins the text and every other one occurs in it. */
  lemma NarrativeLayout(u: string, d: string, c: string, k: string, i: string, z: string)
    ensures u <= u + (Break + (d + Break)) + (c + (Break + (k + (Break + (i + (Break + z))))))
    ensures Contains(u + (Break + (d + Break)) + (c + (Break + (k + (Break + (i + (Break + z)))))), d)
    ensures Contains(u + (Break + (d + Break)) + (c + (Break + (k + (Break + (i + (Break + z)))))), c)
    ensures Contains(u + (Break + (d + Break)) + (c + (Break + (k + (Break + (i + (Break + z)))))), k)
    ensures Contains(u + (Break + (d + Break)) + (c + (Break + (k + (Break + (i + (Break + z)))))), i)
    ensures Contains(u + (Break + (d + Break)) + (c + (Break + (k + (Break + (i + (Break + z)))))), z)
  {
    var h := u + (Break + (d + Break));
    var t := c + (Break + (k + (Break + (i + (Break + z)))));
    PrefixOfConcat(u, Break + (d + Break));
    PrefixOfConcat(h, t);
    ContainsInfix(u + Break, d, Break + t);
    assert u + Break + d + (Break + t) == h + t;
    NarrativeTail(c, k, i, z);
    ContainsSuffix(h, t, c);
    ContainsSuffix(h, t, k);
    ContainsSuffix(h, t, i);
    ContainsSuffix(h, t, z);
  }

  /** The last four paragraphs joined by blank lines: each occurs in the text. */
  lemma NarrativeTail(c: string, k: string, i: string, z: string)
    ensures Contains(c + (Break + (k + (Break + (i + (Break + z))))), c)
    ensures Contains(c + (Break + (k + (Break + (i + (Break + z))))), k)
    ensures Contains(c + (Break + (k + (Break + (i + (Break + z))))), i)
    ensures Contains(c + (Break + (k + (Break + (i + (Break + z))))), z)
  {
    var t := c + (Break + (k + (Break + (i + (Break + z)))));
    PrefixOfConcat(c, Break + (k + (Break + (i + (Break + z)))));
    PrefixContains(t, c);
    ContainsInfix(c + Break, k, Break + (i + (Break + z)));
    assert c + Break + k + (Break + (i + (Break + z))) == t;
    ContainsInfix(c + (Break + (k + Break)), i, Break + z);
    assert c + (Break + (k + Break)) + i + (Break + z) == t;
    ContainsInfix(c + (Break + (k + (Break + (i + Break)))), z, "");
    assert c + (Break + (k + (Break + (i + Break)))) + z + "" == t;
  }

  /** A CQA is listed for the unit operation exactly when some mapping row of that unit operation names it. */
  lemma MappedCqasExactly(uop: string, mapping: Frame, x: string)
    ensures x in MappedCqas(uop, mapping) <==>
              exists r :: r in mapping.rows && RowOf(r, uop) && Get(r, "CQA") == Str(x)
  {
    CellsOfHas(RowsFor(mapping.rows, uop), "CQA", Str(x));
  }

  /** A parameter is a key parameter exactly when a row of the unit operation with a CPP-kind class names it. */
  lemma KeyParamsExactly(uop: string, params: Frame, x: string)
    ensures x in KeyParams(uop, params) <==>
              exists r :: r in params.rows && RowOf(r, uop) && IsCppClass(r) && Get(r, "Parameter") == Str(x)
  {
    CellsOfHas(Filter(RowsFor(params.rows, uop), IsCppClass), "Parameter", Str(x));
  }

  /**
   * "no IPCs" is written exactly when no row of the unit operation is flagged;
   * flagged rows whose parameter cells are all empty give an empty list instead.
   */
  lemma IpcFallback(uop: string, params: Frame)
    ensures IpcRows(uop, params) == [] <==> forall r :: r in params.rows && RowOf(r, uop) ==> !IsIpcRow(r)
    ensures IpcRows(uop, params) == [] ==> IpcText(uop, params) == "no IPCs"
    ensures IpcRows(uop, params) != [] ==> IpcText(uop, params) == Join(", ", IpcParams(uop, params))
  {
    var m := IpcRows(uop, params);
    if m != [] {
      assert m[0] in m;
    }
  }

  /** A parameter is listed as an IPC exactly when a flagged row of the unit operation names it. */
  lemma IpcParamsExactly(uop: string, params: Frame, x: string)
    ensures x in IpcParams(uop, params) <==>
              exists r :: r in params.rows && RowOf(r, uop) && IsIpcRow(r) && Get(r, "Parameter") == Str(x)
  {
    CellsOfHas(IpcRows(uop, params), "Parameter", Str(x));
  }

  /** An item of a listed phrase appears in the narrative. */
  lemma ListedInLine(line: string, pre: string, xs: seq<string>, k: nat)
    requires k < |xs| && line == pre + Join(", ", xs) + "."
    ensures Contains(line, xs[k])
  {
    JoinContainsEach(", ", xs, k);
    ContainsInfix(pre, Join(", ", xs), ".");
    ContainsTrans(line, Join(", ", xs), xs[k]);
  }

  /** Every CQA mapped to the unit operation is named in its narrative. */
  lemma NarrativeNamesEachCqa(uop: string, uops: Frame, params: Frame, mapping: Frame, r: Row)
    requires NarrativeColumns(uops, params, mapping)
    requires r in mapping.rows && RowOf(r, uop) && Get(r, "CQA").Str?
    ensures Contains(UnitOpNarrative(uop, uops, params, mapping), Get(r, "CQA").value)
  {
    var x := Get(r, "CQA").value;
    var xs := MappedCqas(uop, mapping);
    MappedCqasExactly(uop, mapping, x);
    var k :| 0 <= k < |xs| && xs[k] == x;
    ListedInLine(CqaLine(uop, mapping), "CQAs controlled/monitored here: ", xs, k);
    ContainsTrans(UnitOpNarrative(uop, uops, params, mapping), CqaLine(uop, mapping), x);
  }

  /** Every named parameter of a CPP-kind row of the unit operation is named in its narrative. */
  lemma NarrativeNamesEachKeyParam(uop: string, uops: Frame, params: Frame, mapping: Frame, r: Row)
    requires NarrativeColumns(uops, params, mapping)
    requires r in params.rows && RowOf(r, uop) && IsCppClass(r) && Get(r, "Parameter").Str?
    ensures Contains(UnitOpNarrative(uop, uops, params, mapping), Get(r, "Parameter").value)
  {
    var x := Get(r, "Parameter").value;
    var xs := KeyParams(uop, params);
    KeyParamsExactly(uop, params, x);
    var k :| 0 <= k < |xs| && xs[k] == x;
    ListedInLine(KeyParamLine(uop, params), "Key designated pCPP/CPP parameters: ", xs, k);
    ContainsTrans(UnitOpNarrative(uop, uops, params, mapping), KeyParamLine(uop, params), x);
  }

  /** Every named parameter of a flagged IPC row of the unit operation is named in its narrative. */
  lemma NarrativeNamesEachIpc(uop: string, uops: Frame, params: Frame, mapping: Frame, r: Row)
    requires NarrativeColumns(uops, params, mapping)
    requires r in params.rows && RowOf(r, uop) && IsIpcRow(r) && Get(r, "Parameter").Str?
    ensures Contains(UnitOpNarrative(uop, uops, params, mapping), Get(r, "Parameter").value)
  {
    var x := Get(r, "Parameter").value;
    var xs := IpcParams(uop, params);
    IpcParamsExactly(uop, params, x);
    var k :| 0 <= k < |xs| && xs[k] == x;
    assert r in IpcRows(uop, params);
    IpcFallback(uop, params);
    ListedInLine(IpcLine(uop, params), "In-Process Controls (IPCs): ", xs, k);
    ContainsTrans(UnitOpNarrative(uop, uops, params, mapping), IpcLine(uop, params), x);
  }

  /** With no CQA mapped to the unit operation, the narrative says "none identified". */
  lemma NarrativeNoCqas(uop: string, uops: Frame, params: Frame, mapping: Frame)
    requires NarrativeColumns(uops, params, mapping)
    requires forall r :: r in mapping.rows && RowOf(r, uop) ==> Get(r, "CQA") == Null
    ensures Contains(UnitOpNarrative(uop, uops, params, mapping), "CQAs controlled/monitored here: " + "none identified" + ".")
  {
    var cqas := MappedCqas(uop, mapping);
    if cqas != [] {
      MappedCqasExactly(uop, mapping, cqas[0]);
    }
    assert CqaLine(uop, mapping) == "CQAs controlled/monitored here: " + "none identified" + ".";
  }

  /** With no named CPP-kind parameter, the narrative says "none designated". */
  lemma NarrativeNoKeyParams(uop: string, uops: Frame, params: Frame, mapping: Frame)
    requires NarrativeColumns(uops, params, mapping)
    requires forall r :: r in params.rows && RowOf(r, uop) && IsCppClass(r) ==> Get(r, "Parameter") == Null
    ensures Contains(UnitOpNarrative(uop, uops, params, mapping), "Key designated pCPP/CPP parameters: " + "none designated" + ".")
  {
    var keys := KeyParams(uop, params);
    if keys != [] {
      KeyParamsExactly(uop, params, keys[0]);
    }
    assert KeyParamLine(uop, params) == "Key designated pCPP/CPP parameters: " + "none designated" + ".";
  }

  /** With no flagged row, the narrative says "no IPCs". */
  lemma NarrativeNoIpcs(uop: string, uops: Frame, params: Frame, mapping: Frame)
    requires NarrativeColumns(uops, params, mapping)
    requires forall r :: r in params.rows && RowOf(r, uop) ==> !IsIpcRow(r)
    ensures Contains(UnitOpNarrative(uop, uops, params, mapping), "In-Process Controls (IPCs): " + "no IPCs" + ".")
  {
    IpcFallback(uop, params);
    assert IpcLine(uop, params) == "In-Process Controls (IPCs): " + "no IPCs" + ".";
  }

  /** Some concrete classes: every CPP kind counts as key, a plain parameter does not. */
  lemma CppClassExamples()
    ensures IsCppClass(map["Class" := Str("CPP")])
    ensures IsCppClass(map["Class" := Str("pCPP")])
    ensures IsCppClass(map["Class" := Str("nCPP")])
    ensures !IsCppClass(map["Class" := Str("PM")])
    ensures !IsCppClass(map[])
  {
    assert Lower("CPP") == "cpp";
    assert Lower("pCPP") == "pcpp";
    assert Lower("nCPP") == "ncpp";
    assert Lower("PM") == "pm";
    assert Lower("None") == "none";
    assert Contains("pcpp"[1..], "cpp");
    assert Contains("ncpp"[1..], "cpp");
    assert !Contains("m", "cpp");
    assert !Contains("pm", "cpp");
    assert !Contains("ne", "cpp");
    assert !Contains("one", "cpp");
  }

  // ------------------------------------------------------------------
  // Phase justifications
  // ------------------------------------------------------------------

  const PreclinicalText: string :=
    "Preclinical strategy "
    + "emphasizes rapid learning and trending. Parameters are initially classified as pCPP or nCPP; "
    + "IPCs are informational with broad ranges while process capability is established."
  const Phase1Text: string :=
    "Phase 1 strategy "
    + "applies risk-based controls aligned to ICH Q8\U{2013}Q11 with preliminary action/alert limits. "
    + "Ranges remain intentionally broad while robustness is confirmed."
  const Phase2Text: string :=
    "Phase 2 strategy "
    + "tightens ranges and elevates key parameters to CPPs where warranted. "
    + "IPCs gain clear action/alert limits supported by manufacturing data."
  const Phase3Text: string :=
    "Phase 3/PPQ strategy "
    + "finalizes CPP designations with NORs/PARs, full acceptance criteria, "
    + "and confirmatory PPQ evidence of control."

  /** The boilerplate paragraph of a phase; a phase without one gets the Phase 1 text. */
  function PhaseBoilerplate(phase: string): (r: string)
    ensures phase !in PhaseOrder ==> r == Phase1Text
  {
    if phase == "Preclinical" then PreclinicalText
    else if phase == "Phase 2" then Phase2Text
    else if phase == "Phase 3/PPQ" then Phase3Text
    else Phase1Text
  }

  /** Both phase lookups send every phase outside PhaseOrder to the Phase 1 entry. */
  lemma PhaseLookups(phase: string)
    ensures phase !in PhaseOrder ==> PhaseBoilerplate(phase) == PhaseBoilerplate("Phase 1")
    ensures phase !in PhaseOrder ==> AcceptanceColumn(phase) == AcceptanceColumn("Phase 1")
  {
  }

  /** `str(value).upper()` contains "CPP": how the justification counts CPP-kind rows. */
  predicate CountsAsCpp(row: Row)
  {
    Contains(Upper(Display(Get(row, "Class"))), "CPP")
  }

  /** The number of parameter rows counted as CPP kinds. */
  function CppCount(params: Frame): nat
  {
    Count(params.rows, CountsAsCpp)
  }

  /** An upper-cased text contains "CPP" exactly when its lower-cased form contains "cpp". */
  lemma {:induction false} CppTestsAgree(s: string)
    ensures Contains(Upper(s), "CPP") <==> Contains(Lower(s), "cpp")
    decreases |s|
  {
    var u := Upper(s);
    var l := Lower(s);
    if |s| >= 3 {
      assert ("CPP" <= u) == (u[0] == 'C' && u[1] == 'P' && u[2] == 'P');
      assert ("cpp" <= l) == (l[0] == 'c' && l[1] == 'p' && l[2] == 'p');
    }
    if |s| > 0 {
      assert u[1..] == Upper(s[1..]);
      assert l[1..] == Lower(s[1..]);
      CppTestsAgree(s[1..]);
    }
  }

  /** The justification's CPP count and the narrative's key-parameter test pick the same rows. */
  lemma CppCountMatchesNarrative(row: Row)
    ensures CountsAsCpp(row) <==> IsCppClass(row)
  {
    assert Lower("CPP") == "cpp";
    CppTestsAgree(Display(Get(row, "Class")));
  }

  /** A mapping row whose ControlType reads "Controls". */
  predicate IsControlsRow(row: Row)
  {
    Display(Get(row, "ControlType")) == "Controls"
  }

  /** A mapping row the control matrix writes as "Controls". */
  predicate WritesControls(row: Row)
  {
    WrittenType(row) == Str("Controls")
  }

  /**
   * The number of control links, read as intended: the "Controls" rows when the
   * ControlType column exists, and none when it does not.
   */
  function ControlLinkCount(mapping: Frame): nat
  {
    if "ControlType" in mapping.columns then Count(mapping.rows, IsControlsRow) else 0
  }

  /**
   * The count as make_justifications computes it: without a ControlType column the
   * lookup's default is a plain string, which has no `astype`, so the call fails (None).
   */
  function ControlLinkCountAsWritten(mapping: Frame): Option<nat>
  {
    if "ControlType" in mapping.columns then Some(Count(mapping.rows, IsControlsRow)) else None
  }

  /** Where the code as written returns a count, it is the intended one. */
  lemma ControlLinkCountAgrees(mapping: Frame)
    ensures "ControlType" in mapping.columns <==> ControlLinkCountAsWritten(mapping).Some?
    ensures ControlLinkCountAsWritten(mapping).Some? ==> ControlLinkCountAsWritten(mapping).value == ControlLinkCount(mapping)
  {
  }

  /** A mapping the control matrix accepts (ControlType defaults to "Monitors"), on which the count fails. */
  lemma ControlLinkCountFailsWithoutControlType()
    ensures ControlLinkCountAsWritten(Frame(["UnitOp", "CQA"], [map["UnitOp" := Str("Mixing"), "CQA" := Str("Purity")]])).None?
    ensures WrittenType(map["UnitOp" := Str("Mixing"), "CQA" := Str("Purity")]) == Str("Monitors")
    ensures ControlLinkCount(Frame(["UnitOp", "CQA"], [map["UnitOp" := Str("Mixing"), "CQA" := Str("Purity")]])) == 0
  {
  }

  /** The intended count is the number of mapping rows written into the control matrix as "Controls". */
  lemma ControlLinkCountMatchesMatrix(mapping: Frame)
    requires WellFormed(mapping)
    ensures ControlLinkCount(mapping) == Count(mapping.rows, WritesControls)
  {
    if "ControlType" in mapping.columns {
      forall i | 0 <= i < |mapping.rows|
        ensures IsControlsRow(mapping.rows[i]) == WritesControls(mapping.rows[i])
      {
        assert "ControlType" in mapping.rows[i];
      }
      CountSame(mapping.rows, IsControlsRow, WritesControls);
    } else {
      forall x | x in mapping.rows
        ensures !WritesControls(x)
      {
        var i :| 0 <= i < |mapping.rows| && mapping.rows[i] == x;
        assert "ControlType" !in x;
      }
    }
  }

  const ModalityOpening: string := "This PCS is tailored for a "
  const ModalityClosing: string := " process, with unit operations and CQAs reflecting modality-specific risks."

  /** The sentence naming the modality. */
  function ModalitySentence(modality: string): string
  {
    ModalityOpening + modality + ModalityClosing
  }

  const QtppSentence: string :=
    "QTPP elements "
    + "prioritize CQAs and acceptance criteria aligned to clinical performance objectives."

  const CppClosing: string :=
    " parameter(s) are currently flagged as pCPP/CPP based on impact assessments and mapping to CQAs."

  /** The sentence giving the number of CPP-kind parameters. */
  function CppSentence(n: nat): string
  {
    NatToString(n) + CppClosing
  }

  const ControlOpening: string := "Control Strategy Matrix indicates "
  const ControlClosing: string :=
    " control link(s) (UnitOp\U{2192}CQA) where parameters directly control attribute outcomes."

  /** The sentence giving the number of control links. */
  function ControlSentence(n: nat): string
  {
    ControlOpening + NatToString(n) + ControlClosing
  }

  /** A paragraph that is present only under its condition. */
  function When(cond: bool, line: string): (r: seq<string>)
    ensures line in r <==> cond
    ensures |r| <= 1
  {
    if cond then [line] else []
  }

  /** A first paragraph followed by the optional ones whose condition holds, in order. */
  function Assemble(first: string, c1: bool, s1: string, c2: bool, s2: string,
                    c3: bool, s3: string, c4: bool, s4: string): (r: seq<string>)
    ensures 1 <= |r| <= 5 && r[0] == first
    ensures |r| == 1 <==> !c1 && !c2 && !c3 && !c4
    ensures |r| == 5 <==> c1 && c2 && c3 && c4
    ensures |r| == 1 + |When(c1, s1)| + |When(c2, s2)| + |When(c3, s3)| + |When(c4, s4)|
  {
    [first] + When(c1, s1) + When(c2, s2) + When(c3, s3) + When(c4, s4)
  }

  /** The paragraphs of the justification: the boilerplate, then one sentence per non-empty input. */
  function JustificationParagraphs(phase: string, modality: string, qtpp: Frame, params: Frame, mapping: Frame): seq<string>
  {
    Assemble(PhaseBoilerplate(phase),
             modality != "", ModalitySentence(modality),
             |qtpp.rows| > 0, QtppSentence,
             |params.rows| > 0, CppSentence(CppCount(params)),
             |mapping.rows| > 0, ControlSentence(ControlLinkCount(mapping)))
  }

  /**
   * When the five paragraphs open with five different characters, each optional
   * paragraph is in the list exactly when its condition holds.
   */
  lemma AssembleMembership(first: string, c1: bool, s1: string, c2: bool, s2: string,
                           c3: bool, s3: string, c4: bool, s4: string)
    requires first != [] && s1 != [] && s2 != [] && s3 != [] && s4 != []
    requires Distinct([first[0], s1[0], s2[0], s3[0], s4[0]])
    ensures s1 in Assemble(first, c1, s1, c2, s2, c3, s3, c4, s4) <==> c1
    ensures s2 in Assemble(first, c1, s1, c2, s2, c3, s3, c4, s4) <==> c2
    ensures s3 in Assemble(first, c1, s1, c2, s2, c3, s3, c4, s4) <==> c3
    ensures s4 in Assemble(first, c1, s1, c2, s2, c3, s3, c4, s4) <==> c4
  {
    var d := [first[0], s1[0], s2[0], s3[0], s4[0]];
    assert d[0] != d[1] && d[0] != d[2] && d[0] != d[3] && d[0] != d[4];
    assert d[1] != d[2] && d[1] != d[3] && d[1] != d[4];
    assert d[2] != d[3] && d[2] != d[4] && d[3] != d[4];
  }

  /** Every phase paragraph opens with 'P'. */
  lemma PhaseBoilerplateOpening(phase: string)
    ensures |PhaseBoilerplate(phase)| > 0 && PhaseBoilerplate(phase)[0] == 'P'
  {
  }

  /** The four sentences open with 'T', 'Q', a digit and 'C'. */
  lemma SentenceOpenings(modality: string, k: nat, n: nat)
    ensures |ModalitySentence(modality)| > 0 && ModalitySentence(modality)[0] == 'T'
    ensures |QtppSentence| > 0 && QtppSentence[0] == 'Q'
    ensures |CppSentence(k)| > 0 && '0' <= CppSentence(k)[0] <= '9'
    ensures |ControlSentence(n)| > 0 && ControlSentence(n)[0] == 'C'
  {
    assert |ModalityOpening| > 0 && ModalityOpening[0] == 'T';
    assert (NatToString(k) + CppClosing)[0] == NatToString(k)[0];
    assert |ControlOpening| > 0 && ControlOpening[0] == 'C';
  }

  /**
   * Each sentence is among the paragraphs exactly when its input calls for it:
   * a modality, QTPP rows, parameter rows, mapping rows.
   */
  lemma JustificationSentences(phase: string, modality: string, qtpp: Frame, params: Frame, mapping: Frame)
    ensures ModalitySentence(modality) in JustificationParagraphs(phase, modality, qtpp, params, mapping) <==> modality != ""
    ensures QtppSentence in JustificationParagraphs(phase, modality, qtpp, params, mapping) <==> |qtpp.rows| > 0
    ensures CppSentence(CppCount(params)) in JustificationParagraphs(phase, modality, qtpp, params, mapping) <==> |params.rows| > 0
    ensures ControlSentence(ControlLinkCount(mapping)) in JustificationParagraphs(phase, modality, qtpp, params, mapping) <==> |mapping.rows| > 0
  {
    PhaseBoilerplateOpening(phase);
    SentenceOpenings(modality, CppCount(params), ControlLinkCount(mapping));
    AssembleMembership(PhaseBoilerplate(phase), modality != "", ModalitySentence(modality),
                       |qtpp.rows| > 0, QtppSentence,
                       |params.rows| > 0, CppSentence(CppCount(params)),
                       |mapping.rows| > 0, ControlSentence(ControlLinkCount(mapping)));
  }

  /**
   * make_justifications: the lines are collected one condition at a time and joined
   * with blank lines.  The CQA table is accepted and not read.
   */
  method Justifications(phase: string, modality: string, qtpp: Frame, cqas: Frame, params: Frame, mapping: Frame)
    returns (text: string)
    requires |params.rows| > 0 ==> "Class" in params.columns
    ensures text == Join("\n\n", JustificationParagraphs(phase, modality, qtpp, params, mapping))
  {
    ghost var modalityLine, qtppLine := ModalitySentence(modality), QtppSentence;
    ghost var cppLine, controlLine := CppSentence(CppCount(params)), ControlSentence(ControlLinkCount(mapping));
    var lines := [PhaseBoilerplate(phase)];
    ghost var before := lines;
    if modality != "" {
      lines := lines + [ModalitySentence(modality)];
    }
    assert lines == before + When(modality != "", modalityLine);
    before := lines;
    if |qtpp.rows| > 0 {
      lines := lines + [QtppSentence];
    }
    assert lines == before + When(|qtpp.rows| > 0, qtppLine);
    before := lines;
    if |params.rows| > 0 {
      var nCpp := CppCount(params);
      lines := lines + [CppSentence(nCpp)];
    }
    assert lines == before + When(|params.rows| > 0, cppLine);
    before := lines;
    if |mapping.rows| > 0 {
      var ctrls := ControlLinkCount(mapping);
      lines := lines + [ControlSentence(ctrls)];
    }
    assert lines == before + When(|mapping.rows| > 0, controlLine);
    text := Join("\n\n", lines);
  }

  /** The justification opens with the phase text and carries each sentence its input calls for. */
  lemma JustificationContents(phase: string, modality: string, qtpp: Frame, params: Frame, mapping: Frame)
    ensures PhaseBoilerplate(phase) <= Join("\n\n", JustificationParagraphs(phase, modality, qtpp, params, mapping))
    ensures modality != "" ==>
              Contains(Join("\n\n", JustificationParagraphs(phase, modality, qtpp, params, mapping)), ModalitySentence(modality))
    ensures |qtpp.rows| > 0 ==>
              Contains(Join("\n\n", JustificationParagraphs(phase, modality, qtpp, params, mapping)), QtppSentence)
    ensures |params.rows| > 0 ==>
              Contains(Join("\n\n", JustificationParagraphs(phase, modality, qtpp, params, mapping)), CppSentence(CppCount(params)))
    ensures |mapping.rows| > 0 ==>
              Contains(Join("\n\n", JustificationParagraphs(phase, modality, qtpp, params, mapping)), ControlSentence(ControlLinkCount(mapping)))
  {
    var ps := JustificationParagraphs(phase, modality, qtpp, params, mapping);
    JoinStartsWith("\n\n", ps);
    JoinContainsWhen(ps, modality != "", ModalitySentence(modality));
    JoinContainsWhen(ps, |qtpp.rows| > 0, QtppSentence);
    JoinContainsWhen(ps, |params.rows| > 0, CppSentence(CppCount(params)));
    JoinContainsWhen(ps, |mapping.rows| > 0, ControlSentence(ControlLinkCount(mapping)));
  }

  lemma JoinContainsWhen(ps: seq<string>, cond: bool, x: string)
    requires cond ==> x in ps
    ensures cond ==> Contains(Join("\n\n", ps), x)
  {
    if cond {
      JoinContainsMember("\n\n", ps, x);
    }
  }

  /** With nothing but a phase, the justification is that phase's boilerplate alone. */
  lemma JustificationBoilerplateOnly(phase: string, qtpp: Frame, params: Frame, mapping: Frame)
    requires qtpp.rows == [] && params.rows == [] && mapping.rows == []
    ensures Join("\n\n", JustificationParagraphs(phase, "", qtpp, params, mapping)) == PhaseBoilerplate(phase)
  {
  }

  /** The count in the CPP sentence is written in decimal and reads back as the count. */
  lemma CppSentenceCount(params: Frame)
    ensures NatToString(CppCount(params)) <= CppSentence(CppCount(params))
    ensures ParseDigits(NatToString(CppCount(params))) == CppCount(params)
    ensures CppCount(params) <= |params.rows|
  {
    PrefixOfConcat(NatToString(CppCount(params)), CppSentence(CppCount(params))[|NatToString(CppCount(params))|..]);
    ParseNatToString(CppCount(params));
  }
}
