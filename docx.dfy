/**
 * The document writer: placeholder replacement in a word-processing document,
 * tables built from data frames, and the assembly of titled sections at the end
 * of a template.  The document is its sequence of top-level blocks.
 */
module Docx {
  import opened Strings
  import opened Frames

  /** A table cell is its sequence of paragraphs; its text is their texts joined by newlines. */
  datatype DocCell = DocCell(paragraphs: seq<string>)

  /** A top-level block: a heading (a styled paragraph), a body paragraph or a table. */
  datatype Block =
    | Heading(text: string, level: nat)
    | Para(text: string)
    | Table(rows: seq<seq<DocCell>>)

  /** The replacements dictionary, in its iteration order. */
  type Replacements = seq<(string, string)>

  function CellText(c: DocCell): string
  {
    Join("\n", c.paragraphs)
  }

  // ------------------------------------------------------------------
  // Placeholder replacement
  // ------------------------------------------------------------------

  /** One key on one paragraph: the text is rewritten only when the key occurs in it. */
  function ReplaceStep(s: string, key: string, val: string): string
  {
    if Contains(s, key) then ReplaceAll(s, key, val) else s
  }

  /** All keys in dictionary order, each applied to the text the previous ones left. */
  function Apply(s: string, reps: Replacements): string
  {
    if reps == [] then s
    else
      var last := reps[|reps| - 1];
      ReplaceStep(Apply(s, reps[..|reps| - 1]), last.0, last.1)
  }

  /** An independent reading: replace-all with each key in turn, with no guard. */
  function ReplaceEach(s: string, reps: Replacements): string
    decreases |reps|
  {
    if reps == [] then s else ReplaceEach(ReplaceAll(s, reps[0].0, reps[0].1), reps[1..])
  }

  /** The `key in text` guard never changes the outcome of a replacement. */
  lemma ReplaceGuardRedundant(s: string, key: string, val: string)
    ensures ReplaceStep(s, key, val) == ReplaceAll(s, key, val)
  {
    if key == [] {
      assert key <= s;
    }
  }

  lemma {:induction false} ReplaceEachSnoc(s: string, reps: Replacements, key: string, val: string)
    ensures ReplaceEach(s, reps + [(key, val)]) == ReplaceAll(ReplaceEach(s, reps), key, val)
    decreases |reps|
  {
    if reps == [] {
      assert ([] + [(key, val)])[1..] == [];
    } else {
      assert (reps + [(key, val)])[1..] == reps[1..] + [(key, val)];
      ReplaceEachSnoc(ReplaceAll(s, reps[0].0, reps[0].1), reps[1..], key, val);
    }
  }

  /** A paragraph's new text is each key's replace-all applied in order to the text so far. */
  lemma {:induction false} ApplyIsReplaceEach(s: string, reps: Replacements)
    ensures Apply(s, reps) == ReplaceEach(s, reps)
    decreases |reps|
  {
    if reps != [] {
      var init := reps[..|reps| - 1];
      var last := reps[|reps| - 1];
      ApplyIsReplaceEach(s, init);
      ReplaceGuardRedundant(Apply(s, init), last.0, last.1);
      assert reps == init + [(last.0, last.1)];
      ReplaceEachSnoc(s, init, last.0, last.1);
    }
  }

  /** A text in which no key occurs is left as it is. */
  lemma {:induction false} ApplyUntouched(s: string, reps: Replacements)
    requires forall i :: 0 <= i < |reps| ==> !Contains(s, reps[i].0)
    ensures Apply(s, reps) == s
  {
    if reps != [] {
      ApplyUntouched(s, reps[..|reps| - 1]);
    }
  }

  /** One key on one cell: a cell whose text holds the key is rebuilt as one paragraph. */
  function CellStep(c: DocCell, key: string, val: string): (d: DocCell)
    ensures CellText(d) == ReplaceStep(CellText(c), key, val)
  {
    if Contains(CellText(c), key) then DocCell([ReplaceAll(CellText(c), key, val)]) else c
  }

  /** All keys in dictionary order on one cell. */
  function ReplaceCell(c: DocCell, reps: Replacements): DocCell
  {
    if reps == [] then c
    else
      var last := reps[|reps| - 1];
      CellStep(ReplaceCell(c, reps[..|reps| - 1]), last.0, last.1)
  }

  /**
   * A cell ends with the replaced text; a cell that was touched holds exactly one
   * paragraph, and a cell in which no key occurs is untouched.
   */
  lemma {:induction false} ReplaceCellFacts(c: DocCell, reps: Replacements)
    ensures CellText(ReplaceCell(c, reps)) == Apply(CellText(c), reps)
    ensures ReplaceCell(c, reps) == c || |ReplaceCell(c, reps).paragraphs| == 1
    ensures (forall i :: 0 <= i < |reps| ==> !Contains(CellText(c), reps[i].0)) ==> ReplaceCell(c, reps) == c
  {
    if reps != [] {
      var init := reps[..|reps| - 1];
      ReplaceCellFacts(c, init);
      if forall i :: 0 <= i < |reps| ==> !Contains(CellText(c), reps[i].0) {
        assert forall i :: 0 <= i < |init| ==> !Contains(CellText(c), init[i].0) by {
          assert forall i :: 0 <= i < |init| ==> init[i] == reps[i];
        }
      }
    }
  }

  /** Once some key has occurred in the cell's text, the cell ends as exactly one paragraph. */
  lemma {:induction false} TouchedCellOneParagraph(c: DocCell, reps: Replacements, i: nat)
    requires i < |reps| && Contains(CellText(ReplaceCell(c, reps[..i])), reps[i].0)
    ensures |ReplaceCell(c, reps).paragraphs| == 1
    decreases |reps|
  {
    var init := reps[..|reps| - 1];
    if i < |init| {
      assert init[..i] == reps[..i] && init[i] == reps[i];
      TouchedCellOneParagraph(c, init, i);
    } else {
      assert init == reps[..i];
    }
  }

  /** A paragraph block with its text replaced; tables are not paragraphs. */
  function ReplaceBlockText(b: Block, reps: Replacements): (r: Block)
    ensures r.Heading? == b.Heading? && r.Para? == b.Para? && r.Table? == b.Table?
    ensures b.Heading? ==> r.level == b.level
    ensures b.Table? ==> r == b
  {
    match b
    case Heading(t, l) => Heading(Apply(t, reps), l)
    case Para(t) => Para(Apply(t, reps))
    case Table(_) => b
  }

  /** The document after replace_text_in_paragraphs. */
  function ParagraphsReplaced(bs: seq<Block>, reps: Replacements): (r: seq<Block>)
    ensures |r| == |bs|
  {
    seq(|bs|, i requires 0 <= i < |bs| => ReplaceBlockText(bs[i], reps))
  }

  function TableReplaced(rows: seq<seq<DocCell>>, reps: Replacements): (r: seq<seq<DocCell>>)
    ensures |r| == |rows|
    ensures forall i :: 0 <= i < |r| ==> |r[i]| == |rows[i]|
  {
    seq(|rows|, i requires 0 <= i < |rows| =>
      seq(|rows[i]|, j requires 0 <= j < |rows[i]| => ReplaceCell(rows[i][j], reps)))
  }

  function ReplaceBlockCells(b: Block, reps: Replacements): (r: Block)
    ensures !b.Table? ==> r == b
    ensures b.Table? ==> r.Table? && |r.rows| == |b.rows|
  {
    match b
    case Table(rows) => Table(TableReplaced(rows, reps))
    case _ => b
  }

  /** The document after replace_text_in_tables. */
  function TablesReplaced(bs: seq<Block>, reps: Replacements): (r: seq<Block>)
    ensures |r| == |bs|
  {
    seq(|bs|, i requires 0 <= i < |bs| => ReplaceBlockCells(bs[i], reps))
  }

  /** The paragraphs of a document in which no key occurs keep their text. */
  lemma ParagraphsUntouched(bs: seq<Block>, reps: Replacements)
    requires forall k, i :: 0 <= k < |bs| && 0 <= i < |reps| && !bs[k].Table? ==> !Contains(bs[k].text, reps[i].0)
    ensures ParagraphsReplaced(bs, reps) == bs
  {
    forall k | 0 <= k < |bs| && !bs[k].Table?
      ensures ReplaceBlockText(bs[k], reps) == bs[k]
    {
      ApplyUntouched(bs[k].text, reps);
    }
  }

  /** The text of a string after the loop over keys. */
  method ReplaceInText(s: string, reps: Replacements) returns (t: string)
    ensures t == Apply(s, reps)
  {
    t := s;
    for k := 0 to |reps|
      invariant t == Apply(s, reps[..k])
    {
      assert reps[..k + 1][..k] == reps[..k];
      var (key, val) := reps[k];
      if Contains(t, key) {
        t := ReplaceAll(t, key, val);
      }
    }
    assert reps[..|reps|] == reps;
  }

  /** One cell after the loop over keys: its paragraphs are dropped and one is added. */
  method ReplaceInCell(c: DocCell, reps: Replacements) returns (d: DocCell)
    ensures d == ReplaceCell(c, reps)
  {
    d := c;
    for k := 0 to |reps|
      invariant d == ReplaceCell(c, reps[..k])
    {
      assert reps[..k + 1][..k] == reps[..k];
      var (key, val) := reps[k];
      var text := CellText(d);
      if Contains(text, key) {
        d := DocCell([ReplaceAll(text, key, val)]);
      }
    }
    assert reps[..|reps|] == reps;
  }

  /** Every cell of one table, row by row, rewritten in place. */
  method ReplaceInTable(rows: seq<seq<DocCell>>, reps: Replacements) returns (out: seq<seq<DocCell>>)
    ensures out == TableReplaced(rows, reps)
  {
    out := rows;
    for i := 0 to |rows|
      invariant |out| == |rows|
      invariant forall k :: 0 <= k < i ==> out[k] == TableReplaced(rows, reps)[k]
      invariant forall k :: i <= k < |rows| ==> out[k] == rows[k]
    {
      for j := 0 to |rows[i]|
        invariant |out| == |rows| && |out[i]| == |rows[i]|
        invariant forall k :: 0 <= k < i ==> out[k] == TableReplaced(rows, reps)[k]
        invariant forall k :: i < k < |rows| ==> out[k] == rows[k]
        invariant forall l :: 0 <= l < j ==> out[i][l] == ReplaceCell(rows[i][l], reps)
        invariant forall l :: j <= l < |rows[i]| ==> out[i][l] == rows[i][l]
      {
        var d := ReplaceInCell(out[i][j], reps);
        out := out[i := out[i][j := d]];
      }
      assert out[i] == TableReplaced(rows, reps)[i];
    }
  }

  // ------------------------------------------------------------------
  // Tables built from data frames
  // ------------------------------------------------------------------

  /** A cell set to a text holds one paragraph with that text. */
  function TextCell(s: string): DocCell
  {
    DocCell([s])
  }

  /** A body value: empty for None, its display form otherwise. */
  function BodyCell(c: Cell): DocCell
  {
    match c
    case Null => TextCell("")
    case Str(s) => TextCell(s)
  }

  function HeaderRow(cols: seq<string>): (r: seq<DocCell>)
    ensures |r| == |cols|
  {
    seq(|cols|, j requires 0 <= j < |cols| => TextCell(cols[j]))
  }

  function BodyRow(row: Row, cols: seq<string>): (r: seq<DocCell>)
    ensures |r| == |cols|
  {
    seq(|cols|, j requires 0 <= j < |cols| => BodyCell(Get(row, cols[j])))
  }

  /** The grid add_simple_table writes: the header row, then one row per data row. */
  function Grid(f: Frame): seq<seq<DocCell>>
  {
    [HeaderRow(f.columns)] + seq(|f.rows|, i requires 0 <= i < |f.rows| => BodyRow(f.rows[i], f.columns))
  }

  /**
   * The grid has rows + 1 rows of cols cells; row 0 holds the column names and
   * cell (i + 1, j) holds "" for None and the value's text otherwise.
   */
  lemma GridShape(f: Frame)
    ensures |Grid(f)| == |f.rows| + 1
    ensures forall i :: 0 <= i < |Grid(f)| ==> |Grid(f)[i]| == |f.columns|
    ensures forall j :: 0 <= j < |f.columns| ==> CellText(Grid(f)[0][j]) == f.columns[j]
    ensures forall i, j :: 0 <= i < |f.rows| && 0 <= j < |f.columns| ==>
              CellText(Grid(f)[i + 1][j]) == (if Get(f.rows[i], f.columns[j]).Null? then "" else Get(f.rows[i], f.columns[j]).value)
  {
  }

  /** A fresh table of the given shape: every cell holds one empty paragraph. */
  function BlankGrid(rows: nat, cols: nat): (g: seq<seq<DocCell>>)
    ensures |g| == rows && forall i :: 0 <= i < rows ==> |g[i]| == cols
  {
    seq(rows, _ => seq(cols, _ => TextCell("")))
  }

  /** A fresh (rows + 1) x cols table, filled cell by cell: the header, then the body. */
  method BuildGrid(f: Frame) returns (grid: seq<seq<DocCell>>)
    ensures grid == Grid(f)
  {
    var rows, cols := |f.rows|, |f.columns|;
    grid := BlankGrid(rows + 1, cols);
    for j := 0 to cols
      invariant |grid| == rows + 1 && forall k :: 0 <= k < |grid| ==> |grid[k]| == cols
      invariant forall l :: 0 <= l < j ==> grid[0][l] == TextCell(f.columns[l])
    {
      grid := grid[0 := grid[0][j := TextCell(f.columns[j])]];
    }
    assert grid[0] == HeaderRow(f.columns);
    for i := 0 to rows
      invariant |grid| == rows + 1 && forall k :: 0 <= k < |grid| ==> |grid[k]| == cols
      invariant grid[0] == HeaderRow(f.columns)
      invariant forall k :: 0 <= k < i ==> grid[k + 1] == BodyRow(f.rows[k], f.columns)
    {
      for j := 0 to cols
        invariant |grid| == rows + 1 && forall k :: 0 <= k < |grid| ==> |grid[k]| == cols
        invariant grid[0] == HeaderRow(f.columns)
        invariant forall k :: 0 <= k < i ==> grid[k + 1] == BodyRow(f.rows[k], f.columns)
        invariant forall l :: 0 <= l < j ==> grid[i + 1][l] == BodyCell(Get(f.rows[i], f.columns[l]))
      {
        grid := grid[i + 1 := grid[i + 1][j := BodyCell(Get(f.rows[i], f.columns[j]))]];
      }
      assert grid[i + 1] == BodyRow(f.rows[i], f.columns);
    }
    assert forall k :: 0 <= k < |grid| ==> grid[k] == Grid(f)[k];
  }

  /** Python truthiness of the optional title: present and non-empty. */
  predicate Truthy(title: Option<string>)
  {
    title.Some? && title.value != ""
  }

  /** What add_simple_table appends: a level-2 heading for a truthy title, then the table. */
  function TableBlocks(f: Frame, title: Option<string>): (r: seq<Block>)
    ensures |r| == if Truthy(title) then 2 else 1
    ensures r[|r| - 1] == Table(Grid(f))
    ensures Truthy(title) ==> r[0] == Heading(title.value, 2)
  {
    (if Truthy(title) then [Heading(title.value, 2)] else []) + [Table(Grid(f))]
  }

  // ------------------------------------------------------------------
  // Sections
  // ------------------------------------------------------------------

  /** The content of a section, dispatched on its kind. */
  datatype Content =
    | Text(s: string)
    | FrameContent(frame: Frame)
    | Grouped(groups: seq<(string, Frame)>)
    | Other(repr: string)

  datatype Section = Section(title: string, content: Content)

  /** One (subtitle, frame) pair: the table with its subheading. */
  function GroupPair(g: (string, Frame)): seq<Block>
  {
    TableBlocks(g.1, Some(g.0))
  }

  /** One table with its subheading per (subtitle, frame) pair. */
  function GroupBlocks(groups: seq<(string, Frame)>): seq<Block>
  {
    Flatten(groups, GroupPair)
  }

  function ContentBlocks(c: Content): seq<Block>
  {
    match c
    case Text(s) => [Para(s)]
    case FrameContent(f) => TableBlocks(f, None)
    case Grouped(gs) => GroupBlocks(gs)
    case Other(r) => [Para(r)]
  }

  /** A section: its level-1 title heading, then its content. */
  function RenderSection(s: Section): (r: seq<Block>)
    ensures |r| >= 1 && r[0] == Heading(s.title, 1)
  {
    [Heading(s.title, 1)] + ContentBlocks(s.content)
  }

  /** All sections, one after another in input order. */
  function RenderSections(ss: seq<Section>): seq<Block>
  {
    Flatten(ss, RenderSection)
  }

  /** Rendering distributes over concatenation: sections never interleave. */
  lemma RenderSectionsAppend(a: seq<Section>, b: seq<Section>)
    ensures RenderSections(a + b) == RenderSections(a) + RenderSections(b)
  {
    FlattenAppend(a, b, RenderSection);
  }

  predicate IsTitle(b: Block)
  {
    b.Heading? && b.level == 1
  }

  lemma {:induction false} GroupBlocksNoTitle(gs: seq<(string, Frame)>)
    ensures forall b :: b in GroupBlocks(gs) ==> !IsTitle(b)
  {
    if gs != [] {
      GroupBlocksNoTitle(gs[..|gs| - 1]);
    }
  }

  /** Content never adds a level-1 heading. */
  lemma ContentHasNoTitle(c: Content)
    ensures Count(ContentBlocks(c), IsTitle) == 0
  {
    if c.Grouped? {
      GroupBlocksNoTitle(c.groups);
    }
  }

  /** A rendered section holds exactly one level-1 heading, its title. */
  lemma RenderSectionTitle(s: Section)
    ensures Count(RenderSection(s), IsTitle) == 1
  {
    ContentHasNoTitle(s.content);
    CountAppend([Heading(s.title, 1)], ContentBlocks(s.content), IsTitle);
  }

  /** The level-1 headings of the rendered sections are exactly the sections' titles, one each. */
  lemma {:induction false} RenderSectionsTitles(ss: seq<Section>)
    ensures Count(RenderSections(ss), IsTitle) == |ss|
  {
    if ss != [] {
      var init := ss[..|ss| - 1];
      RenderSectionsTitles(init);
      RenderSectionTitle(ss[|ss| - 1]);
      CountAppend(RenderSections(init), RenderSection(ss[|ss| - 1]), IsTitle);
    }
  }

  // ------------------------------------------------------------------
  // The document
  // ------------------------------------------------------------------

  class Document {
    var blocks: seq<Block>

    /** The document read from a template. */
    constructor (initial: seq<Block>)
      ensures blocks == initial
    {
      blocks := initial;
    }

    /** replace_text_in_paragraphs: every heading and body paragraph gets each key replaced. */
    method ReplaceTextInParagraphs(reps: Replacements)
      modifies this
      ensures blocks == ParagraphsReplaced(old(blocks), reps)
    {
      for i := 0 to |blocks|
        invariant |blocks| == |old(blocks)|
        invariant forall k :: 0 <= k < i ==> blocks[k] == ReplaceBlockText(old(blocks)[k], reps)
        invariant forall k :: i <= k < |blocks| ==> blocks[k] == old(blocks)[k]
      {
        var b := blocks[i];
        if !b.Table? {
          var t := ReplaceInText(b.text, reps);
          blocks := blocks[i := b.(text := t)];
        }
      }
    }

    /** replace_text_in_tables: every cell of every table gets each key replaced. */
    method ReplaceTextInTables(reps: Replacements)
      modifies this
      ensures blocks == TablesReplaced(old(blocks), reps)
    {
      for i := 0 to |blocks|
        invariant |blocks| == |old(blocks)|
        invariant forall k :: 0 <= k < i ==> blocks[k] == ReplaceBlockCells(old(blocks)[k], reps)
        invariant forall k :: i <= k < |blocks| ==> blocks[k] == old(blocks)[k]
      {
        var b := blocks[i];
        if b.Table? {
          var rows := ReplaceInTable(b.rows, reps);
          blocks := blocks[i := Table(rows)];
        }
      }
    }

    /** add_heading: a heading of the given level at the end. */
    method AddHeading(text: string, level: nat)
      modifies this
      ensures blocks == old(blocks) + [Heading(text, level)]
    {
      blocks := blocks + [Heading(text, level)];
    }

    /** add_simple_table: an optional level-2 heading, then the table; the grid is returned. */
    method AddSimpleTable(f: Frame, title: Option<string>) returns (table: seq<seq<DocCell>>)
      modifies this
      ensures blocks == old(blocks) + TableBlocks(f, title)
      ensures table == Grid(f)
    {
      if Truthy(title) {
        AddHeading(title.value, 2);
      }
      table := BuildGrid(f);
      blocks := blocks + [Table(table)];
    }

    /**
     * save_docx_with_sections on an opened template: placeholders are replaced first,
     * then every section is appended in order.
     */
    method SaveWithSections(reps: Replacements, sections: seq<Section>)
      modifies this
      ensures blocks == TablesReplaced(ParagraphsReplaced(old(blocks), reps), reps) + RenderSections(sections)
    {
      ReplaceTextInParagraphs(reps);
      ReplaceTextInTables(reps);
      AppendSections(sections);
    }

    /** The section loop: every section appended in input order. */
    method AppendSections(sections: seq<Section>)
      modifies this
      ensures blocks == old(blocks) + RenderSections(sections)
    {
      for i := 0 to |sections|
        invariant blocks == old(blocks) + RenderSections(sections[..i])
      {
        assert sections[..i + 1][..i] == sections[..i];
        AppendSection(sections[i]);
      }
      assert sections[..|sections|] == sections;
    }

    /** One section: its level-1 heading, then its content by kind. */
    method AppendSection(s: Section)
      modifies this
      ensures blocks == old(blocks) + RenderSection(s)
    {
      AddHeading(s.title, 1);
      match s.content {
        case Text(t) =>
          blocks := blocks + [Para(t)];
        case FrameContent(f) =>
          var table := AddSimpleTable(f, None);
        case Grouped(gs) =>
          ghost var start := blocks;
          for g := 0 to |gs|
            invariant blocks == start + GroupBlocks(gs[..g])
          {
            assert gs[..g + 1][..g] == gs[..g];
            var table := AddSimpleTable(gs[g].1, Some(gs[g].0));
          }
          assert gs[..|gs|] == gs;
        case Other(r) =>
          blocks := blocks + [Para(r)];
      }
    }
  }

  /** Placeholders in generated content survive: the sections are appended after the replacement. */
  lemma ReplacementPrecedesSections(template: seq<Block>, reps: Replacements, sections: seq<Section>, result: seq<Block>)
    requires result == TablesReplaced(ParagraphsReplaced(template, reps), reps) + RenderSections(sections)
    ensures |result| == |template| + |RenderSections(sections)|
    ensures result[|template|..] == RenderSections(sections)
    ensures forall k :: 0 <= k < |template| && !template[k].Table? ==>
              result[k] == ReplaceBlockText(template[k], reps)
    ensures forall k :: 0 <= k < |template| && template[k].Table? ==>
              result[k] == Table(TableReplaced(template[k].rows, reps))
  {
  }
}
