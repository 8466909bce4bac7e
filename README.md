# PCS generator — a verified Dafny model

The PCS (process control strategy) generator turns a few small tables into summary
tables and boilerplate text for a pharmaceutical process, then writes them into a
word-processing template. The tables are quality targets (QTPP), critical quality
attributes (CQAs), unit operations, process parameters, and a unit-operation × CQA
mapping. This project models the generator's two core files and proves properties of
the model:

- `pcs_generator.py` builds the derived content:
  - the unit-operation × CQA control matrix;
  - the CPP/IPC parameter view;
  - the phase-scoped acceptance criteria;
  - the per-unit-operation parameter tables;
  - the per-unit-operation narrative;
  - the phase justification.
- `docx_utils.py` assembles the document:
  - placeholder replacement in paragraphs and in table cells;
  - tables built from data frames;
  - titled sections appended at the end of the template.

Files:

- `strings.dfy` (module `Strings`) holds the Python string operations the code relies on:
  - the `in` test;
  - `str.replace`, including the empty key;
  - ASCII `lower` and `upper`;
  - `sep.join`;
  - the decimal rendering of a count.
- `frames.dfy` (module `Frames`) models a data frame as a column list plus rows. A row maps a column name to `Null` (Python `None`) or `Str(text)`. The module also holds:
  - `row.get` and `row.get(col, default)`;
  - `str(value)`;
  - `dropna().unique()`;
  - filtering and boolean-mask counting.
- `generator.dfy` (module `Generator`) models `pcs_generator.py`:
  - The loops of `make_control_matrix`, `make_acceptance_criteria` and `make_per_unitop_param_tables` are methods with loops. `make_justifications`, four conditional appends, is a method with one `if` per append.
  - Each method is proved against a specification function.
  - The narrative and the CPP/IPC view are functions.
- `docx.dfy` (module `Docx`) models `docx_utils.py` as a class `Document` over a sequence of blocks (headings, paragraphs, tables of cells). Each cell is a list of paragraphs. Every function of the source file is a method that updates `blocks`.

Modelling choices, each following the code:

- Sections are appended at the end of the document. The code does not search for an anchor heading and does not insert after one.
- A section is a `(title, content)` pair, as the docstring of `save_docx_with_sections` states.
- Python `None` prints as "None" wherever the code applies `str()` or `astype(str)`. `add_simple_table` alone renders it as the empty string.
- Headings are paragraphs, so the paragraph replacement rewrites them too.
- A pandas `KeyError` for a missing column that the code indexes directly becomes a precondition.
- The `ValueError` that `reset_index` raises when a CQA is named "Unit Operation" also becomes a precondition.

## Model

| member | source | states |
|---|---|---|
| Frames.DistinctNonNull | pcs_generator.py:7-8 | `dropna().unique()` yields each non-null value exactly once, and no other value |
| Frames.DistinctNonNullOrder | pcs_generator.py:7-8 | the distinct values come out in order of first occurrence |
| Frames.Count | pcs_generator.py:98 | a mask sum is at most the row count; it is 0 exactly when no row matches, and it is the row count exactly when all rows match |
| Generator.ControlMatrix | pcs_generator.py:6-17 | axes are the distinct non-null UnitOps and CQAs in first-occurrence order, whatever the mapping holds; each cell is its pair's value after all mapping rows are applied; the returned table is that grid with the index column "Unit Operation" first |
| Generator.FillMatrix | pcs_generator.py:9-15 | starting from the placeholder grid, after the mapping loop every cell holds the value of the last mapping row naming that pair, or the placeholder when no row does |
| Generator.CellAfterUnmapped | pcs_generator.py:9-15 | a pair that no mapping row names keeps "—" |
| Generator.CellAfterLastWriter | pcs_generator.py:10-15 | the last mapping row naming a pair decides its cell (last writer wins) |
| Generator.CellAfterSkipsRow | pcs_generator.py:14-15 | a row that does not name a pair can be dropped from anywhere in the mapping without changing that cell |
| Generator.OffAxisRowIsIgnored | pcs_generator.py:14 | a mapping row whose UnitOp or CQA is off the axes changes no cell of the matrix |
| Generator.CellAfterWithoutControlType | pcs_generator.py:13 | `row.get("ControlType", "Monitors")` on a mapping without that column takes the default: every cell is "—" or "Monitors" |
| Generator.MatrixFrame | pcs_generator.py:16-17 | `reset_index` gives a well-formed table: columns are "Unit Operation" then the CQAs; one row per unit operation holding its name and its cells |
| Generator.KeepPresent | pcs_generator.py:21 | the kept columns are exactly the fixed columns the table has, without repeats, and in the fixed order (any two kept columns stand in that order in the fixed list) |
| Generator.CppIpcMapping | pcs_generator.py:19-24 | the view has the present fixed columns and one row per parameter row; Class is `str(value)`, the rest unchanged; the result is well formed |
| Generator.AcceptanceCriteria | pcs_generator.py:26-42 | one row per CQA row in input order: CQA (None if absent), then Method, the phase's acceptance column and Notes ("" if absent); no rows means no columns |
| Generator.AcceptanceColumn | pcs_generator.py:27-33 | `phase_map.get(phase, "Phase1_Accept")`: the Phase 2 column exactly for "Phase 2", the Phase 3 column exactly for "Phase 3/PPQ", and the Phase 1 column for every phase outside PHASE_ORDER |
| Generator.AcceptanceTableDetermined | pcs_generator.py:33-42 | the table depends only on the CQA rows and on the column the phase selects |
| Generator.AcceptancePhases | pcs_generator.py:27-42 | Preclinical, Phase 1 and every unknown phase give the Phase 1 table; Phase 2 and Phase 3/PPQ read their own columns, with "" where a row lacks the column (`r.get(sel, "")`) |
| Generator.PhaseLookups | pcs_generator.py:86-92 | a phase outside PHASE_ORDER gets the Phase 1 boilerplate and the Phase 1 acceptance column |
| Generator.PhaseBoilerplate | pcs_generator.py:86-92 | `base.get(phase, base["Phase 1"])`: every phase outside PHASE_ORDER gets the Phase 1 text |
| Generator.RowsFor | pcs_generator.py:50 | a unit operation's rows are exactly the parameter rows with that UnitOp |
| Generator.ActiveUnitOps | pcs_generator.py:49-52 | a unit operation gets a group exactly when it has at least one parameter row |
| Generator.FillMissing | pcs_generator.py:54-57 | after the fill loop the frame has every expected column; missing ones hold "" and the existing ones are unchanged |
| Generator.NormalizeGroup | pcs_generator.py:53-58 | a group's table is its rows projected to Parameter, Class, IPC, Target and Range, with "" for missing columns |
| Generator.Groups | pcs_generator.py:49-58 | one (subtitle with en dash, normalised table) pair per active unit operation, in order |
| Generator.PerUnitOpParamTables | pcs_generator.py:44-59 | [] without a UnitOp column or without rows; otherwise exactly the groups of the active unit operations, in unit-operation order |
| Generator.GroupsNonEmpty | pcs_generator.py:51-52 | no group is empty and each has the five expected columns |
| Generator.ActiveUnitOpsOrdered | pcs_generator.py:49 | groups follow the order of the unit-operation table |
| Generator.GroupHoldsExactlyItsRows | pcs_generator.py:50 | a group holds its unit operation's rows, each as often as it occurs, and no other rows |
| Generator.GroupKeepsRowOrder | pcs_generator.py:50 | a group keeps the parameter rows in table order: the group of a concatenated table is the groups of its parts, concatenated |
| Generator.UnitOpNarrative | pcs_generator.py:61-83 | the narrative opens with the unit operation and contains its "Purpose/Description" line (the first matching row's description, or "" when there is none), its CQA line, key-parameter line, IPC line and the fixed rationale paragraph |
| Generator.MappedCqasExactly | pcs_generator.py:65 | a CQA is listed exactly when a mapping row of the unit operation names it |
| Generator.KeyParamsExactly | pcs_generator.py:68-69 | a parameter is a key parameter exactly when a CPP-kind row (any letter case) of the unit operation names it |
| Generator.IpcFallback | pcs_generator.py:72-73 | no row of the unit operation has IPC "yes" (any case) exactly when the flagged rows are empty; then the text is "no IPCs", otherwise it is the joined names |
| Generator.IpcParamsExactly | pcs_generator.py:72-73 | a parameter is listed as an IPC exactly when a flagged row of the unit operation names it |
| Generator.NarrativeNamesEachCqa | pcs_generator.py:65-77 | every CQA mapped to the unit operation appears in the narrative |
| Generator.NarrativeNamesEachKeyParam | pcs_generator.py:68-78 | every named CPP-kind parameter of the unit operation appears in the narrative |
| Generator.NarrativeNamesEachIpc | pcs_generator.py:72-79 | every named flagged IPC parameter of the unit operation appears in the narrative |
| Generator.NarrativeNoCqas | pcs_generator.py:66-77 | with no mapped CQA the narrative says "none identified" |
| Generator.NarrativeNoKeyParams | pcs_generator.py:70-78 | with no named CPP-kind parameter the narrative says "none designated" |
| Generator.NarrativeNoIpcs | pcs_generator.py:73-79 | with no flagged row the narrative says "no IPCs" |
| Generator.CppClassExamples | pcs_generator.py:68 | CPP, pCPP and nCPP classes count as key and PM and a missing class do not |
| Generator.CppTestsAgree | pcs_generator.py:98 | an upper-cased text contains "CPP" exactly when its lower-cased form contains "cpp" |
| Generator.CppCountMatchesNarrative | pcs_generator.py:98 | the justification's CPP count and the narrative's key-parameter filter select the same rows |
| Generator.ControlLinkCountAgrees | pcs_generator.py:101 | where the code as written yields a count, it is the intended count; it yields one exactly when the ControlType column exists |
| Generator.ControlLinkCountFailsWithoutControlType | pcs_generator.py:101 | a one-row mapping without ControlType, valid input for the control matrix, makes the count as written fail; the intended count is 0 |
| Generator.ControlLinkCountMatchesMatrix | pcs_generator.py:101 | the intended control-link count equals the number of mapping rows that the control matrix writes as "Controls" |
| Generator.Assemble | pcs_generator.py:92-102 | the phase paragraph comes first; one more paragraph per condition that holds, so 1 to 5 paragraphs, exactly 1 when none holds and 5 when all hold |
| Generator.AssembleMembership | pcs_generator.py:92-102 | when the five paragraphs open with different characters, each optional paragraph is present exactly when its condition holds |
| Generator.Justifications | pcs_generator.py:85-103 | the conditional appends yield the boilerplate paragraph, then the modality, QTPP, CPP-count and control-count sentences under their conditions, joined by blank lines |
| Generator.JustificationContents | pcs_generator.py:92-103 | the text starts with the phase paragraph and contains each sentence whose condition holds, with the CPP and control counts |
| Generator.JustificationSentences | pcs_generator.py:93-102 | each of the modality, QTPP, CPP-count and control-count sentences is among the paragraphs exactly when its condition holds (a modality, QTPP rows, parameter rows, mapping rows) |
| Generator.JustificationBoilerplateOnly | pcs_generator.py:92-103 | with no modality and empty tables the text is just the phase paragraph |
| Generator.CppSentenceCount | pcs_generator.py:98-99 | the CPP count is at most the parameter row count; the sentence starts with its decimal digits, which read back as the count |
| Strings.Contains | docx_utils.py:11 | `key in text`: a match is never longer than the text and the empty key matches every text |
| Strings.ContainsIff | docx_utils.py:11 | `key in text` holds exactly when the key occurs at some index of the text |
| Strings.ReplaceAll | docx_utils.py:14 | `text.replace(key, val)` leaves the text unchanged when a non-empty key does not occur, and when a key is replaced by itself; when a non-empty key occurs, the result contains the replacement value |
| Strings.JoinContainsEach | pcs_generator.py:66 | every joined item occurs in the joined text |
| Strings.ParseNatToString | pcs_generator.py:99 | the f-string rendering of a count is decimal and reads back as the count |
| Docx.ReplaceGuardRedundant | docx_utils.py:11-14 | the `key in text` guard never changes a paragraph's resulting text |
| Docx.ApplyIsReplaceEach | docx_utils.py:9-17 | a paragraph's new text is each key's replace-all applied in dictionary order to the text so far |
| Docx.ApplyUntouched | docx_utils.py:10-11 | a text containing none of the keys is unchanged |
| Docx.CellStep | docx_utils.py:24-31 | one key on one cell leaves the cell text replaced as in a paragraph |
| Docx.ReplaceCellFacts | docx_utils.py:23-31 | a cell ends with the replaced text; a cell is either untouched or holds exactly one paragraph; a cell containing no key is untouched |
| Docx.TouchedCellOneParagraph | docx_utils.py:24-31 | once some key occurs in a cell's text at its turn, the cell ends with exactly one paragraph (`cell.text = ...` leaves one) |
| Docx.ReplaceBlockText | docx_utils.py:9-17 | paragraph replacement keeps every block's kind and heading level and leaves tables alone |
| Docx.ParagraphsUntouched | docx_utils.py:9-11 | a document where no paragraph contains a key keeps its paragraphs |
| Docx.ReplaceInText | docx_utils.py:10-17 | the loop over keys computes the specified paragraph text |
| Docx.ReplaceInCell | docx_utils.py:23-31 | the loop over keys computes the specified cell |
| Docx.ReplaceInTable | docx_utils.py:21-31 | the nested loops over rows and cells replace every cell of the table as specified |
| Docx.GridShape | docx_utils.py:40-49 | a grid has rows + 1 rows of cols cells; row 0 holds the column names; cell (i + 1, j) holds "" for None and the value otherwise |
| Docx.BuildGrid | docx_utils.py:40-49 | filling a fresh table header first, then the body cell by cell, yields that grid |
| Docx.TableBlocks | docx_utils.py:38-41 | a truthy title adds a level-2 heading right before the table; otherwise the table alone is added |
| Docx.RenderSection | docx_utils.py:62-74 | a section starts with its level-1 title heading |
| Docx.RenderSectionsAppend | docx_utils.py:61-74 | sections render one after another in input order and never interleave |
| Docx.GroupBlocksNoTitle | docx_utils.py:69-72 | a list of (subtitle, table) pairs adds no level-1 heading |
| Docx.ContentHasNoTitle | docx_utils.py:64-74 | no content kind adds a level-1 heading |
| Docx.RenderSectionTitle | docx_utils.py:63-74 | each section contributes exactly one level-1 heading |
| Docx.RenderSectionsTitles | docx_utils.py:61-63 | the rendered sections hold exactly one level-1 heading per section |
| Docx.ReplacementPrecedesSections | docx_utils.py:57-61 | the template's blocks keep their positions with text replaced; generated sections follow, unreplaced |
| Docx.Document.constructor | docx_utils.py:56 | the document opened from a template holds the template's blocks |
| Docx.Document.ReplaceTextInParagraphs | docx_utils.py:8-17 | every heading and paragraph gets its text replaced; the block count and tables do not change |
| Docx.Document.ReplaceTextInTables | docx_utils.py:19-31 | every cell of every table is replaced; other blocks do not change |
| Docx.Document.AddHeading | docx_utils.py:33-35 | exactly one heading of the given level is appended |
| Docx.Document.AddSimpleTable | docx_utils.py:37-50 | appends the optional level-2 heading and then the grid table, and returns the grid |
| Docx.Document.AppendSections | docx_utils.py:60-74 | the blocks are the old blocks followed by each section's rendering, in input order |
| Docx.Document.AppendSection | docx_utils.py:62-74 | appends the title heading, then a paragraph for text, a table for a frame, a heading-and-table per pair for a list, or a paragraph of the printed form otherwise |
| Docx.Document.SaveWithSections | docx_utils.py:52-75 | the template is replaced first (paragraphs, then tables) and the sections are appended after it in order |

## Left out

- `app.py` is not part of this model. It holds the user interface, file upload and download, workbook import and export, and timestamps.
- Opening the template (`Document(template_path)`) is the constructor's argument. `doc.save(output_path)` is not modelled: it is file output.
- python-docx formatting is not modelled: runs, styles, the "Light List Accent 1" table style, and XML element removal. A paragraph is its text and a cell is its paragraphs' texts.
- Docx.Document.AddHeading: does not return the heading paragraph object; no caller in the core uses it.
- Docx.Document.AddSimpleTable: returns the cell grid, not a table object.
- Merged table cells are not modelled. python-docx would report a merged cell once per grid position and so process it repeatedly.
- Replacement values are strings. `str(val)` on other Python values is not modelled.
- `if key in text` on a paragraph: an empty key occurs in every text. Its replace-all follows Python and inserts the value before every character and at the end.
- Strings.ReplaceAll: its contract states when the text is unchanged and that an occurring key leaves the value in the result; the full left-to-right, non-overlapping rewrite is its definition and is not restated as a separate property.
- pandas NaN is not modelled. `None` is the only missing value, so `str()` of a missing value is always "None", never "nan".
- Column dtypes, the pandas row index (kept by filtered frames and by `.copy()`), and non-text cell values are not modelled. Every value is its display text.
- Upper- and lower-casing are ASCII only. Non-ASCII case mappings are not modelled.
- `str.contains` is a regular-expression search. The pattern "CPP" has no metacharacters, so it is modelled as a substring test.
- A section whose content is a pandas Series (an object with `to_dict`), or a list whose items are not pairs, is not modelled. Content is text, a data frame, a list of (subtitle, frame) pairs, or any other value given by its printed form.
- Generator.Justifications: computes the corrected control-link count (Generator.ControlLinkCount). On a non-empty mapping without a ControlType column the source raises `AttributeError` instead (see Findings); the as-written behaviour is Generator.ControlLinkCountAsWritten.
- Generator.Justifications: modality is a string, and "" is its only falsy value. A `None` modality is not modelled.
- Generator.ControlMatrix: a CQA named "Unit Operation" is excluded by a precondition. pandas rejects it in `reset_index`.
- Missing required columns are preconditions, because pandas raises `KeyError`. The affected columns are:
  - UnitOp in the unit-operation table and CQA in the CQA table, for the control matrix;
  - Class for the CPP/IPC view, and for the justification when there are parameter rows;
  - UnitOp in the unit-operation table for the parameter groups, when the parameter table has UnitOp and rows;
  - the narrative's columns.
- Generator.PhaseLookups: does not prove that the four boilerplate texts differ or that each names its phase. That would require character-level reasoning over the long literal texts.
- Generator.JustificationContents: shows that each conditional sentence occurs in the joined text when its condition holds. Absence is proved at the paragraph level (Generator.JustificationSentences: a sentence is a paragraph exactly when its condition holds), not as a substring fact about the joined text.
- The narrative renders the IPC line as the list of flagged parameter names. When rows are flagged but none has a name, that list is empty, not "no IPCs". This is modelled as written.

## Findings

| source | as written | input that shows it | evidently intended | confidence | as-written member | corrected member |
|---|---|---|---|---|---|---|
| pcs_generator.py:101 | `mapping_df.get("ControlType", "")` returns the plain string "" when the column is absent, and a string has no `astype`, so `make_justifications` raises `AttributeError` | a non-empty mapping table without a ControlType column, e.g. one row {UnitOp: "Mixing", CQA: "Purity"}; the control matrix accepts it and writes "Monitors" | the default stands for an all-empty column, so the count is 0 control links | high; not executed | Generator.ControlLinkCountFailsWithoutControlType | Generator.ControlLinkCountMatchesMatrix |
