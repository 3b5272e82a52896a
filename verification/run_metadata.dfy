/**
 * The display rules of the run-metadata table of experiment tracking: how
 * empty fields are shown, the per-run "show more" toggles over long notes,
 * the run chosen for editing, and the bookmark and pin controls.
 */
module RunMetadata {
  import opened Wrappers

  /** A JavaScript value as a run's text fields may hold it. */
  datatype JsValue = Undefined | Null | Str(s: string)

  /** One run as the table receives it. */
  datatype Run = Run(
    id: string,
    title: JsValue,
    author: JsValue,
    gitSha: JsValue,
    gitBranch: JsValue,
    runCommand: JsValue,
    notes: string,
    bookmark: bool)

  // ---------------------------------------------------------------------------
  // Empty values

  /** What is shown in place of an empty or null value. */
  const EmptyMark: JsValue := Str("-")

  /** `sanitiseEmptyValue`: the empty string and `null` are shown as '-'; anything else (`undefined` too) as it is. */
  function SanitiseEmptyValue(value: JsValue): (r: JsValue)
    ensures value == Str("") || value == Null ==> r == EmptyMark
    ensures value != Str("") && value != Null ==> r == value
    ensures r != Str("") && r != Null
  {
    if value == Str("") || value == Null then EmptyMark else value
  }

  lemma SanitiseIdempotent(value: JsValue)
    ensures SanitiseEmptyValue(SanitiseEmptyValue(value)) == SanitiseEmptyValue(value)
  {
  }

  /** A data row of the table: its heading cell (first column only) and its value. */
  datatype DetailRow = DetailRow(heading: Option<string>, value: JsValue)

  /** The label column is shown only beside the first run. */
  function RowLabel(index: nat, title: string): (r: Option<string>)
    ensures r.Some? <==> index == 0
    ensures r.Some? ==> r.value == title
  {
    if index == 0 then Some(title) else None
  }

  /** The author, Git SHA, Git branch and run command rows of the run at position `index`. */
  function DetailRows(run: Run, index: nat): (rows: seq<DetailRow>)
    ensures |rows| == 4
    ensures forall k :: 0 <= k < 4 ==> rows[k].value != Str("") && rows[k].value != Null
    ensures forall k :: 0 <= k < 4 ==> (rows[k].heading.Some? <==> index == 0)
    ensures rows[0].value == SanitiseEmptyValue(run.author) && rows[1].value == SanitiseEmptyValue(run.gitSha)
    ensures rows[2].value == SanitiseEmptyValue(run.gitBranch) && rows[3].value == SanitiseEmptyValue(run.runCommand)
  {
    [ DetailRow(RowLabel(index, "Created By"), SanitiseEmptyValue(run.author)),
      DetailRow(RowLabel(index, "Git SHA"), SanitiseEmptyValue(run.gitSha)),
      DetailRow(RowLabel(index, "Git Branch"), SanitiseEmptyValue(run.gitBranch)),
      DetailRow(RowLabel(index, "Run Command"), SanitiseEmptyValue(run.runCommand)) ]
  }

  // ---------------------------------------------------------------------------
  // Note expansion toggles

  /** Per-run "notes expanded" flags, keyed by the run's position. */
  type ToggleMap = map<nat, bool>

  /** `toggleNotes[i]` read as a condition: a missing entry is `undefined`, which is falsy. */
  predicate IsExpanded(toggles: ToggleMap, index: nat)
    ensures index !in toggles ==> !IsExpanded(toggles, index)
    ensures index in toggles ==> (IsExpanded(toggles, index) <==> toggles[index])
  {
    index in toggles && toggles[index]
  }

  /** The initial toggle state: one entry per run, every one false. */
  method InitialToggleState(runs: seq<Run>) returns (toggles: ToggleMap)
    ensures forall i: nat :: i in toggles <==> i < |runs|
    ensures forall i :: i in toggles ==> !toggles[i]
  {
    toggles := map[];
    for i := 0 to |runs|
      invariant forall j: nat :: j in toggles <==> j < i
      invariant forall j :: j in toggles ==> !toggles[j]
    {
      toggles := toggles[i := false];
    }
  }

  /** `onToggleNoteExpand(index)`: a copy of the toggles with entry `index` negated. */
  function OnToggleNoteExpand(toggles: ToggleMap, index: nat): (r: ToggleMap)
    ensures r.Keys == toggles.Keys + {index}
    ensures IsExpanded(r, index) == !IsExpanded(toggles, index)
    ensures forall j :: j in toggles && j != index ==> r[j] == toggles[j]
  {
    toggles[index := !IsExpanded(toggles, index)]
  }

  /** Toggling an entry that exists twice gives back the same map. */
  lemma ToggleTwiceRestores(toggles: ToggleMap, index: nat)
    requires index in toggles
    ensures OnToggleNoteExpand(OnToggleNoteExpand(toggles, index), index) == toggles
  {
  }

  /**
   * Toggling a missing entry twice leaves it present and false: the map
   * differs, but every run reads as expanded exactly as before.
   */
  lemma ToggleTwiceOnMissingEntry(toggles: ToggleMap, index: nat)
    requires index !in toggles
    ensures OnToggleNoteExpand(OnToggleNoteExpand(toggles, index), index) == toggles[index := false]
    ensures forall j: nat :: IsExpanded(OnToggleNoteExpand(OnToggleNoteExpand(toggles, index), index), j) == IsExpanded(toggles, j)
  {
  }

  // ---------------------------------------------------------------------------
  // Choosing the run to edit

  /** `runs.find(run => run.id === id)`: the first run with that id, if any. */
  function Find(runs: seq<Run>, id: string): (r: Option<Run>)
    ensures r.None? <==> forall k :: 0 <= k < |runs| ==> runs[k].id != id
    ensures r.Some? ==> r.value.id == id && r.value in runs
    ensures r.Some? ==> exists k :: 0 <= k < |runs| && runs[k] == r.value && forall j :: 0 <= j < k ==> runs[j].id != id
  {
    if runs == [] then None
    else if runs[0].id == id then Some(runs[0])
    else
      var rest := Find(runs[1..], id);
      assert rest.Some? ==> exists k :: 0 <= k < |runs| && runs[k] == rest.value && forall j :: 0 <= j < k ==> runs[j].id != id by {
        if rest.Some? {
          var k :| 0 <= k < |runs[1..]| && runs[1..][k] == rest.value && forall j :: 0 <= j < k ==> runs[1..][j].id != id;
          assert runs[k + 1] == rest.value;
          assert forall j :: 0 <= j < k + 1 ==> runs[j].id != id by {
            forall j | 0 <= j < k + 1 ensures runs[j].id != id {
              if j > 0 { assert runs[j] == runs[1..][j - 1]; }
            }
          }
        }
      }
      assert rest.None? ==> forall k :: 0 <= k < |runs| ==> runs[k].id != id by {
        if rest.None? {
          forall k | 0 <= k < |runs| ensures runs[k].id != id {
            if k > 0 { assert runs[k] == runs[1..][k - 1]; }
          }
        }
      }
      rest
  }

  /** What a click on a title or on the notes asks of the page. */
  datatype EditRequest = EditRequest(runMetadataToEdit: Option<Run>, showRunDetailsModal: bool)

  /** `onTitleOrNoteClick(id)`: edit the first run with that id and open the run-details modal. */
  function OnTitleOrNoteClick(runs: seq<Run>, id: string): (r: EditRequest)
    ensures r.showRunDetailsModal
    ensures r.runMetadataToEdit.Some? <==> exists k :: 0 <= k < |runs| && runs[k].id == id
    ensures forall k :: 0 <= k < |runs| && runs[k].id == id && (forall j :: 0 <= j < k ==> runs[j].id != id) ==>
      r.runMetadataToEdit == Some(runs[k])
  {
    var found := Find(runs, id);
    assert forall k :: 0 <= k < |runs| && runs[k].id == id && (forall j :: 0 <= j < k ==> runs[j].id != id) ==>
      found == Some(runs[k]) by {
      forall k | 0 <= k < |runs| && runs[k].id == id && (forall j :: 0 <= j < k ==> runs[j].id != id)
        ensures found == Some(runs[k])
      {
        var k' :| 0 <= k' < |runs| && runs[k'] == found.value && forall j :: 0 <= j < k' ==> runs[j].id != id;
        assert !(k' < k) && !(k < k');
      }
    }
    EditRequest(found, true)
  }

  // ---------------------------------------------------------------------------
  // Notes cell

  const NotesPlaceholder: string := "- Add notes here"
  /** Notes longer than this many characters get a "show more" button. */
  const NotesPreviewLength: nat := 100
  const ShowMoreLabel: string := "Show more"
  const ShowLessLabel: string := "Show less"

  /**
   * The notes row: its "Notes" label cell (first run only), the text, whether
   * it is shown in full, and the label of its button if it has one.
   */
  datatype NotesCell = NotesCell(heading: Option<string>, text: string, displayBlock: bool, showMoreButton: Option<string>)

  /** The notes row of the run at position `index`. */
  function NotesCellFor(run: Run, toggles: ToggleMap, index: nat): (cell: NotesCell)
    ensures cell.heading.Some? <==> index == 0
    ensures cell.heading.Some? ==> cell.heading.value == "Notes"
    ensures cell.text != ""
    ensures run.notes != "" ==> cell.text == run.notes
    ensures run.notes == "" ==> cell.text == NotesPlaceholder
    ensures cell.displayBlock <==> IsExpanded(toggles, index)
    ensures cell.showMoreButton.Some? <==> |run.notes| > NotesPreviewLength
    ensures cell.showMoreButton.Some? ==> (cell.showMoreButton.value == ShowLessLabel <==> IsExpanded(toggles, index))
    ensures cell.showMoreButton.Some? ==> cell.showMoreButton.value in {ShowMoreLabel, ShowLessLabel}
  {
    NotesCell(
      RowLabel(index, "Notes"),
      if run.notes != "" then run.notes else NotesPlaceholder,
      IsExpanded(toggles, index),
      if |run.notes| > NotesPreviewLength then Some(if IsExpanded(toggles, index) then ShowLessLabel else ShowMoreLabel) else None)
  }

  /**
   * Pressing the button of run `index` flips that run's cell between
   * "Show more" and "Show less" and leaves every other run's cell as it was.
   */
  lemma ToggleFlipsOnlyThatCell(runs: seq<Run>, toggles: ToggleMap, index: nat, other: nat)
    requires index < |runs| && |runs[index].notes| > NotesPreviewLength
    requires other < |runs| && other != index
    ensures var after := OnToggleNoteExpand(toggles, index);
      && NotesCellFor(runs[index], after, index).showMoreButton != NotesCellFor(runs[index], toggles, index).showMoreButton
      && NotesCellFor(runs[index], after, index).displayBlock != NotesCellFor(runs[index], toggles, index).displayBlock
      && NotesCellFor(runs[other], after, other) == NotesCellFor(runs[other], toggles, other)
  {
  }

  // ---------------------------------------------------------------------------
  // Bookmark menu

  /** The mutation sent to update a run's details. */
  datatype UpdateRunDetails = UpdateRunDetails(runId: string, bookmark: bool)

  /** `toggleBookmark`: ask the server to store the negation of the current flag. */
  function ToggleBookmark(runId: string, isBookmarked: bool): (m: UpdateRunDetails)
    ensures m.runId == runId
    ensures m.bookmark != isBookmarked
  {
    UpdateRunDetails(runId, !isBookmarked)
  }

  /** The hidden menu's item reads "Unbookmark" for a bookmarked run, "Bookmark" otherwise. */
  function BookmarkMenuLabel(isBookmarked: bool): (text: string)
    ensures text == "Unbookmark" <==> isBookmarked
    ensures text in {"Bookmark", "Unbookmark"}
  {
    if isBookmarked then "Unbookmark" else "Bookmark"
  }

  /** Once the mutation is applied, the menu offers the opposite action. */
  lemma BookmarkRoundTrip(runId: string, isBookmarked: bool)
    ensures BookmarkMenuLabel(ToggleBookmark(runId, isBookmarked).bookmark) != BookmarkMenuLabel(isBookmarked)
    ensures ToggleBookmark(runId, ToggleBookmark(runId, isBookmarked).bookmark).bookmark == isBookmarked
  {
  }

  // ---------------------------------------------------------------------------
  // Pin

  datatype PinIcon = SelectedPin | UnSelectedPin

  /** The pin button shows the selected icon exactly for the pinned run; an absent pin matches no run. */
  function PinIconFor(runId: string, pinnedRun: Option<string>): (icon: PinIcon)
    ensures icon == SelectedPin <==> pinnedRun == Some(runId)
  {
    if pinnedRun == Some(runId) then SelectedPin else UnSelectedPin
  }

  /** Among runs with distinct ids at most one shows the selected pin. */
  lemma AtMostOnePinned(runs: seq<Run>, pinnedRun: Option<string>, i: nat, j: nat)
    requires forall a, b :: 0 <= a < b < |runs| ==> runs[a].id != runs[b].id
    requires i < |runs| && j < |runs|
    requires PinIconFor(runs[i].id, pinnedRun) == SelectedPin && PinIconFor(runs[j].id, pinnedRun) == SelectedPin
    ensures i == j
  {
  }

  // ---------------------------------------------------------------------------
  // The table

  /** The controls beside a title in the multi-run layout: the pin, the bookmark menu (by its item's label) and the close button. */
  datatype TitleControls = TitleControls(pin: PinIcon, bookmarkLabel: string)

  /** A title row: its heading cell (blank, when present), the title shown, and the controls if the layout has them. */
  datatype TitleRow = TitleRow(heading: Option<string>, title: JsValue, controls: Option<TitleControls>)

  /**
   * The title row of the run at position `index`. The single-run layout spans
   * the title over both columns and has no controls; the multi-run layout puts
   * a blank cell beside the first run's title and the controls after each title.
   */
  function TitleRowFor(run: Run, index: nat, isSingleRun: bool, pinnedRun: Option<string>): (row: TitleRow)
    ensures row.heading.Some? <==> !isSingleRun && index == 0
    ensures row.heading.Some? ==> row.heading.value == ""
    ensures row.title == SanitiseEmptyValue(run.title) && row.title != Str("") && row.title != Null
    ensures row.controls.Some? <==> !isSingleRun
    ensures row.controls.Some? ==> (row.controls.value.pin == SelectedPin <==> pinnedRun == Some(run.id))
    ensures row.controls.Some? ==> (row.controls.value.bookmarkLabel == "Unbookmark" <==> run.bookmark)
  {
    if isSingleRun then
      TitleRow(None, SanitiseEmptyValue(run.title), None)
    else
      TitleRow(RowLabel(index, ""), SanitiseEmptyValue(run.title),
               Some(TitleControls(PinIconFor(run.id, pinnedRun), BookmarkMenuLabel(run.bookmark))))
  }

  /** One run's column: its title row, its detail rows and its notes row, top to bottom. */
  datatype RunColumn = RunColumn(title: TitleRow, details: seq<DetailRow>, notes: NotesCell)

  function RunColumnFor(run: Run, index: nat, isSingleRun: bool, pinnedRun: Option<string>, toggles: ToggleMap): RunColumn {
    RunColumn(TitleRowFor(run, index, isSingleRun, pinnedRun), DetailRows(run, index), NotesCellFor(run, toggles, index))
  }

  /** `runs.map((run, i) => ...)`: one column per run, in order, each built with the run's own position. */
  function TableColumns(runs: seq<Run>, isSingleRun: bool, pinnedRun: Option<string>, toggles: ToggleMap): (table: seq<RunColumn>)
    ensures |table| == |runs|
    ensures forall i :: 0 <= i < |runs| ==> table[i] == RunColumnFor(runs[i], i, isSingleRun, pinnedRun, toggles)
  {
    seq(|runs|, i requires 0 <= i < |runs| => RunColumnFor(runs[i], i, isSingleRun, pinnedRun, toggles))
  }

  /** The heading cells of a column, row by row, where it has them. */
  function ColumnHeadings(column: RunColumn): seq<Option<string>> {
    [column.title.heading]
      + seq(|column.details|, k requires 0 <= k < |column.details| => column.details[k].heading)
      + [column.notes.heading]
  }

  /**
   * In the whole table, heading cells appear only in the column of the run at
   * position 0: a blank one beside its title in the multi-run layout, and the
   * labels of the detail and notes rows, in order, in either layout.
   */
  lemma OnlyFirstColumnHasHeadings(runs: seq<Run>, isSingleRun: bool, pinnedRun: Option<string>, toggles: ToggleMap)
    ensures var table := TableColumns(runs, isSingleRun, pinnedRun, toggles);
      forall i :: 0 <= i < |runs| ==>
        && |ColumnHeadings(table[i])| == 6
        && (ColumnHeadings(table[i])[0].Some? <==> i == 0 && !isSingleRun)
        && (forall k :: 0 < k < 6 ==> (ColumnHeadings(table[i])[k].Some? <==> i == 0))
    ensures var table := TableColumns(runs, isSingleRun, pinnedRun, toggles);
      |runs| > 0 ==>
        ColumnHeadings(table[0])[1..] == [Some("Created By"), Some("Git SHA"), Some("Git Branch"), Some("Run Command"), Some("Notes")]
  {
  }
}
