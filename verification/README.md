# kedro-viz store wiring, run metadata and run records, in Dafny

This project models three parts of kedro-viz, the visualiser for Kedro data
pipelines and experiment runs.

- **Store wiring** (`store.dfy`, module `Store`). `configureStore` creates the
  Redux store and asks for one graph layout calculation for the state as
  created. It then watches the `getGraphInput` projection of state. After every
  dispatched update, the watcher asks for a new calculation only when that
  projection changed. A second listener then overwrites local storage with a
  pruned snapshot of state. The snapshot drops the modal and focus-mode
  visibility flags, drops the `false` entries of `node.disabled`, and copies a
  fixed allow-list of other slices. The store is the class `AppStore`. Its
  fields are the current `state`, the watcher's remembered `lastGraphInput`, the
  `localStorage` content, and a ghost `log` of requested calculations and saved
  snapshots, in order. The reducer and `getGraphInput` are taken as given
  functions, fixed when the store is configured.
- **Run-metadata display rules** (`run_metadata.dfy`, module `RunMetadata`).
  These cover showing empty values as `-`, the per-run "notes expanded"
  toggles, finding the run to edit, the notes cell and its show-more button,
  the bookmark menu, and the pin icon.
- **Run records on the backend** (`graphql.py`, modelled in `graphql.dfy`,
  module `GraphqlApi`). `format_run` builds a `Run` record from a run id and its
  parsed metadata blob. `get_runs` formats every stored row in order. `get_run`
  formats the first row with a given id. Python exceptions become the error
  half of a `Result`: `KeyError`, `TypeError`, and `AttributeError` for a
  missing row.

`wrappers.dfy` holds the `Option` and `Result` types shared by the modules.

Points where the model follows the code rather than a plain reading of it:

- The watcher does not start from an "unset" marker. `watch` reads the graph
  input of the created state when the watcher is built (src/store/store.js:18).
  The first calculation is the unconditional request made just before that
  (line 17).
- `createStore` itself runs the reducer once with Redux's initialisation
  action. So the state the store starts from is
  `reducer(initialState, ReduxInit)`.
- Listeners are notified in subscription order. The graph watcher
  (line 19) therefore runs before the local-storage listener (line 78).
  `AppStore.Dispatch` and its ghost log show this order.

## Model

| member | source | states |
|---|---|---|
| Store.PruneFalseyKeys | src/store/store.js:42 | the pruned `node.disabled` holds exactly the keys whose value is true, each with its original value |
| Store.PruneIsSubMap | src/store/store.js:42 | the pruned mapping is a sub-map of the original, and every key it lost was false |
| Store.PruneKeepsDisabledReading | src/store/store.js:42 | pruning never changes whether a node reads as disabled, since a missing key reads as enabled |
| Store.PruneIdempotent | src/store/store.js:42 | pruning a pruned mapping changes nothing |
| Store.PersistedSnapshot | src/store/store.js:31-62 | the snapshot's `visible` has none of `exportModal`, `plotModal`, `settingsModal` or `modularPipelineFocusMode`; it has every other key of `state.visible` with its value; `node.disabled` is exactly the truthy entries; `nodeType.disabled`, `pipeline.active`, `layer.visible`, `tag.enabled`, `textLabels`, `theme`, `prettyName` and `flags` are copied unchanged |
| Store.ModalFlagsNotPersisted | src/store/store.js:32-39 | setting any of the four UI-only flags to any value leaves the snapshot unchanged |
| Store.SnapshotOnlyReadsAllowList | src/store/store.js:40-61 | two states that agree on the allow-listed slices, and on `visible` apart from the modal flags, are persisted identically, whatever their graph or other slices hold |
| Store.Requests | src/store/store.js:17-23 | the calculation requests extracted from the event log: every requested input appears, and there are no more requests than events |
| Store.RequestsAppend | src/store/store.js:17-23 | the requests of a concatenated log are the requests of the first part followed by those of the second |
| Store.AppStore.Configure | src/store/store.js:69-83 | the state is the reducer applied to the initial state with Redux's initialisation action; exactly one calculation has been requested, for that state's graph input; local storage is untouched; the store invariant holds |
| Store.AppStore.WatchGraphInput | src/store/store.js:18-23 | a calculation is requested, with the new input, exactly when the input differs from the remembered one, and the remembered input is replaced; otherwise nothing is requested and nothing changes; consecutive requests never repeat an input |
| Store.AppStore.SaveStateToLocalStorage | src/store/store.js:78-80 | local storage is overwritten with the snapshot of the current state, and no calculation is requested |
| Store.AppStore.Dispatch | src/store/store.js:72-80 | the new state is the reducer applied to the old state and the action; if the graph input changed, the log gains the calculation request and then the saved snapshot, in that order, and otherwise only the saved snapshot; local storage equals the snapshot of the new state; the invariant holds (the last request is for the current graph input, no two consecutive requests are equal, at most one request per update plus the initial one) |
| RunMetadata.SanitiseEmptyValue | src/components/experiment-tracking/run-metadata/run-metadata.js:14-16 | `''` and `null` become `'-'`; every other value (`undefined` included) is returned unchanged; the result is never empty or null |
| RunMetadata.SanitiseIdempotent | src/components/experiment-tracking/run-metadata/run-metadata.js:14-16 | sanitising twice equals sanitising once |
| RunMetadata.RowLabel | src/components/experiment-tracking/run-metadata/run-metadata.js:150 | the row-label cell is present iff the run is the first (`i === 0`) and then holds the label |
| RunMetadata.DetailRows | src/components/experiment-tracking/run-metadata/run-metadata.js:149-170 | the author, Git SHA, Git branch and run-command rows show the sanitised values, which are never blank, with labels only for the first run |
| RunMetadata.TitleRowFor | src/components/experiment-tracking/run-metadata/run-metadata.js:94-145 | the single-run layout (lines 94-104) has no blank cell and no controls; the multi-run layout has the blank first-column cell iff the run is the first, and always has the controls, whose pin is selected iff the run is the pinned one and whose bookmark item reads `Unbookmark` iff the run is bookmarked; in both layouts the title is the sanitised title, never blank |
| RunMetadata.TableColumns | src/components/experiment-tracking/run-metadata/run-metadata.js:82 | the table holds one column per run, in order, each built with the run's own position: title row, detail rows, notes row |
| RunMetadata.OnlyFirstColumnHasHeadings | src/components/experiment-tracking/run-metadata/run-metadata.js:82-190 | over the whole table, in either layout, every column has six heading slots; only the column of the run at position 0 fills any; there the title slot holds the blank cell exactly in the multi-run layout, and the other slots read "Created By", "Git SHA", "Git Branch", "Run Command" and "Notes" in that order (the "Creation Date" row, which sits between the first two, is left out) |
| RunMetadata.IsExpanded | src/components/experiment-tracking/run-metadata/run-metadata.js:177-186 | a toggle with no entry reads as collapsed (`undefined` is falsy); an entry reads as its own value |
| RunMetadata.InitialToggleState | src/components/experiment-tracking/run-metadata/run-metadata.js:58-61 | the initial toggle map has exactly the keys `0..runs.length-1`, all false |
| RunMetadata.OnToggleNoteExpand | src/components/experiment-tracking/run-metadata/run-metadata.js:65-67 | entry `index` is negated, where a missing entry reads as false and so becomes true; every other entry is unchanged; no key is lost |
| RunMetadata.ToggleTwiceRestores | src/components/experiment-tracking/run-metadata/run-metadata.js:65-67 | toggling an existing entry twice restores the map |
| RunMetadata.ToggleTwiceOnMissingEntry | src/components/experiment-tracking/run-metadata/run-metadata.js:65-67 | toggling a missing entry twice leaves it present and false, so every run reads as expanded exactly as before |
| RunMetadata.Find | src/components/experiment-tracking/run-metadata/run-metadata.js:70 | the result is absent iff no run has the id; otherwise it is the first run with that id |
| RunMetadata.OnTitleOrNoteClick | src/components/experiment-tracking/run-metadata/run-metadata.js:69-74 | the run-details modal is always opened; the run to edit is the first run whose id matches, or none if no run matches |
| RunMetadata.NotesCellFor | src/components/experiment-tracking/run-metadata/run-metadata.js:171-188 | the `Notes` label cell is present iff the run is the first; the text is the notes, or `'- Add notes here'` when they are empty; it is shown in full iff the toggle is on; the button is present iff the notes are longer than 100, and its label is `'Show less'` iff the toggle is on |
| RunMetadata.ToggleFlipsOnlyThatCell | src/components/experiment-tracking/run-metadata/run-metadata.js:177-186 | pressing run `i`'s button flips that run's label and full display, and leaves every other run's notes cell unchanged |
| RunMetadata.ToggleBookmark | src/components/experiment-tracking/run-metadata/run-metadata.js:22-27 | the mutation targets the run's id and sends the negation of the current bookmark flag |
| RunMetadata.BookmarkMenuLabel | src/components/experiment-tracking/run-metadata/run-metadata.js:39-41 | (the menu exists only in the multi-run layout) the menu reads `'Unbookmark'` iff the run is bookmarked, and `'Bookmark'` otherwise |
| RunMetadata.BookmarkRoundTrip | src/components/experiment-tracking/run-metadata/run-metadata.js:22-41 | once the mutation is applied, the menu offers the opposite action; toggling twice sends back the original flag |
| RunMetadata.PinIconFor | src/components/experiment-tracking/run-metadata/run-metadata.js:118-129 | (the pin exists only in the multi-run layout) the selected pin icon is used iff the run's id equals the pinned run; no pin matches no run |
| RunMetadata.AtMostOnePinned | src/components/experiment-tracking/run-metadata/run-metadata.js:122-128 | among runs with distinct ids, at most one shows the selected pin |
| GraphqlApi.Subscript | package/kedro_viz/api/graphql.py:58-63 | `value[key]` succeeds iff the value is a dict holding the key; otherwise it raises `KeyError(key)` for a dict and `TypeError` for anything else |
| GraphqlApi.FormatRun | package/kedro_viz/api/graphql.py:44-71 | on success the run id, metadata id and details id are all `run_id`; author, branch, title, notes and details are `""` and bookmark is false; `gitSha`, `timestamp` and `runCommand` are the blob's `git.commit_sha`, `session_id` and `cli.command_path`; it succeeds iff all three exist, and otherwise raises the error of the first missing one in argument order |
| GraphqlApi.FormatSessionBlob | package/kedro_viz/api/graphql.py:58-63 | a blob holding the three entries, plus any other keys, formats successfully and carries exactly those three values |
| GraphqlApi.FormatRunReadsOnlyThreeEntries | package/kedro_viz/api/graphql.py:54-71 | blobs that agree on the three entries give the same run, whatever else they contain |
| GraphqlApi.GetRuns | package/kedro_viz/api/graphql.py:89-101 | on success, one run per row, in row order, each equal to `format_run` of that row; it succeeds iff every row formats; otherwise it raises the error of the first row that fails |
| GraphqlApi.Lookup | package/kedro_viz/api/graphql.py:58-63 | an empty path gives the value itself; a path fails with the error of its first subscript when that one raises, and succeeds only when that one succeeds |
| GraphqlApi.LookupTwoKeys | package/kedro_viz/api/graphql.py:58-63 | `blob["git"]["commit_sha"]` and `blob["cli"]["command_path"]` are the second subscript applied to what the first returned, or the first one's error |
| GraphqlApi.LookupOneKey | package/kedro_viz/api/graphql.py:62 | `blob["session_id"]` is exactly one subscript |
| GraphqlApi.FirstWithId | package/kedro_viz/api/graphql.py:84 | the query's first row: absent iff no row has the id, otherwise the position of the first row with it |
| GraphqlApi.GetRun | package/kedro_viz/api/graphql.py:74-86 | `format_run` of the first row with the id; `AttributeError` when no row has it |
| GraphqlApi.GetRunAgreesWithGetRuns | package/kedro_viz/api/graphql.py:74-101 | when the listing succeeds, fetching one id gives the run the listing holds at the first row with that id, and that run carries the id |

## Left out

- Graph input comparison: redux-watch compares with `===`, and the memoised `getGraphInput` selector keeps identity stable when nothing relevant changes. The model compares graph inputs by value. It does not model object identity or selector memoisation.
- The reducer and `getGraphInput`: these are given functions of the store, not modelled. Whatever the reducer does with an unrecognised action is whatever that function does.
- `calculateGraph`: its web-worker layout, the synchronous loading-flag dispatches inside the thunk, and the asynchronous result action are not modelled. Only the request and its input are recorded. A graph result can reach the store as an ordinary action passed to `Dispatch`. The race between stale and fresh results is not modelled (concurrency).
- `saveState` and the start-up load: JSON serialisation, the `window.localStorage` write and its error handling, and merging a stored snapshot into the initial state are not modelled (I/O; src/store/helpers.js is not part of this model). Local storage is one field holding the last snapshot.
- Store.PruneFalseyKeys: values are booleans, so only `false` is dropped. Other JavaScript falsy values (`0`, `''`, `null`, `undefined`) are not modelled.
- `state.visible` values are modelled as booleans. `modularPipelineFocusMode` holds null or an object in the application, but it is removed before saving either way.
- The Redux devtools hook, `applyMiddleware(thunk)`, unsubscribing, and the `console.log` call at src/store/store.js:21.
- RunMetadata.NotesCellFor: `notes.length` counts UTF-16 code units in JavaScript. The model counts characters, so notes with characters outside the Basic Multilingual Plane can be judged shorter than the source judges them.
- React rendering, CSS class names, the `useState` hook (the toggle map is a plain value), the hidden menu's own visibility toggle, the close button's `onRunSelection` call, `setPinnedRun`, the `visible={enableShowChanges}` flag of the pin button (whose effect lies in `IconButton`, not part of this model), and the "Creation Date" row, whose `toHumanReadableTime` is not part of this model.
- The `useUpdateRunDetails` mutation: the model states the payload sent, not the network call.
- Backend: the SQLAlchemy session query and the `eval` of the stored blob text are not modelled; the rows are given already parsed, as one sequence in a fixed order. `get_runs` uses `.all()` and `get_run` uses `.filter(...).first()`, two separate queries without `ORDER BY`. The model reads both from the same `rows`, so GraphqlApi.GetRunAgreesWithGetRuns assumes that both queries see the rows in the same order. When run ids are unique, order does not matter, because at most one row matches. The run table's schema is not part of this model. The strawberry schema and FastAPI routing (package/kedro_viz/api/graphql.py:104-151) are left out too; only the record shapes are modelled. Strawberry does not check field types at construction, so the three copied blob values keep whatever Python value they hold.
- src/components/sidebar/index.js and src/apollo/queries.js: a choice between two component trees and GraphQL query strings. Neither has logic to model.
