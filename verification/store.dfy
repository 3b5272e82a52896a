/**
 * The Redux store wiring of the visualiser: a watcher that requests a new
 * graph layout calculation only when the layout-relevant projection of state
 * changes, and a listener that writes a pruned snapshot of state to local
 * storage after every update.
 */
module Store {
  import opened Wrappers

  // ---------------------------------------------------------------------------
  // Application state and the persisted snapshot

  /** The computed layout kept under `state.graph`. */
  datatype Graph = Graph(nodes: seq<string>, edges: seq<(string, string)>)

  /**
   * What the `getGraphInput` selector derives from state. Its exact shape
   * belongs to the layout code; the watcher only compares two of them.
   */
  datatype GraphInput = GraphInput(nodes: seq<string>, edges: seq<(string, string)>, layers: seq<string>)

  /** Actions reaching the reducer; `ReduxInit` is the one `createStore` sends itself. */
  datatype Action = ReduxInit | AppAction(kind: string, payload: string)

  datatype NodeState = NodeState(ids: seq<string>, disabled: map<string, bool>)
  datatype NodeTypeState = NodeTypeState(disabled: map<string, bool>)
  datatype PipelineState = PipelineState(ids: seq<string>, active: string)
  datatype LayerState = LayerState(ids: seq<string>, visible: bool)
  datatype TagState = TagState(ids: seq<string>, enabled: map<string, bool>)

  /** The slices of the application state that the store wiring touches. */
  datatype AppState = AppState(
    node: NodeState,
    nodeType: NodeTypeState,
    pipeline: PipelineState,
    layer: LayerState,
    tag: TagState,
    textLabels: bool,
    visible: map<string, bool>,
    theme: string,
    prettyName: bool,
    flags: map<string, bool>,
    graph: Graph)

  /**
   * What is written to local storage: `node.disabled`, `nodeType.disabled`,
   * `pipeline.active`, `layer.visible` and `tag.enabled` (flattened here), then
   * the top-level `textLabels`, `visible`, `theme`, `prettyName` and `flags`.
   */
  datatype Snapshot = Snapshot(
    nodeDisabled: map<string, bool>,
    nodeTypeDisabled: map<string, bool>,
    pipelineActive: string,
    layerVisible: bool,
    tagEnabled: map<string, bool>,
    textLabels: bool,
    visible: map<string, bool>,
    theme: string,
    prettyName: bool,
    flags: map<string, bool>)

  /** The UI-only visibility flags that are never persisted. */
  const ModalFlags: set<string> := {"exportModal", "plotModal", "settingsModal", "modularPipelineFocusMode"}

  /** A node is disabled when its key is present with a truthy value; a missing key reads as enabled. */
  predicate IsDisabled(disabled: map<string, bool>, key: string) {
    key in disabled && disabled[key]
  }

  /** Keeps exactly the truthy entries of `m`. */
  function PruneFalseyKeys(m: map<string, bool>): (r: map<string, bool>)
    ensures forall k :: k in r <==> k in m && m[k]
    ensures forall k :: k in r ==> r[k] == m[k]
  {
    map k | k in m && m[k] :: m[k]
  }

  /** Pruning keeps a sub-map of the original and drops only entries that were false. */
  lemma PruneIsSubMap(m: map<string, bool>)
    ensures PruneFalseyKeys(m).Keys <= m.Keys
    ensures forall k :: k in m && k !in PruneFalseyKeys(m) ==> !m[k]
  {
  }

  /** Pruning does not change which nodes read as disabled. */
  lemma PruneKeepsDisabledReading(m: map<string, bool>, key: string)
    ensures IsDisabled(PruneFalseyKeys(m), key) == IsDisabled(m, key)
  {
  }

  /** Pruning an already pruned mapping changes nothing. */
  lemma PruneIdempotent(m: map<string, bool>)
    ensures PruneFalseyKeys(PruneFalseyKeys(m)) == PruneFalseyKeys(m)
  {
  }

  /** The snapshot that `saveStateToLocalStorage` writes for `state`. */
  function PersistedSnapshot(state: AppState): (s: Snapshot)
    ensures ModalFlags !! s.visible.Keys
    ensures forall k :: k in state.visible && k !in ModalFlags ==> k in s.visible && s.visible[k] == state.visible[k]
    ensures s.visible.Keys <= state.visible.Keys
    ensures forall k :: k in s.nodeDisabled <==> IsDisabled(state.node.disabled, k)
    ensures forall k :: k in s.nodeDisabled ==> k in state.node.disabled && s.nodeDisabled[k] == state.node.disabled[k]
    ensures s.nodeTypeDisabled == state.nodeType.disabled && s.pipelineActive == state.pipeline.active
    ensures s.layerVisible == state.layer.visible && s.tagEnabled == state.tag.enabled
    ensures s.textLabels == state.textLabels && s.theme == state.theme
    ensures s.prettyName == state.prettyName && s.flags == state.flags
  {
    var otherVisibleProps := state.visible - ModalFlags;
    Snapshot(
      PruneFalseyKeys(state.node.disabled),
      state.nodeType.disabled,
      state.pipeline.active,
      state.layer.visible,
      state.tag.enabled,
      state.textLabels,
      otherVisibleProps,
      state.theme,
      state.prettyName,
      state.flags)
  }

  /** Opening or closing a modal, or entering focus mode, leaves the snapshot as it was. */
  lemma ModalFlagsNotPersisted(state: AppState, flag: string, value: bool)
    requires flag in ModalFlags
    ensures PersistedSnapshot(state.(visible := state.visible[flag := value])) == PersistedSnapshot(state)
  {
  }

  /**
   * Only the allow-listed slices reach the snapshot: two states that agree on
   * them (whatever their graph, ids or modal flags) are persisted alike.
   */
  lemma SnapshotOnlyReadsAllowList(a: AppState, b: AppState)
    requires a.node.disabled == b.node.disabled && a.nodeType == b.nodeType
    requires a.pipeline.active == b.pipeline.active && a.layer.visible == b.layer.visible
    requires a.tag.enabled == b.tag.enabled && a.textLabels == b.textLabels
    requires a.visible - ModalFlags == b.visible - ModalFlags
    requires a.theme == b.theme && a.prettyName == b.prettyName && a.flags == b.flags
    ensures PersistedSnapshot(a) == PersistedSnapshot(b)
  {
  }

  // ---------------------------------------------------------------------------
  // The store

  /** What the wiring does on the outside, in order. */
  datatype Event = CalculationRequested(input: GraphInput) | StateSaved(snapshot: Snapshot)

  /** The graph inputs for which a calculation was requested, in order. */
  function Requests(log: seq<Event>): (r: seq<GraphInput>)
    ensures |r| <= |log|
    ensures forall e :: e in log && e.CalculationRequested? ==> e.input in r
  {
    if log == [] then []
    else (if log[0].CalculationRequested? then [log[0].input] else []) + Requests(log[1..])
  }

  lemma {:induction false} RequestsAppend(a: seq<Event>, b: seq<Event>)
    ensures Requests(a + b) == Requests(a) + Requests(b)
  {
    if a == [] {
      assert a + b == b;
    } else {
      assert (a + b)[1..] == a[1..] + b;
      RequestsAppend(a[1..], b);
    }
  }

  /** No two consecutive requests are for the same input. */
  ghost predicate NoRedundantRequests(requests: seq<GraphInput>) {
    forall i :: 0 < i < |requests| ==> requests[i - 1] != requests[i]
  }

  /**
   * The store as `configureStore` builds it. `reducer` and `getGraphInput` are
   * the application's reducer and layout selector, taken as given functions.
   * `lastGraphInput` is the value the graph watcher remembers and
   * `localStorage` the last snapshot written (or what was there before).
   */
  class AppStore {
    const reducer: (AppState, Action) -> AppState
    const getGraphInput: AppState -> GraphInput
    var state: AppState
    var lastGraphInput: GraphInput
    var localStorage: Option<Snapshot>
    ghost var log: seq<Event>
    ghost var updates: nat

    /** The watcher's own invariant: it last asked for the input it remembers, and never asked twice in a row for one input. */
    ghost predicate WatcherValid()
      reads this
    {
      && Requests(log) != []
      && Requests(log)[|Requests(log)| - 1] == lastGraphInput
      && NoRedundantRequests(Requests(log))
    }

    ghost predicate Valid()
      reads this
    {
      && WatcherValid()
      && lastGraphInput == getGraphInput(state)
      && |Requests(log)| <= updates + 1
      && (updates > 0 ==> localStorage == Some(PersistedSnapshot(state)) && log[|log| - 1] == StateSaved(PersistedSnapshot(state)))
    }

    /**
     * `configureStore(initialState)`: create the store, request one graph
     * calculation for the state as created, start watching the graph input,
     * then subscribe the local-storage listener. `stored` is what local storage
     * held before.
     */
    constructor Configure(reducer: (AppState, Action) -> AppState, getGraphInput: AppState -> GraphInput,
                          initialState: AppState, stored: Option<Snapshot>)
      ensures Valid()
      ensures this.reducer == reducer && this.getGraphInput == getGraphInput
      ensures state == reducer(initialState, ReduxInit)
      ensures log == [CalculationRequested(getGraphInput(state))]
      ensures localStorage == stored && updates == 0
    {
      this.reducer := reducer;
      this.getGraphInput := getGraphInput;
      var created := reducer(initialState, ReduxInit);
      state := created;
      localStorage := stored;
      updates := 0;
      var input := getGraphInput(created);
      assert Requests([CalculationRequested(input)]) == [input] by {
        assert [CalculationRequested(input)][1..] == [];
      }
      log := [CalculationRequested(input)];
      lastGraphInput := input;
    }

    /** The watcher subscribed by `updateGraphOnChange`. */
    method WatchGraphInput()
      requires WatcherValid()
      modifies this`lastGraphInput, this`log
      ensures WatcherValid() && lastGraphInput == getGraphInput(state)
      ensures |Requests(log)| <= |Requests(old(log))| + 1
      ensures getGraphInput(state) != old(lastGraphInput) ==> log == old(log) + [CalculationRequested(getGraphInput(state))]
      ensures getGraphInput(state) == old(lastGraphInput) ==> log == old(log) && lastGraphInput == old(lastGraphInput)
    {
      var graphInput := getGraphInput(state);
      if graphInput != lastGraphInput {
        RequestsAppend(log, [CalculationRequested(graphInput)]);
        assert Requests([CalculationRequested(graphInput)]) == [graphInput] by {
          assert [CalculationRequested(graphInput)][1..] == [];
        }
        lastGraphInput := graphInput;
        log := log + [CalculationRequested(graphInput)];
      }
    }

    /** The listener subscribed by `configureStore`: overwrite local storage with the current snapshot. */
    method SaveStateToLocalStorage()
      requires WatcherValid()
      modifies this`localStorage, this`log
      ensures WatcherValid() && Requests(log) == Requests(old(log))
      ensures localStorage == Some(PersistedSnapshot(state))
      ensures log == old(log) + [StateSaved(PersistedSnapshot(state))]
    {
      var snapshot := PersistedSnapshot(state);
      RequestsAppend(log, [StateSaved(snapshot)]);
      assert Requests([StateSaved(snapshot)]) == [] by {
        assert [StateSaved(snapshot)][1..] == [];
      }
      localStorage := Some(snapshot);
      log := log + [StateSaved(snapshot)];
    }

    /**
     * `store.dispatch(action)`: apply the reducer, then notify the listeners in
     * the order they were subscribed: the graph watcher first, then the
     * local-storage listener.
     */
    method Dispatch(action: Action)
      requires Valid()
      modifies this
      ensures Valid()
      ensures state == reducer(old(state), action) && updates == old(updates) + 1
      ensures localStorage == Some(PersistedSnapshot(state))
      ensures getGraphInput(state) != getGraphInput(old(state)) ==>
        log == old(log) + [CalculationRequested(getGraphInput(state)), StateSaved(PersistedSnapshot(state))]
      ensures getGraphInput(state) == getGraphInput(old(state)) ==>
        log == old(log) + [StateSaved(PersistedSnapshot(state))]
    {
      state := reducer(state, action);
      updates := updates + 1;
      WatchGraphInput();
      SaveStateToLocalStorage();
    }
  }
}
