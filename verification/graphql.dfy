/**
 * The experiment-tracking GraphQL resolvers of the backend: turning a stored
 * session row (its id and its parsed metadata blob) into the `Run` record the
 * frontend asks for, for one run or for all of them.
 */
module GraphqlApi {
  import opened Wrappers

  /** A value of the parsed blob, as Python sees it after evaluating the stored text. */
  datatype PyValue =
    | PyNone
    | PyBool(b: bool)
    | PyInt(i: int)
    | PyStr(s: string)
    | PyList(items: seq<PyValue>)
    | PyDict(entries: map<string, PyValue>)

  /** The exceptions the resolvers can raise. */
  datatype PyError =
    | KeyError(key: string)   // a dictionary without the key
    | TypeError               // subscripting something that is not a dictionary with a string
    | AttributeError          // `.blob` of the `None` that an empty query gives

  datatype RunMetadata = RunMetadata(
    id: string,
    author: string,
    gitBranch: string,
    gitSha: PyValue,
    bookmark: bool,
    title: string,
    notes: string,
    timestamp: PyValue,
    runCommand: PyValue)

  datatype RunDetails = RunDetails(id: string, details: string)

  datatype Run = Run(id: string, metadata: RunMetadata, details: RunDetails)

  /** One row of the session store: the run id and its evaluated blob. */
  datatype RunRow = RunRow(id: string, blob: PyValue)

  /** `value[key]` for a string key. */
  function Subscript(value: PyValue, key: string): (r: Result<PyValue, PyError>)
    ensures r.Success? <==> value.PyDict? && key in value.entries
    ensures r.Success? ==> r.value == value.entries[key]
    ensures r.Failure? ==> r.error == if value.PyDict? then KeyError(key) else TypeError
  {
    match value
    case PyDict(entries) => if key in entries then Success(entries[key]) else Failure(KeyError(key))
    case _ => Failure(TypeError)
  }

  /** `value[path[0]][path[1]]...`, failing at the first step that raises. */
  function Lookup(value: PyValue, path: seq<string>): (r: Result<PyValue, PyError>)
    ensures path == [] ==> r == Success(value)
    ensures path != [] && Subscript(value, path[0]).Failure? ==> r == Failure(Subscript(value, path[0]).error)
    ensures path != [] && r.Success? ==> Subscript(value, path[0]).Success?
    ensures r.Failure? ==> path != []
    decreases |path|
  {
    if path == [] then Success(value)
    else
      var child :- Subscript(value, path[0]);
      Lookup(child, path[1..])
  }

  /** A two-key path such as `run_blob["git"]["commit_sha"]` is two subscripts, the second on what the first returned. */
  lemma LookupTwoKeys(value: PyValue, outer: string, inner: string)
    ensures Subscript(value, outer).Failure? ==> Lookup(value, [outer, inner]) == Failure(Subscript(value, outer).error)
    ensures Subscript(value, outer).Success? ==> Lookup(value, [outer, inner]) == Subscript(Subscript(value, outer).value, inner)
  {
  }

  /** A one-key path such as `run_blob["session_id"]` is one subscript. */
  lemma LookupOneKey(value: PyValue, key: string)
    ensures Lookup(value, [key]) == Subscript(value, key)
  {
  }

  const GitShaPath: seq<string> := ["git", "commit_sha"]
  const SessionIdPath: seq<string> := ["session_id"]
  const CommandPathPath: seq<string> := ["cli", "command_path"]

  /**
   * `format_run(run_id, run_blob)`. The three blob reads happen in the order
   * of the keyword arguments: Git SHA, then session id, then command path.
   */
  function FormatRun(runId: string, blob: PyValue): (r: Result<Run, PyError>)
    ensures r.Success? <==>
      Lookup(blob, GitShaPath).Success? && Lookup(blob, SessionIdPath).Success? && Lookup(blob, CommandPathPath).Success?
    ensures r.Success? ==> r.value.id == runId && r.value.metadata.id == runId && r.value.details.id == runId
    ensures r.Success? ==>
      && r.value.metadata.author == "" && r.value.metadata.gitBranch == ""
      && r.value.metadata.title == "" && r.value.metadata.notes == ""
      && !r.value.metadata.bookmark && r.value.details.details == ""
    ensures r.Success? ==>
      && r.value.metadata.gitSha == Lookup(blob, GitShaPath).value
      && r.value.metadata.timestamp == Lookup(blob, SessionIdPath).value
      && r.value.metadata.runCommand == Lookup(blob, CommandPathPath).value
    ensures Lookup(blob, GitShaPath).Failure? ==> r == Failure(Lookup(blob, GitShaPath).error)
    ensures Lookup(blob, GitShaPath).Success? && Lookup(blob, SessionIdPath).Failure? ==>
      r == Failure(Lookup(blob, SessionIdPath).error)
    ensures Lookup(blob, GitShaPath).Success? && Lookup(blob, SessionIdPath).Success? && Lookup(blob, CommandPathPath).Failure? ==>
      r == Failure(Lookup(blob, CommandPathPath).error)
  {
    var gitSha :- Lookup(blob, GitShaPath);
    var timestamp :- Lookup(blob, SessionIdPath);
    var runCommand :- Lookup(blob, CommandPathPath);
    var metadata := RunMetadata(runId, "", "", gitSha, false, "", "", timestamp, runCommand);
    var details := RunDetails(runId, "");
    Success(Run(runId, metadata, details))
  }

  /** `format_run` of a row, with the row's own id. */
  function FormatRow(row: RunRow): Result<Run, PyError> {
    FormatRun(row.id, row.blob)
  }

  /** The blob a Kedro session records, with the three entries `format_run` reads. */
  function SessionBlob(commitSha: string, sessionId: string, commandPath: string, others: map<string, PyValue>): PyValue {
    PyDict(others + map[
      "git" := PyDict(map["commit_sha" := PyStr(commitSha)]),
      "session_id" := PyStr(sessionId),
      "cli" := PyDict(map["command_path" := PyStr(commandPath)])])
  }

  /** A session blob formats to a run that carries its SHA, session id and command, whatever else it holds. */
  lemma FormatSessionBlob(runId: string, commitSha: string, sessionId: string, commandPath: string, others: map<string, PyValue>)
    ensures FormatRun(runId, SessionBlob(commitSha, sessionId, commandPath, others)).Success?
    ensures var run := FormatRun(runId, SessionBlob(commitSha, sessionId, commandPath, others)).value;
      && run.metadata.gitSha == PyStr(commitSha)
      && run.metadata.timestamp == PyStr(sessionId)
      && run.metadata.runCommand == PyStr(commandPath)
  {
  }

  /** Two blobs that agree on the three entries `format_run` reads give the same run. */
  lemma FormatRunReadsOnlyThreeEntries(runId: string, a: PyValue, b: PyValue)
    requires Lookup(a, GitShaPath) == Lookup(b, GitShaPath)
    requires Lookup(a, SessionIdPath) == Lookup(b, SessionIdPath)
    requires Lookup(a, CommandPathPath) == Lookup(b, CommandPathPath)
    ensures FormatRun(runId, a) == FormatRun(runId, b)
  {
  }

  /**
   * `get_runs()`: format every stored row in order. The first row whose blob
   * lacks an entry raises, and no list is returned.
   */
  method GetRuns(rows: seq<RunRow>) returns (r: Result<seq<Run>, PyError>)
    ensures r.Success? <==> forall i :: 0 <= i < |rows| ==> FormatRow(rows[i]).Success?
    ensures r.Success? ==> |r.value| == |rows| && forall i :: 0 <= i < |rows| ==> FormatRow(rows[i]) == Success(r.value[i])
    ensures r.Failure? ==>
      exists k :: 0 <= k < |rows| && FormatRow(rows[k]) == Failure(r.error) && (forall i :: 0 <= i < k ==> FormatRow(rows[i]).Success?)
  {
    var runs: seq<Run> := [];
    for k := 0 to |rows|
      invariant |runs| == k
      invariant forall i :: 0 <= i < k ==> FormatRow(rows[i]) == Success(runs[i])
    {
      var run := FormatRow(rows[k]);
      if run.Failure? {
        return Failure(run.error);
      }
      runs := runs + [run.value];
    }
    return Success(runs);
  }

  /** Row `k` is the first row with id `runId`. */
  predicate IsFirstWithId(rows: seq<RunRow>, runId: string, k: nat) {
    k < |rows| && rows[k].id == runId && forall i :: 0 <= i < k ==> rows[i].id != runId
  }

  /** The position of the row that `filter(RunModel.id == run_id).first()` returns, if any. */
  function FirstWithId(rows: seq<RunRow>, runId: string): (r: Option<nat>)
    ensures r.None? <==> forall i :: 0 <= i < |rows| ==> rows[i].id != runId
    ensures r.Some? ==> IsFirstWithId(rows, runId, r.value)
  {
    if rows == [] then None
    else if rows[0].id == runId then Some(0)
    else
      var rest := FirstWithId(rows[1..], runId);
      assert forall i :: 0 < i < |rows| ==> rows[1..][i - 1] == rows[i];
      if rest.None? then None else Some(rest.value + 1)
  }

  /** There is at most one first row with a given id. */
  lemma FirstWithIdUnique(rows: seq<RunRow>, runId: string, j: nat, k: nat)
    requires IsFirstWithId(rows, runId, j) && IsFirstWithId(rows, runId, k)
    ensures j == k
  {
  }

  /**
   * `get_run(run_id)`: format the first row with that id; with no such row the
   * query yields `None` and reading its blob raises.
   */
  function GetRun(rows: seq<RunRow>, runId: string): (r: Result<Run, PyError>)
    ensures (forall i :: 0 <= i < |rows| ==> rows[i].id != runId) ==> r == Failure(AttributeError)
    ensures forall k: nat :: IsFirstWithId(rows, runId, k) ==> r == FormatRow(rows[k])
  {
    var found := FirstWithId(rows, runId);
    assert forall k: nat :: IsFirstWithId(rows, runId, k) ==> found == Some(k) by {
      forall k: nat | IsFirstWithId(rows, runId, k) ensures found == Some(k) {
        FirstWithIdUnique(rows, runId, found.value, k);
      }
    }
    match found
    case None => Failure(AttributeError)
    case Some(k) => FormatRow(rows[k])
  }

  /** A run fetched by id is the one the full listing holds at the first position with that id. */
  lemma GetRunAgreesWithGetRuns(rows: seq<RunRow>, runs: seq<Run>, runId: string, k: nat)
    requires |runs| == |rows| && forall i :: 0 <= i < |rows| ==> FormatRow(rows[i]) == Success(runs[i])
    requires IsFirstWithId(rows, runId, k)
    ensures GetRun(rows, runId) == Success(runs[k])
    ensures runs[k].id == runId
  {
  }
}
