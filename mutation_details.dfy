/**
 * `main` of generate_mutation_details.py: for every `task_<id>` directory
 * holding both a cosmic-ray session store and the module under test, one
 * record joining each mutation spec of the session with its work result.
 * The directory listing comes in as a list of entries, each carrying what
 * the file system and the sqlite queries would give for that directory.
 */
module MutationDetails {
  import opened Wrappers
  import opened Text
  import opened Filtering

  const TaskPrefix := "task_"
  const Pending := "pending"
  const NoDiff := "No diff"

  /** A row of `mutation_specs`: job id, operator and the span it mutates. */
  datatype SpecRow = SpecRow(jobId: string, operator: string, startRow: int, startCol: int, endRow: int, endCol: int)

  /** A row of `work_results`; a NULL column is None. */
  datatype WorkRow = WorkRow(jobId: string, testOutcome: Option<string>, diff: Option<string>)

  /** The value `work_results` keeps for a job id. */
  datatype Outcome = Outcome(testOutcome: Option<string>, diff: Option<string>)

  /** One entry of `mutants`; a None status or diff is written as JSON null. */
  datatype Mutant = Mutant(status: Option<string>, operator: string, diff: Option<string>,
                           startLine: int, startColumn: int, endLine: int, endColumn: int)

  /**
   * A name in the base directory, whether `cosmic-ray.sqlite` and `mod.py`
   * exist under it, the rows of its two tables and the text of `mod.py`
   * as `f.read()` returns it, with newlines already translated.
   */
  datatype DirEntry = DirEntry(name: string, dbExists: bool, codeExists: bool,
                               specs: seq<SpecRow>, work: seq<WorkRow>, code: string)

  /** One element of `results`. */
  datatype TaskRecord = TaskRecord(taskId: string, originalCode: string, mutants: seq<Mutant>)

  // ---------------------------------------------------------------------
  // Task ids (generate_mutation_details.py:9-12)
  // ---------------------------------------------------------------------

  predicate IsTaskDir(name: string) {
    StartsWith(name, TaskPrefix)
  }

  /**
   * `name.split("_")[1]` for a name starting with "task_": the text after
   * the prefix up to the next '_' or the end; the prefix guarantees the
   * second field exists.
   */
  function TaskIdOf(name: string): (id: string)
    requires IsTaskDir(name)
    ensures var rest := name[|TaskPrefix|..];
            id <= rest && '_' !in id && (|id| == |rest| || rest[|id|] == '_')
  {
    var rest := name[|TaskPrefix|..];
    assert name == "task" + ['_'] + rest;
    SplitAfterFirst("task", '_', rest);
    Split(name, '_')[1]
  }

  // ---------------------------------------------------------------------
  // The work-results map and the join (generate_mutation_details.py:24-43)
  // ---------------------------------------------------------------------

  function OutcomeOf(row: WorkRow): Outcome {
    Outcome(row.testOutcome, row.diff)
  }

  function JobIds(rows: seq<WorkRow>): set<string> {
    set i | 0 <= i < |rows| :: rows[i].jobId
  }

  /**
   * `{row[0]: {...} for row in rows}`: a key for each job id of the rows and
   * no other, later rows overwriting earlier ones.
   */
  function WorkResults(rows: seq<WorkRow>): (m: map<string, Outcome>)
    ensures m.Keys == JobIds(rows)
  {
    if rows == [] then map[]
    else
      var n := |rows| - 1;
      var front := WorkResults(rows[..n]);
      assert JobIds(rows) == JobIds(rows[..n]) + {rows[n].jobId} by {
        forall i | 0 <= i < n ensures rows[..n][i] == rows[i] {
        }
      }
      front[rows[n].jobId := OutcomeOf(rows[n])]
  }

  /** A job id's value comes from the last row with that id. */
  lemma {:induction false} WorkResultsLastWins(rows: seq<WorkRow>, i: nat)
    requires i < |rows|
    requires forall j :: i < j < |rows| ==> rows[j].jobId != rows[i].jobId
    ensures var m := WorkResults(rows);
            rows[i].jobId in m && m[rows[i].jobId] == OutcomeOf(rows[i])
  {
    var n := |rows| - 1;
    if i < n {
      WorkResultsLastWins(rows[..n], i);
    }
  }

  /**
   * One mutant: the operator and the span as the spec row gives them; the
   * status and the diff of the job's work result when it has one, kept as
   * they are even when NULL, and "pending" / "No diff" when it has none.
   */
  function MutantOf(spec: SpecRow, work: map<string, Outcome>): (m: Mutant)
    ensures m.operator == spec.operator
    ensures m.startLine == spec.startRow && m.startColumn == spec.startCol
    ensures m.endLine == spec.endRow && m.endColumn == spec.endCol
    ensures spec.jobId !in work ==> m.status == Some(Pending) && m.diff == Some(NoDiff)
    ensures spec.jobId in work ==> m.status == work[spec.jobId].testOutcome && m.diff == work[spec.jobId].diff
  {
    var status := if spec.jobId in work then work[spec.jobId].testOutcome else Some(Pending);
    var diff := if spec.jobId in work then work[spec.jobId].diff else Some(NoDiff);
    Mutant(status, spec.operator, diff, spec.startRow, spec.startCol, spec.endRow, spec.endCol)
  }

  /**
   * The join seen from the rows: a job with no work row is pending with no
   * diff; a job with work rows takes the outcome and diff of the last one.
   */
  lemma MutantFromRows(spec: SpecRow, rows: seq<WorkRow>)
    ensures var m := MutantOf(spec, WorkResults(rows));
            (forall j :: 0 <= j < |rows| ==> rows[j].jobId != spec.jobId)
              ==> m.status == Some(Pending) && m.diff == Some(NoDiff)
    ensures var m := MutantOf(spec, WorkResults(rows));
            forall i :: 0 <= i < |rows| && rows[i].jobId == spec.jobId
                        && (forall j :: i < j < |rows| ==> rows[j].jobId != spec.jobId)
              ==> m.status == rows[i].testOutcome && m.diff == rows[i].diff
  {
    var m := WorkResults(rows);
    if spec.jobId in m {
      assert spec.jobId in JobIds(rows);
    }
    forall i | 0 <= i < |rows| && rows[i].jobId == spec.jobId
               && (forall j :: i < j < |rows| ==> rows[j].jobId != spec.jobId)
      ensures m[spec.jobId] == OutcomeOf(rows[i])
    {
      WorkResultsLastWins(rows, i);
    }
  }

  /** `mutants_list`: one mutant per spec row, in row order. */
  function Mutants(specs: seq<SpecRow>, work: map<string, Outcome>): (ms: seq<Mutant>)
    ensures |ms| == |specs|
    ensures forall i :: 0 <= i < |specs| ==> ms[i] == MutantOf(specs[i], work)
  {
    seq(|specs|, i requires 0 <= i < |specs| => MutantOf(specs[i], work))
  }

  /** The inner loop of `main`. */
  method BuildMutants(specs: seq<SpecRow>, work: map<string, Outcome>) returns (mutants: seq<Mutant>)
    ensures mutants == Mutants(specs, work)
  {
    mutants := [];
    for i := 0 to |specs|
      invariant |mutants| == i && forall j :: 0 <= j < i ==> mutants[j] == MutantOf(specs[j], work)
    {
      var spec := specs[i];
      var status := if spec.jobId in work then work[spec.jobId].testOutcome else Some(Pending);
      var diff := if spec.jobId in work then work[spec.jobId].diff else Some(NoDiff);
      mutants := mutants + [Mutant(status, spec.operator, diff, spec.startRow, spec.startCol, spec.endRow, spec.endCol)];
    }
  }

  // ---------------------------------------------------------------------
  // The directory walk (generate_mutation_details.py:8-49)
  // ---------------------------------------------------------------------

  /** A directory `main` reports on: a `task_` name with both files present. */
  predicate Retained(e: DirEntry) {
    IsTaskDir(e.name) && e.dbExists && e.codeExists
  }

  function RecordOf(e: DirEntry): (r: TaskRecord)
    requires IsTaskDir(e.name)
    ensures r.taskId == TaskIdOf(e.name) && r.originalCode == e.code
    ensures r.mutants == Mutants(e.specs, WorkResults(e.work))
  {
    TaskRecord(TaskIdOf(e.name), e.code, Mutants(e.specs, WorkResults(e.work)))
  }

  /** `results`. */
  function Details(entries: seq<DirEntry>): (results: seq<TaskRecord>)
    ensures |results| <= |entries|
  {
    FilterMap(entries, Retained, RecordOf)
  }

  /**
   * Exactly one record per retained directory, in listing order; a name
   * without the `task_` prefix or a directory missing either file gives none.
   */
  lemma DetailsSpec(entries: seq<DirEntry>)
    ensures var results, idx := Details(entries), Indices(entries, Retained);
            |results| == |idx| && StrictlyIncreasing(idx)
            && (forall k :: 0 <= k < |idx| ==>
                  idx[k] < |entries| && Retained(entries[idx[k]]) && results[k] == RecordOf(entries[idx[k]]))
            && (forall i :: 0 <= i < |entries| && Retained(entries[i]) ==> i in idx)
  {
    FilterMapSpec(entries, Retained, RecordOf);
  }

  /** `main` up to the JSON output: the outer loop over the listing. */
  method GenerateDetails(entries: seq<DirEntry>) returns (results: seq<TaskRecord>)
    ensures results == Details(entries)
  {
    results := [];
    for i := 0 to |entries|
      invariant results == Details(entries[..i])
    {
      assert entries[..i + 1][..i] == entries[..i];
      var e := entries[i];
      if !StartsWith(e.name, TaskPrefix) {
        continue;
      }
      var taskId := TaskIdOf(e.name);
      if !e.dbExists || !e.codeExists {
        continue;
      }
      var work := WorkResults(e.work);
      var mutants := BuildMutants(e.specs, work);
      results := results + [TaskRecord(taskId, e.code, mutants)];
    }
    assert entries[..|entries|] == entries;
  }
}
