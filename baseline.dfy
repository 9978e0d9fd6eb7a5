/**
 * `baseline_run` and `mutation_run` of main.py with the file system and the
 * `cosmic-ray` subprocesses taken out: the directory listing comes in as a
 * list of names, the success of each subprocess as a boolean per task, and
 * the subprocesses started come out as a list of calls.
 */
module Baseline {
  import opened Wrappers
  import opened Text
  import opened Filtering
  import Materialise

  const ConfigSuffix := ".toml"
  const StoreSuffix := ".sqlite"

  /** A `cosmic-ray` invocation: `init <config> <store>`, `baseline <config>` or `exec <config> <store>`. */
  datatype Call = Init(config: string, store: string) | Baseline(config: string) | Exec(config: string, store: string)

  /** One task of `total_tasks` with the outcomes of its two subprocesses. */
  datatype TaskRun = TaskRun(id: string, initOk: bool, baselineOk: bool)

  /** The configuration path of a task: the `<id>.toml` that `baseline_init` wrote under `data/mods/`. */
  function ConfigPath(id: string): (path: string)
    ensures path == Materialise.ModsDir + Materialise.ConfigName(id)
  {
    Materialise.ModsDir + id + ConfigSuffix
  }

  /** The session store of a task: beside its configuration, with `.sqlite` in place of `.toml`. */
  function StorePath(id: string): (path: string)
    ensures var stem := |Materialise.ModsDir| + |id|;
            |path| == stem + |StoreSuffix| && path[..stem] == ConfigPath(id)[..stem] && path[stem..] == StoreSuffix
  {
    Materialise.ModsDir + id + StoreSuffix
  }

  // ---------------------------------------------------------------------
  // Task ids from the directory listing (main.py:79-81)
  // ---------------------------------------------------------------------

  predicate IsConfigName(name: string) {
    EndsWith(name, ConfigSuffix)
  }

  /**
   * `name.split('.')[0]`: the longest prefix of `name` without a '.'; it is
   * all of `name` or is followed by a '.'.
   */
  function TaskId(name: string): (id: string)
    ensures id <= name && '.' !in id
    ensures |id| == |name| || name[|id|] == '.'
  {
    Split(name, '.')[0]
  }

  /** `total_tasks`: the task id of each `.toml` name, in listing order. */
  function TaskIds(listing: seq<string>): (total: seq<string>)
    ensures |total| <= |listing|
  {
    FilterMap(listing, IsConfigName, TaskId)
  }

  /**
   * The task ids are exactly the ids of the `.toml` names, one per such name
   * and in listing order; every other name is ignored.
   */
  lemma TaskIdsSpec(listing: seq<string>)
    ensures var total, idx := TaskIds(listing), Indices(listing, IsConfigName);
            |total| == |idx| && StrictlyIncreasing(idx)
            && (forall k :: 0 <= k < |idx| ==>
                  idx[k] < |listing| && IsConfigName(listing[idx[k]]) && total[k] == TaskId(listing[idx[k]]))
            && (forall i :: 0 <= i < |listing| && IsConfigName(listing[i]) ==> i in idx)
  {
    FilterMapSpec(listing, IsConfigName, TaskId);
  }

  /** The first loop of `baseline_run`. */
  method CollectTasks(listing: seq<string>) returns (total: seq<string>)
    ensures total == TaskIds(listing)
  {
    total := [];
    for i := 0 to |listing|
      invariant total == TaskIds(listing[..i])
    {
      assert listing[..i + 1][..i] == listing[..i];
      if EndsWith(listing[i], ConfigSuffix) {
        total := total + [Split(listing[i], '.')[0]];
      }
    }
    assert listing[..|listing|] == listing;
  }

  /**
   * The configuration `baseline_init` writes for an id without a '.' gives
   * that id back, and its test module is not taken for a configuration.
   */
  lemma ConfigNameGivesId(id: string)
    requires '.' !in id
    ensures IsConfigName(Materialise.ConfigName(id)) && TaskId(Materialise.ConfigName(id)) == id
    ensures !IsConfigName(Materialise.TestModuleName(id))
  {
    var name := Materialise.ConfigName(id);
    FirstFieldBeforeSeparator(id, '.', ConfigSuffix);
    assert name[|name| - |ConfigSuffix|..] == ConfigSuffix;
    var test := Materialise.TestModuleName(id);
    assert test[|test| - 1] == 'y';
  }

  /** The names of the files `baseline_init` writes for `ids`, in writing order. */
  function WrittenNames(ids: seq<string>): (names: seq<string>)
    ensures |names| == 2 * |ids|
  {
    if ids == [] then []
    else
      var id := ids[|ids| - 1];
      WrittenNames(ids[..|ids| - 1]) + [Materialise.TestModuleName(id), Materialise.ConfigName(id)]
  }

  function FileNames(writes: seq<Materialise.FileWrite>): (names: seq<string>)
    ensures |names| == |writes| && forall i :: 0 <= i < |writes| ==> names[i] == writes[i].name
  {
    if writes == [] then [] else FileNames(writes[..|writes| - 1]) + [writes[|writes| - 1].name]
  }

  lemma FileNamesAppend(a: seq<Materialise.FileWrite>, b: seq<Materialise.FileWrite>)
    ensures FileNames(a + b) == FileNames(a) + FileNames(b)
  {
  }

  /** The files `baseline_init` writes are the test module, then the configuration, of each id. */
  lemma {:induction false} MaterialisedNames(preamble: string, ids: seq<string>, samples: seq<Materialise.Sample>, timeout: int)
    requires |ids| == |samples|
    ensures FileNames(Materialise.Materialised(preamble, ids, samples, timeout)) == WrittenNames(ids)
  {
    hide Materialise.TestModuleText, Materialise.ConfigText;
    if ids != [] {
      var n := |ids| - 1;
      MaterialisedNames(preamble, ids[..n], samples[..n], timeout);
      FileNamesAppend(Materialise.Materialised(preamble, ids[..n], samples[..n], timeout),
                      Materialise.TaskFiles(preamble, ids[n], samples[n], timeout));
    }
  }

  lemma PairGivesId(id: string)
    requires '.' !in id
    ensures TaskIds([Materialise.TestModuleName(id), Materialise.ConfigName(id)]) == [id]
  {
    hide Materialise.TestModuleName, Materialise.ConfigName, IsConfigName, TaskId;
    var test, config := Materialise.TestModuleName(id), Materialise.ConfigName(id);
    ConfigNameGivesId(id);
    FilterMapAppend([test], [config], IsConfigName, TaskId);
    assert [test, config] == [test] + [config];
  }

  /**
   * Listing the files `baseline_init` writes, in the order it writes them,
   * gives back its ids when they hold no '.', as its letter-only ids do.
   */
  lemma {:induction false} ListingGivesIds(ids: seq<string>)
    requires forall i :: 0 <= i < |ids| ==> '.' !in ids[i]
    ensures TaskIds(WrittenNames(ids)) == ids
  {
    hide Materialise.TestModuleName, Materialise.ConfigName, TaskId, IsConfigName;
    if ids != [] {
      var n := |ids| - 1;
      var id := ids[n];
      ListingGivesIds(ids[..n]);
      var pair := [Materialise.TestModuleName(id), Materialise.ConfigName(id)];
      PairGivesId(id);
      FilterMapAppend(WrittenNames(ids[..n]), pair, IsConfigName, TaskId);
      assert WrittenNames(ids) == WrittenNames(ids[..n]) + pair;
      assert ids == ids[..n] + [id];
    }
  }

  // ---------------------------------------------------------------------
  // Admission (main.py:83-97)
  // ---------------------------------------------------------------------

  /** The tasks paired with the outcomes of their `init` and `baseline` runs, by position. */
  function Runs(total: seq<string>, initOk: nat -> bool, baselineOk: nat -> bool): (runs: seq<TaskRun>)
    ensures |runs| == |total|
    ensures forall i :: 0 <= i < |total| ==> runs[i] == TaskRun(total[i], initOk(i), baselineOk(i))
  {
    seq(|total|, i requires 0 <= i < |total| => TaskRun(total[i], initOk(i), baselineOk(i)))
  }

  predicate Admits(run: TaskRun) {
    run.initOk && run.baselineOk
  }

  predicate InitSucceeded(run: TaskRun) {
    run.initOk
  }

  function RunId(run: TaskRun): string {
    run.id
  }

  /** `correct_tasks`. */
  function Admitted(total: seq<string>, initOk: nat -> bool, baselineOk: nat -> bool): (correct: seq<string>)
    ensures |correct| <= |total|
  {
    FilterMap(Runs(total, initOk, baselineOk), Admits, RunId)
  }

  /**
   * `correct_tasks` is the subsequence of `total_tasks` at the positions
   * whose `init` and then `baseline` succeeded: every admitted task is such
   * a task, in order, and every such task is admitted.
   */
  lemma AdmissionSpec(total: seq<string>, initOk: nat -> bool, baselineOk: nat -> bool)
    ensures var correct, idx := Admitted(total, initOk, baselineOk), Indices(Runs(total, initOk, baselineOk), Admits);
            |correct| == |idx| && StrictlyIncreasing(idx)
            && (forall k :: 0 <= k < |idx| ==>
                  idx[k] < |total| && correct[k] == total[idx[k]] && initOk(idx[k]) && baselineOk(idx[k]))
            && (forall i :: 0 <= i < |total| && initOk(i) && baselineOk(i) ==> i in idx)
  {
    var runs := Runs(total, initOk, baselineOk);
    FilterMapSpec(runs, Admits, RunId);
    var idx := Indices(runs, Admits);
    forall i | 0 <= i < |total| && initOk(i) && baselineOk(i) ensures i in idx {
      assert Admits(runs[i]);
    }
  }

  /** The subprocesses started for one task: `init`, then `baseline` only if `init` succeeded. */
  function TaskCalls(run: TaskRun): (calls: seq<Call>)
    ensures |calls| == (if run.initOk then 2 else 1)
    ensures calls[0] == Init(ConfigPath(run.id), StorePath(run.id))
    ensures run.initOk ==> calls[1] == Baseline(ConfigPath(run.id))
  {
    [Init(ConfigPath(run.id), StorePath(run.id))] + (if run.initOk then [Baseline(ConfigPath(run.id))] else [])
  }

  /** The subprocesses the second loop of `baseline_run` starts, in order. */
  function CallLog(runs: seq<TaskRun>): (log: seq<Call>)
    ensures |log| >= |runs|
  {
    if runs == [] then [] else CallLog(runs[..|runs| - 1]) + TaskCalls(runs[|runs| - 1])
  }

  /** The log of consecutive runs is the log of the first followed by the log of the second. */
  lemma {:induction false} CallLogAppend(a: seq<TaskRun>, b: seq<TaskRun>)
    ensures CallLog(a + b) == CallLog(a) + CallLog(b)
  {
    if b != [] {
      var n := |b| - 1;
      assert (a + b)[..|a + b| - 1] == a + b[..n];
      CallLogAppend(a, b[..n]);
    } else {
      assert a + b == a;
    }
  }

  lemma {:induction false} CallLogSnoc(front: seq<TaskRun>, run: TaskRun)
    ensures CallLog(front + [run]) == CallLog(front) + TaskCalls(run)
  {
    hide TaskCalls;
    assert (front + [run])[..|front|] == front;
  }

  /**
   * The calls run one task at a time: task i's block (`init`, then
   * `baseline` if `init` succeeded) comes after every call of the tasks
   * before it and before every call of the tasks after it.
   */
  lemma {:induction false} CallLogAt(runs: seq<TaskRun>, i: nat)
    requires i < |runs|
    ensures CallLog(runs) == CallLog(runs[..i]) + TaskCalls(runs[i]) + CallLog(runs[i + 1..])
  {
    hide CallLog, TaskCalls;
    var head, post := runs[..i + 1], runs[i + 1..];
    assert head == runs[..i] + [runs[i]];
    CallLogSnoc(runs[..i], runs[i]);
    assert head + post == runs;
    CallLogAppend(head, post);
  }

  predicate IsInit(c: Call) { c.Init? }
  predicate IsBaseline(c: Call) { c.Baseline? }
  function Same(c: Call): Call { c }
  function InitCallOf(run: TaskRun): Call { Init(ConfigPath(run.id), StorePath(run.id)) }
  function BaselineCallOf(run: TaskRun): Call { Baseline(ConfigPath(run.id)) }

  /** Every task gets exactly one `init`, in task order. */
  lemma {:induction false} InitCallsSpec(runs: seq<TaskRun>)
    ensures FilterMap(CallLog(runs), IsInit, Same) == FilterMap(runs, _ => true, InitCallOf)
  {
    if runs != [] {
      var front, last := runs[..|runs| - 1], runs[|runs| - 1];
      InitCallsSpec(front);
      var calls := TaskCalls(last);
      FilterMapAppend(CallLog(front), calls, IsInit, Same);
      if last.initOk {
        assert calls == [calls[0]] + [calls[1]];
        FilterMapAppend([calls[0]], [calls[1]], IsInit, Same);
      }
    }
  }

  /**
   * The `baseline` calls are exactly those of the tasks whose `init`
   * succeeded, in task order: an `init` failure skips the baseline.
   */
  lemma {:induction false} BaselineCallsSpec(runs: seq<TaskRun>)
    ensures FilterMap(CallLog(runs), IsBaseline, Same) == FilterMap(runs, InitSucceeded, BaselineCallOf)
  {
    if runs != [] {
      var front, last := runs[..|runs| - 1], runs[|runs| - 1];
      BaselineCallsSpec(front);
      var calls := TaskCalls(last);
      FilterMapAppend(CallLog(front), calls, IsBaseline, Same);
      if last.initOk {
        assert calls == [calls[0]] + [calls[1]];
        FilterMapAppend([calls[0]], [calls[1]], IsBaseline, Same);
      }
    }
  }

  /**
   * The second loop of `baseline_run`: `init` each task, skip it when that
   * fails, else run `baseline` and admit it when that succeeds.
   */
  method FilterBaseline(total: seq<string>, initOk: nat -> bool, baselineOk: nat -> bool)
    returns (correct: seq<string>, calls: seq<Call>)
    ensures correct == Admitted(total, initOk, baselineOk)
    ensures calls == CallLog(Runs(total, initOk, baselineOk))
  {
    var runs := Runs(total, initOk, baselineOk);
    correct, calls := [], [];
    for i := 0 to |total|
      invariant correct == FilterMap(runs[..i], Admits, RunId)
      invariant calls == CallLog(runs[..i])
    {
      assert runs[..i + 1][..i] == runs[..i];
      var id := total[i];
      calls := calls + [Init(ConfigPath(id), StorePath(id))];
      if !initOk(i) {
        continue;
      }
      calls := calls + [Baseline(ConfigPath(id))];
      if baselineOk(i) {
        correct := correct + [id];
      }
    }
    assert runs[..|total|] == runs;
  }

  /**
   * `len(correct_tasks) / len(total_tasks)`: a ZeroDivisionError when no
   * task was listed, else a ratio that scales the total back to the count.
   */
  function ConversionRate(correctCount: nat, totalCount: nat): (r: Result<real, string>)
    ensures r.Err? <==> totalCount == 0
    ensures r.Ok? ==> r.value * totalCount as real == correctCount as real
    ensures r.Ok? && correctCount <= totalCount ==> 0.0 <= r.value <= 1.0
  {
    if totalCount == 0 then Err("ZeroDivisionError") else Ok(correctCount as real / totalCount as real)
  }

  // ---------------------------------------------------------------------
  // The registry `data/correct_tasks` (main.py:100-102, 119-122)
  // ---------------------------------------------------------------------

  /**
   * The registry text: each id followed by a newline, so it is empty exactly
   * when no task was admitted and otherwise ends with a newline.
   */
  function RegistryText(ids: seq<string>): (text: string)
    ensures text == [] <==> ids == []
    ensures text != [] ==> text[|text| - 1] == '\n'
  {
    if ids == [] then [] else ids[0] + "\n" + RegistryText(ids[1..])
  }

  lemma {:induction false} RegistryTextAppend(ids: seq<string>, id: string)
    ensures RegistryText(ids + [id]) == RegistryText(ids) + id + "\n"
  {
    if ids == [] {
      assert [id][1..] == [];
    } else {
      assert (ids + [id])[1..] == ids[1..] + [id];
      RegistryTextAppend(ids[1..], id);
    }
  }

  /** Writing the registry, one `f.write(f'{task}\n')` per admitted task. */
  method WriteRegistry(ids: seq<string>) returns (text: string)
    ensures text == RegistryText(ids)
  {
    text := "";
    for i := 0 to |ids|
      invariant text == RegistryText(ids[..i])
    {
      RegistryTextAppend(ids[..i], ids[i]);
      assert ids[..i + 1] == ids[..i] + [ids[i]];
      text := text + ids[i] + "\n";
    }
    assert ids[..|ids|] == ids;
  }

  /** Reading in text mode: "\r\n" and a lone '\r' both become '\n'. */
  function Translate(s: string): (t: string)
    ensures '\r' !in t
    ensures '\r' !in s ==> t == s
  {
    if s == [] then []
    else if s[0] == '\r' then
      "\n" + Translate(if |s| > 1 && s[1] == '\n' then s[2..] else s[1..])
    else [s[0]] + Translate(s[1..])
  }

  /** Text without '\r' is copied as it is, whatever follows it. */
  lemma {:induction false} TranslatePrefix(a: string, b: string)
    requires '\r' !in a
    ensures Translate(a + b) == a + Translate(b)
  {
    if a != [] {
      var s := a + b;
      assert s[0] == a[0] && s[1..] == a[1..] + b;
      assert Translate(s) == [a[0]] + Translate(a[1..] + b);
      TranslatePrefix(a[1..], b);
      assert a == [a[0]] + a[1..];
      ConcatAssoc([a[0]], a[1..], Translate(b));
    } else {
      assert a + b == b;
    }
  }

  /** Before any '\r', text is copied; "\r\n" is read as a single '\n'. */
  lemma TranslateCrLf(a: string, b: string)
    requires '\r' !in a
    ensures Translate(a + "\r\n" + b) == a + "\n" + Translate(b)
  {
    var s := "\r\n" + b;
    assert s[0] == '\r' && s[1] == '\n' && s[2..] == b;
    assert a + "\r\n" + b == a + s;
    TranslatePrefix(a, s);
  }

  /** A '\r' not followed by '\n' is read as a '\n' of its own. */
  lemma TranslateLoneCr(a: string, b: string)
    requires '\r' !in a
    requires b == [] || b[0] != '\n'
    ensures Translate(a + "\r" + b) == a + "\n" + Translate(b)
  {
    var s := "\r" + b;
    assert s[0] == '\r' && s[1..] == b;
    assert !(|s| > 1 && s[1] == '\n') by {
      if |s| > 1 {
        assert s[1] == b[0];
      }
    }
    assert Translate(s) == "\n" + Translate(b);
    assert a + "\r" + b == a + s;
    TranslatePrefix(a, s);
  }

  function Concat(lines: seq<string>): (s: string) {
    if lines == [] then [] else lines[0] + Concat(lines[1..])
  }

  /** A non-empty piece of text with no '\n' except possibly as its last character. */
  predicate IsLine(line: string) {
    line != [] && '\n' !in line[..|line| - 1]
  }

  predicate EndsLine(line: string) {
    line != [] && line[|line| - 1] == '\n'
  }

  /**
   * `readlines()`: `s` cut after each '\n'; every line is non-empty, has no
   * '\n' but possibly its last character, and every line but the last ends
   * with one; together they spell `s`.
   */
  function ReadLines(s: string): (lines: seq<string>)
    ensures Concat(lines) == s
    ensures forall k :: 0 <= k < |lines| ==> IsLine(lines[k])
    ensures forall k :: 0 <= k < |lines| - 1 ==> EndsLine(lines[k])
    decreases |s|
  {
    if s == [] then []
    else
      match IndexOf(s, '\n')
      case None => [s]
      case Some(k) =>
        var line, rest := s[..k + 1], ReadLines(s[k + 1..]);
        assert line[..|line| - 1] == s[..k];
        assert IsLine(line) && EndsLine(line);
        var lines := [line] + rest;
        assert lines[1..] == rest;
        assert forall j :: 0 < j < |lines| ==> lines[j] == rest[j - 1];
        assert s == line + s[k + 1..];
        lines
  }

  /** The registry read back: each line stripped, in file order. */
  function RegistryEntries(text: string): (tasks: seq<string>)
    ensures var lines := ReadLines(Translate(text));
            |tasks| == |lines| && forall i :: 0 <= i < |tasks| ==> tasks[i] == Strip(lines[i])
  {
    var lines := ReadLines(Translate(text));
    seq(|lines|, i requires 0 <= i < |lines| => Strip(lines[i]))
  }

  /** The loop of `mutation_run` that fills `correct_tasks` from the registry. */
  method ReadRegistry(text: string) returns (tasks: seq<string>)
    ensures tasks == RegistryEntries(text)
  {
    hide Strip, ReadLines, Translate;
    var lines := ReadLines(Translate(text));
    tasks := [];
    for i := 0 to |lines|
      invariant |tasks| == i && forall j :: 0 <= j < i ==> tasks[j] == Strip(lines[j])
    {
      tasks := tasks + [Strip(lines[i])];
    }
  }

  /** A line without an inner newline is read as one line, then the rest. */
  lemma ReadLinesCons(id: string, rest: string)
    requires '\n' !in id
    ensures ReadLines(id + "\n" + rest) == [id + "\n"] + ReadLines(rest)
  {
    var s := id + ("\n" + rest);
    assert id + "\n" + rest == s;
    IndexOfAfter(id, '\n', "\n" + rest);
    assert s[..|id| + 1] == id + "\n";
    assert s[|id| + 1..] == rest;
  }

  lemma {:induction false} ReadLinesOfRegistry(ids: seq<string>)
    requires forall i :: 0 <= i < |ids| ==> '\n' !in ids[i]
    ensures var lines := ReadLines(RegistryText(ids));
            |lines| == |ids| && forall i :: 0 <= i < |ids| ==> lines[i] == ids[i] + "\n"
  {
    hide ReadLines;
    if ids != [] {
      var rest := RegistryText(ids[1..]);
      ReadLinesOfRegistry(ids[1..]);
      ReadLinesCons(ids[0], rest);
      var lines, tail := ReadLines(RegistryText(ids)), ReadLines(rest);
      assert lines == [ids[0] + "\n"] + tail;
      forall i | 1 <= i < |ids| ensures lines[i] == ids[i] + "\n" {
        assert lines[i] == tail[i - 1] && ids[1..][i - 1] == ids[i];
      }
    }
  }

  /**
   * Registry round trip: reading back what was written gives the same ids,
   * in the same order, as long as no id holds whitespace.
   */
  lemma RegistryRoundTrip(ids: seq<string>)
    requires forall i :: 0 <= i < |ids| ==> NoSpace(ids[i])
    ensures RegistryEntries(RegistryText(ids)) == ids
  {
    NoNewlineInIds(ids);
    ReadLinesOfRegistry(ids);
    NoCarriageReturnInRegistry(ids);
    var lines := ReadLines(RegistryText(ids));
    forall i | 0 <= i < |ids| ensures Strip(lines[i]) == ids[i] {
      StripLine(ids[i]);
    }
  }

  lemma NoNewlineInIds(ids: seq<string>)
    requires forall i :: 0 <= i < |ids| ==> NoSpace(ids[i])
    ensures forall i :: 0 <= i < |ids| ==> '\n' !in ids[i] && '\r' !in ids[i]
  {
    forall i, j | 0 <= i < |ids| && 0 <= j < |ids[i]| ensures ids[i][j] != '\n' && ids[i][j] != '\r' {
      assert !IsSpace(ids[i][j]);
    }
  }

  lemma {:induction false} NoCarriageReturnInRegistry(ids: seq<string>)
    requires forall i :: 0 <= i < |ids| ==> '\r' !in ids[i]
    ensures '\r' !in RegistryText(ids)
  {
    if ids != [] {
      NoCarriageReturnInRegistry(ids[1..]);
    }
  }

  /** The `exec` run `mutation_run_wrapper` starts for each registered task. */
  function ExecCalls(tasks: seq<string>): (calls: seq<Call>)
    ensures |calls| == |tasks|
    ensures forall i :: 0 <= i < |tasks| ==> calls[i] == Exec(ConfigPath(tasks[i]), StorePath(tasks[i]))
  {
    seq(|tasks|, i requires 0 <= i < |tasks| => Exec(ConfigPath(tasks[i]), StorePath(tasks[i])))
  }

  /** `mutation_run`: read the registry, then one `exec` per registered task. */
  method MutationRun(registry: string) returns (tasks: seq<string>, calls: seq<Call>)
    ensures tasks == RegistryEntries(registry)
    ensures calls == ExecCalls(tasks)
  {
    tasks := ReadRegistry(registry);
    calls := ExecCalls(tasks);
  }

  /**
   * `baseline_run`: the listed tasks, the admitted ones, the subprocesses
   * started, the registry text written and the reported rate (an error when
   * nothing was listed, which happens after the registry is written).
   */
  method BaselineRun(listing: seq<string>, initOk: nat -> bool, baselineOk: nat -> bool)
    returns (total: seq<string>, correct: seq<string>, calls: seq<Call>, registry: string, rate: Result<real, string>)
    ensures total == TaskIds(listing)
    ensures correct == Admitted(total, initOk, baselineOk)
    ensures calls == CallLog(Runs(total, initOk, baselineOk))
    ensures registry == RegistryText(correct)
    ensures rate == ConversionRate(|correct|, |total|)
  {
    total := CollectTasks(listing);
    correct, calls := FilterBaseline(total, initOk, baselineOk);
    registry := WriteRegistry(correct);
    rate := ConversionRate(|correct|, |total|);
  }

  /**
   * What `mutation_run` reads back is what `baseline_run` admitted, when no
   * listed `.toml` name holds whitespace, and the rate reported is then a fraction
   * (or the division error when no task was listed).
   */
  lemma PipelineRoundTrip(listing: seq<string>, initOk: nat -> bool, baselineOk: nat -> bool)
    requires forall i :: 0 <= i < |listing| && IsConfigName(listing[i]) ==> NoSpace(listing[i])
    ensures var correct := Admitted(TaskIds(listing), initOk, baselineOk);
            RegistryEntries(RegistryText(correct)) == correct
    ensures var total := TaskIds(listing);
            var rate := ConversionRate(|Admitted(total, initOk, baselineOk)|, |total|);
            rate.Err? || 0.0 <= rate.value <= 1.0
  {
    var total := TaskIds(listing);
    TaskIdsSpec(listing);
    var idx := Indices(listing, IsConfigName);
    forall k | 0 <= k < |total| ensures NoSpace(total[k]) {
      var name := listing[idx[k]];
      assert forall j :: 0 <= j < |total[k]| ==> total[k][j] == name[j];
    }
    var correct := Admitted(total, initOk, baselineOk);
    AdmissionSpec(total, initOk, baselineOk);
    RegistryRoundTrip(correct);
  }
}
