/**
 * Task materialisation (main.py:15-73): the random task id, the generated
 * test module and the cosmic-ray TOML configuration written for each sample.
 * The file system is replaced by the list of files written, in order; the
 * random generator by the stream of indices it draws.
 */
module Materialise {
  import opened Wrappers
  import opened Text

  /** One dataset line after `json.loads`: the sample's code and its tests. */
  datatype Sample = Sample(code: string, tests: seq<string>)

  /** A file written into `data/mods`, named relative to that directory. */
  datatype FileWrite = FileWrite(name: string, contents: string)

  /** The settings a cosmic-ray configuration file carries. */
  datatype Config = Config(modulePath: string, timeout: int, testCommand: string)

  const ModsDir := "data/mods/"

  /** Number of letters `baseline_init` asks for (`generate_alphabetic_uuid`'s own default is 32). */
  const TaskIdLength: nat := 16

  // ---------------------------------------------------------------- ids

  predicate IsAsciiLetter(c: char) {
    'a' <= c <= 'z' || 'A' <= c <= 'Z'
  }

  /** `string.ascii_letters[k]`: the 26 lower-case letters, then the 26 upper-case ones. */
  function AsciiLetter(k: nat): (c: char)
    requires k < 52
    ensures IsAsciiLetter(c)
  {
    if k < 26 then ('a' as int + k) as char else ('A' as int + (k - 26)) as char
  }

  function LetterIndex(c: char): (k: nat)
    requires IsAsciiLetter(c)
    ensures k < 52 && AsciiLetter(k) == c
  {
    if 'a' <= c <= 'z' then (c as int - 'a' as int) as nat else (c as int - 'A' as int + 26) as nat
  }

  /**
   * `generate_alphabetic_uuid(length)`: `random.choices` draws `length`
   * indices into `string.ascii_letters`; `rng(start + j)` is the j-th draw.
   */
  function AlphabeticUuid(length: nat, rng: nat -> nat, start: nat): (id: string)
    ensures |id| == length
    ensures forall j :: 0 <= j < |id| ==> IsAsciiLetter(id[j])
  {
    var id := seq(length, j requires 0 <= j => AsciiLetter(rng(start + j) % 52));
    assert forall j :: 0 <= j < length ==> id[j] == AsciiLetter(rng(start + j) % 52);
    id
  }

  /** Conversely, every string of ASCII letters is the id of some sequence of draws. */
  lemma EveryLetterIdIsDrawable(id: string)
    requires forall j :: 0 <= j < |id| ==> IsAsciiLetter(id[j])
    ensures exists rng: nat -> nat :: AlphabeticUuid(|id|, rng, 0) == id
  {
    var rng := (j: nat) => if j < |id| then LetterIndex(id[j]) else 0;
    var r := AlphabeticUuid(|id|, rng, 0);
    assert forall j :: 0 <= j < |id| ==> r[j] == id[j];
    assert r == id;
  }

  // ---------------------------------------------------------------- test module

  /**
   * The import preamble written before every sample's code (main.py:26-41):
   * it opens with a blank line and ends with a newline, so the code starts
   * on a line of its own.
   */
  function CodeImport(): (preamble: string)
    ensures |preamble| > 1 && preamble[0] == '\n' && preamble[|preamble| - 1] == '\n'
  {
    "\n" + "import os\n" + "import re\n" + "import math\n" + "import numpy\n" + "import pandas\n"
    + "import pytest\n" + "import random\n" + "import string\n" + "import warnings\n"
    + "import datetime\n" + "import traceback\n" + "import numpy as np\n" + "import pandas as pd\n"
    + "from typing import " + "List, Dict, Any, " + "Optional, Union, " + "Tuple, Set, "
    + "FrozenSet, " + "Sequence, Iterable, " + "Generator, " + "Callable\n"
  }

  /** The blank lines and the row of 100 `#` between the code and the tests. */
  function Separator(): (s: string)
    ensures |s| == 104 && s[..2] == "\n\n" && s[102..] == "\n\n"
    ensures forall i :: 2 <= i < 102 ==> s[i] == '#'
  {
    "\n\n" + Repeat('#', 100) + "\n\n"
  }

  /** The tests in listed order, each followed by a blank line. */
  function TestBlock(tests: seq<string>): (block: string)
    ensures block == [] <==> tests == []
    ensures |block| >= 2 * |tests|
  {
    if tests == [] then "" else TestBlock(tests[..|tests| - 1]) + tests[|tests| - 1] + "\n\n"
  }

  /**
   * The text of `test_<id>.py` with the given preamble (always `CodeImport()`
   * in `baseline_init`): the header (preamble, code, separator) followed by
   * each test and a blank line. `baseline_init` collects the tests in
   * `test_cases` and writes them after the header in one go; the recursion
   * here adds one test at a time, and TestModuleLayout shows the two agree.
   */
  function TestModuleText(preamble: string, code: string, tests: seq<string>): (text: string)
    ensures preamble + code + Separator() <= text
    ensures |text| >= |preamble| + |code| + 104 + 2 * |tests|
  {
    if tests == [] then preamble + code + Separator()
    else TestModuleText(preamble, code, tests[..|tests| - 1]) + tests[|tests| - 1] + "\n\n"
  }

  /** `test_<id>.py`: the id framed by the prefix and the extension. */
  function TestModuleName(id: string): (name: string)
    ensures |name| == |id| + 8 && name[..5] == "test_" && name[5..|id| + 5] == id && name[|id| + 5..] == ".py"
  {
    "test_" + id + ".py"
  }

  /** The module path both configuration keys point at. */
  function TestModulePath(id: string): string {
    ModsDir + TestModuleName(id)
  }

  lemma {:induction false} TestBlockAppend(a: seq<string>, b: seq<string>)
    ensures TestBlock(a + b) == TestBlock(a) + TestBlock(b)
  {
    if b == [] {
      assert a + b == a;
    } else {
      var b', last := b[..|b| - 1], b[|b| - 1];
      assert (a + b)[..|a + b| - 1] == a + b' && (a + b)[|a + b| - 1] == last;
      assert TestBlock(a + b) == TestBlock(a + b') + last + "\n\n";
      TestBlockAppend(a, b');
      assert TestBlock(b) == TestBlock(b') + last + "\n\n";
    }
  }

  /**
   * Test `i` sits in the block right after the tests before it, and is
   * followed by a blank line.
   */
  lemma TestBlockLayout(tests: seq<string>, i: nat)
    requires i < |tests|
    ensures var off := |TestBlock(tests[..i])|;
            var block := TestBlock(tests);
            off + |tests[i]| + 2 <= |block|
            && block[off..off + |tests[i]| + 2] == tests[i] + "\n\n"
  {
    assert tests == tests[..i] + [tests[i]] + tests[i + 1..];
    TestBlockAppend(tests[..i] + [tests[i]], tests[i + 1..]);
    TestBlockAppend(tests[..i], [tests[i]]);
    assert [tests[i]][..0] == [];
    var off := |TestBlock(tests[..i])|;
    var mid := tests[i] + "\n\n";
    assert TestBlock(tests) == TestBlock(tests[..i]) + mid + TestBlock(tests[i + 1..]);
  }

  /**
   * The layout of a test module (main.py:62-69): the preamble, the code, the
   * separator, then the tests in listed order, each followed by a blank line.
   */
  lemma {:induction false} TestModuleLayout(preamble: string, code: string, tests: seq<string>)
    ensures TestModuleText(preamble, code, tests) == preamble + code + Separator() + TestBlock(tests)
  {
    var header := preamble + code + Separator();
    if tests == [] {
      assert TestBlock(tests) == [];
      assert header + [] == header;
    } else {
      var front, last := tests[..|tests| - 1], tests[|tests| - 1] + "\n\n";
      TestModuleLayout(preamble, code, front);
      assert TestModuleText(preamble, code, tests) == TestModuleText(preamble, code, front) + tests[|tests| - 1] + "\n\n";
      ConcatAssoc(TestModuleText(preamble, code, front), tests[|tests| - 1], "\n\n");
      ConcatAssoc(header, TestBlock(front), last);
      ConcatAssoc(TestBlock(front), tests[|tests| - 1], "\n\n");
    }
  }

  /** The `test_cases += f'{test}\n\n'` loop of main.py:65-67. */
  method BuildTestCases(tests: seq<string>) returns (testCases: string)
    ensures testCases == TestBlock(tests)
  {
    testCases := "";
    for i := 0 to |tests|
      invariant testCases == TestBlock(tests[..i])
    {
      assert tests[..i + 1][..i] == tests[..i];
      testCases := testCases + tests[i] + "\n\n";
    }
    assert tests[..|tests|] == tests;
  }

  /**
   * The text written to `test_<id>.py` (main.py:62-69): the preamble, the
   * code, the separator, then the tests.
   */
  method WriteTestModule(code: string, tests: seq<string>) returns (contents: string)
    ensures contents == TestModuleText(CodeImport(), code, tests)
  {
    contents := CodeImport() + code;
    var testCases := BuildTestCases(tests);
    contents := contents + Separator();
    contents := contents + testCases;
    TestModuleLayout(CodeImport(), code, tests);
  }

  // ---------------------------------------------------------------- configuration

  const ConfigHead := "\n[cosmic-ray]\nmodule-path = \""
  const ConfigTimeoutKey := "\"\ntimeout = "
  const ConfigCommandKey := "\nexcluded-modules = []\ntest-command = \""
  const ConfigTail := "\"\n\n[cosmic-ray.distributor]\nname = \"local\"\n"
  const TestCommandPrefix := "pytest "

  /** `<id>.toml`: the id followed by the extension the baseline run selects on. */
  function ConfigName(id: string): (name: string)
    ensures |name| == |id| + 5 && name[..|id|] == id && name[|id|..] == ".toml"
  {
    id + ".toml"
  }

  /** `toml_template.format(mod_name=id, timeout=timeout)` (main.py:15-24, 73). */
  function ConfigText(id: string, timeout: int): (text: string)
    ensures ConfigHead + TestModulePath(id) <= text
  {
    ConfigHead + (TestModulePath(id) + TimeoutAndCommandText(timeout, TestCommandPrefix + TestModulePath(id)))
  }

  /** The configuration text from the closing quote of the module path on. */
  function TimeoutAndCommandText(timeout: int, cmd: string): string {
    ConfigTimeoutKey + (IntToString(timeout) + (ConfigCommandKey + (cmd + ConfigTail)))
  }

  /** Reads `<key>"<command>"<tail>` at the end of a configuration, giving the command. */
  function ParseCommand(r: string): Option<string> {
    if !StartsWith(r, ConfigCommandKey) then None
    else
      var rest := r[|ConfigCommandKey|..];
      match IndexOf(rest, '"')
      case None => None
      case Some(k) => if rest[k..] == ConfigTail then Some(rest[..k]) else None
  }

  /** Reads `"<newline>timeout = <int><rest>`, giving the timeout and the command. */
  function ParseTimeoutAndCommand(r: string): Option<(int, string)> {
    if !StartsWith(r, ConfigTimeoutKey) then None
    else
      var rest := r[|ConfigTimeoutKey|..];
      match IndexOf(rest, '\n')
      case None => None
      case Some(j) =>
        match ParseInt(rest[..j])
        case None => None
        case Some(t) =>
          match ParseCommand(rest[j..])
          case None => None
          case Some(cmd) => Some((t, cmd))
  }

  /**
   * Reads back the settings of a configuration laid out as the template
   * lays it out; None for any other text.
   */
  function ParseConfig(text: string): Option<Config> {
    if !StartsWith(text, ConfigHead) then None
    else
      var rest := text[|ConfigHead|..];
      match IndexOf(rest, '"')
      case None => None
      case Some(i) =>
        match ParseTimeoutAndCommand(rest[i..])
        case None => None
        case Some((t, cmd)) => Some(Config(rest[..i], t, cmd))
  }

  lemma NoQuoteInPath(id: string)
    requires '"' !in id
    ensures '"' !in TestModulePath(id) && '"' !in TestCommandPrefix + TestModulePath(id)
  {
    var path := TestModulePath(id);
    assert path == ModsDir + "test_" + id + ".py";
    forall i | 0 <= i < |path| ensures path[i] != '"' {
      if |ModsDir| + 5 <= i < |ModsDir| + 5 + |id| {
        assert path[i] == id[i - |ModsDir| - 5];
      }
    }
    var cmd := TestCommandPrefix + path;
    forall i | 0 <= i < |cmd| ensures cmd[i] != '"' {
      if i >= |TestCommandPrefix| {
        assert cmd[i] == path[i - |TestCommandPrefix|];
      }
    }
  }

  lemma ParseCommandRoundTrip(cmd: string)
    requires '"' !in cmd
    ensures ParseCommand(ConfigCommandKey + (cmd + ConfigTail)) == Some(cmd)
  {
    var rest := cmd + ConfigTail;
    var r := ConfigCommandKey + rest;
    assert r[..|ConfigCommandKey|] == ConfigCommandKey && r[|ConfigCommandKey|..] == rest;
    IndexOfAfter(cmd, '"', ConfigTail);
    assert rest[..|cmd|] == cmd && rest[|cmd|..] == ConfigTail;
  }

  lemma ParseTimeoutAndCommandRoundTrip(timeout: int, cmd: string)
    requires '"' !in cmd
    ensures ParseTimeoutAndCommand(TimeoutAndCommandText(timeout, cmd)) == Some((timeout, cmd))
  {
    var ts := IntToString(timeout);
    var tail := ConfigCommandKey + (cmd + ConfigTail);
    var rest := ts + tail;
    var r := ConfigTimeoutKey + rest;
    assert r[..|ConfigTimeoutKey|] == ConfigTimeoutKey && r[|ConfigTimeoutKey|..] == rest;
    IndexOfAfter(ts, '\n', tail);
    assert rest[..|ts|] == ts && rest[|ts|..] == tail;
    IntToStringRoundTrip(timeout);
    ParseCommandRoundTrip(cmd);
  }

  /**
   * The configuration written for task `id` reads back as: module path
   * `data/mods/test_<id>.py`, the given timeout, and a test command that runs
   * pytest on that same path.
   */
  lemma ConfigRoundTrip(id: string, timeout: int)
    requires '"' !in id
    ensures ParseConfig(ConfigText(id, timeout))
         == Some(Config(TestModulePath(id), timeout, TestCommandPrefix + TestModulePath(id)))
  {
    var path := TestModulePath(id);
    var cmd := TestCommandPrefix + path;
    NoQuoteInPath(id);
    var after := TimeoutAndCommandText(timeout, cmd);
    var rest := path + after;
    var text := ConfigHead + rest;
    assert text[..|ConfigHead|] == ConfigHead && text[|ConfigHead|..] == rest;
    IndexOfAfter(path, '"', after);
    assert rest[..|path|] == path && rest[|path|..] == after;
    ParseTimeoutAndCommandRoundTrip(timeout, cmd);
  }

  // ---------------------------------------------------------------- baseline_init

  /** Python's `s[:n]`, a negative `n` counting from the end. */
  function PrefixSlice<T>(s: seq<T>, n: int): (r: seq<T>)
    ensures |r| <= |s| && r == s[..|r|]
    ensures n >= 0 ==> |r| == if n <= |s| then n else |s|
    ensures n < 0 ==> |r| == if -n <= |s| then |s| + n else 0
  {
    if n >= 0 then (if n <= |s| then s[..n] else s)
    else if -n <= |s| then s[..|s| + n] else []
  }

  /** The two files written for one sample: its test module, then its configuration. */
  function TaskFiles(preamble: string, id: string, sample: Sample, timeout: int): seq<FileWrite> {
    [FileWrite(TestModuleName(id), TestModuleText(preamble, sample.code, sample.tests)),
     FileWrite(ConfigName(id), ConfigText(id, timeout))]
  }

  /** The files written for a list of samples, in order. */
  function Materialised(preamble: string, ids: seq<string>, samples: seq<Sample>, timeout: int): (writes: seq<FileWrite>)
    requires |ids| == |samples|
    ensures |writes| == 2 * |ids|
  {
    if ids == [] then []
    else
      var n := |ids| - 1;
      Materialised(preamble, ids[..n], samples[..n], timeout) + TaskFiles(preamble, ids[n], samples[n], timeout)
  }

  /** Sample i's test module is file 2i and its configuration file 2i+1. */
  lemma {:induction false} MaterialisedAt(preamble: string, ids: seq<string>, samples: seq<Sample>, timeout: int, i: nat)
    requires |ids| == |samples| && i < |ids|
    ensures var w := Materialised(preamble, ids, samples, timeout);
            |w| == 2 * |ids|
            && w[2 * i] == FileWrite(TestModuleName(ids[i]), TestModuleText(preamble, samples[i].code, samples[i].tests))
            && w[2 * i + 1] == FileWrite(ConfigName(ids[i]), ConfigText(ids[i], timeout))
  {
    hide TestModuleText, ConfigText;
    var n := |ids| - 1;
    if i < n {
      MaterialisedAt(preamble, ids[..n], samples[..n], timeout, i);
    }
  }

  /** The two `open(..., 'w')` blocks of main.py:62-73 for one sample. */
  method WriteTaskFiles(id: string, instance: Sample, timeout: int) returns (files: seq<FileWrite>)
    ensures files == TaskFiles(CodeImport(), id, instance, timeout)
  {
    var testModule := WriteTestModule(instance.code, instance.tests);
    var config := ConfigText(id, timeout);
    files := [FileWrite(TestModuleName(id), testModule), FileWrite(ConfigName(id), config)];
  }

  /**
   * `baseline_init` after the directory has been emptied (main.py:55-73):
   * at most `numSamples` samples, in order; sample i gets the id drawn from
   * positions 16*i .. 16*i+15 of the random stream and produces exactly the
   * test module `test_<id>.py` followed by the configuration `<id>.toml`.
   */
  method BaselineInit(samples: seq<Sample>, numSamples: int, timeout: int, rng: nat -> nat)
    returns (ids: seq<string>, writes: seq<FileWrite>)
    ensures |ids| == |PrefixSlice(samples, numSamples)|
    ensures numSamples >= 0 ==> |ids| <= numSamples
    ensures forall i :: 0 <= i < |ids| ==> ids[i] == AlphabeticUuid(TaskIdLength, rng, TaskIdLength * i)
    ensures writes == Materialised(CodeImport(), ids, samples[..|ids|], timeout)
  {
    hide TaskFiles;
    var rawData := PrefixSlice(samples, numSamples);
    ids, writes := [], [];
    for i := 0 to |rawData|
      invariant |ids| == i
      invariant forall k :: 0 <= k < i ==> ids[k] == AlphabeticUuid(TaskIdLength, rng, TaskIdLength * k)
      invariant writes == Materialised(CodeImport(), ids, rawData[..i], timeout)
    {
      var id := AlphabeticUuid(TaskIdLength, rng, TaskIdLength * i);
      var files := WriteTaskFiles(id, rawData[i], timeout);
      assert (ids + [id])[..i] == ids && rawData[..i + 1][..i] == rawData[..i];
      ids := ids + [id];
      writes := writes + files;
    }
    assert rawData[..|rawData|] == samples[..|ids|];
  }
}
