/** The build helpers of the package's setup script: the prefix strip used
    for extension target names, the compile-job arithmetic, the once-only
    CMake configuration, the kernel gates on device capability, the
    version suffix and the requirement files. Environment variables,
    subprocess results (`nvcc`, `hipcc`, `neuron-ls`), `torch` queries and
    file contents are parameters. */
module Setup {
  import opened Wrappers
  import opened Strings

  /** The Python exceptions the helpers can raise. */
  datatype SetupError =
    | ValueError
    | TypeError
    | ZeroDivisionError
    | AttributeError
    | IndexError
    | RuntimeError
    | FileNotFoundError
    | RecursionError

  /** The CUDA version whose builds carry no local version suffix. */
  const MainCudaVersion: string := "12.1"

  // ---------------------------------------------------------------------
  // remove_prefix

  /** `remove_prefix(text, prefix)`: `prefix` is taken off once when `text`
      starts with it; otherwise `text` comes back as it was. */
  function RemovePrefix(text: string, prefix: string): (r: string)
    ensures prefix <= text ==> prefix + r == text
    ensures !(prefix <= text) ==> r == text
    ensures |r| <= |text|
  {
    if prefix <= text then text[|prefix|..] else text
  }

  /** Only one copy of the prefix is removed. */
  lemma RemovePrefixOnce(prefix: string, rest: string)
    ensures RemovePrefix(prefix + rest, prefix) == rest
    ensures RemovePrefix(prefix + prefix + rest, prefix) == prefix + rest
  {
    assert prefix <= prefix + rest;
    assert prefix + prefix + rest == prefix + (prefix + rest);
    assert prefix <= prefix + (prefix + rest);
  }

  /** The CMake target of the extension `aphrodite._C` is `_C`. */
  lemma ExtensionTargetName()
    ensures RemovePrefix("aphrodite._C", "aphrodite.") == "_C"
    ensures RemovePrefix("_C", "aphrodite.") == "_C"
  {
    RemovePrefixOnce("aphrodite.", "_C");
    assert "aphrodite." + "_C" == "aphrodite._C";
  }

  // ---------------------------------------------------------------------
  // compute_num_jobs

  /** Python's `a // b`: the quotient rounded towards negative infinity. */
  function PyFloorDiv(a: int, b: int): (q: int)
    requires b != 0
    ensures b > 0 ==> b * q <= a < b * q + b
    ensures b < 0 ==> b * q + b < a <= b * q
  {
    if b > 0 then a / b else (-a) / (-b)
  }

  function Max(a: int, b: int): int {
    if a < b then b else a
  }

  /** What the build host reports: `MAX_JOBS` and `NVCC_THREADS` (absent or
      their text), the size of the scheduler affinity set (absent when
      `os.sched_getaffinity` does not exist) and `os.cpu_count()` (which may
      be `None`). */
  datatype BuildHost = BuildHost(
    maxJobs: Option<string>,
    affinityCount: Option<nat>,
    cpuCount: Option<nat>,
    nvccThreads: Option<string>)

  /** The job count before nvcc threads are taken into account: `MAX_JOBS`
      when it is set, else the affinity set's size, else `os.cpu_count()`. */
  function RequestedJobs(h: BuildHost): Result<Option<int>, SetupError> {
    if h.maxJobs.Some? then
      var n := ParseInt(h.maxJobs.value);
      if n.None? then Failure(ValueError) else Success(Some(n.value))
    else if h.affinityCount.Some? then Success(Some(h.affinityCount.value as int))
    else if h.cpuCount.Some? then Success(Some(h.cpuCount.value as int))
    else Success(None)
  }

  /** `compute_num_jobs`, with `useNvccThreads` standing for "the target is
      CUDA and nvcc is at least 11.2". Without nvcc threads the job count is
      what the host reports; with them it is divided by the thread count
      (1 when `NVCC_THREADS` is unset) and never drops below 1. */
  method ComputeNumJobs(h: BuildHost, useNvccThreads: bool) returns (r: Result<(Option<int>, Option<int>), SetupError>)
    ensures RequestedJobs(h).Failure? ==> r == Failure(RequestedJobs(h).error)
    ensures !useNvccThreads && RequestedJobs(h).Success? ==> r == Success((RequestedJobs(h).value, None))
    ensures useNvccThreads && RequestedJobs(h).Success? ==>
              && var jobs := RequestedJobs(h).value;
              && var threads := if h.nvccThreads.Some? then ParseInt(h.nvccThreads.value) else Some(1);
              && (threads.None? ==> r == Failure(ValueError))
              && (threads.Some? && jobs.None? ==> r == Failure(TypeError))
              && (threads.Some? && jobs.Some? && threads.value == 0 ==> r == Failure(ZeroDivisionError))
              && (threads.Some? && jobs.Some? && threads.value != 0 ==>
                    r == Success((Some(Max(1, PyFloorDiv(jobs.value, threads.value))), Some(threads.value))))
    ensures useNvccThreads && r.Success? ==> && r.value.0.Some? && r.value.0.value >= 1
                                             && r.value.1.Some? && r.value.1.value != 0
    ensures useNvccThreads && r.Success? && RequestedJobs(h).Success? && RequestedJobs(h).value.Some?
            && RequestedJobs(h).value.value >= 1 && r.value.1.value >= 1 ==>
              r.value.0.value <= RequestedJobs(h).value.value
  {
    var numJobs: Option<int>;
    if h.maxJobs.Some? {
      var n := ParseInt(h.maxJobs.value);
      if n.None? {
        return Failure(ValueError);
      }
      numJobs := Some(n.value);
    } else if h.affinityCount.Some? {
      numJobs := Some(h.affinityCount.value);
    } else {
      numJobs := if h.cpuCount.Some? then Some(h.cpuCount.value as int) else None;
    }
    var nvccThreads: Option<int> := None;
    if useNvccThreads {
      var threads: int;
      if h.nvccThreads.Some? {
        var t := ParseInt(h.nvccThreads.value);
        if t.None? {
          return Failure(ValueError);
        }
        threads := t.value;
      } else {
        threads := 1;
      }
      if numJobs.None? {
        return Failure(TypeError);
      }
      if threads == 0 {
        return Failure(ZeroDivisionError);
      }
      nvccThreads := Some(threads);
      if numJobs.value >= 1 && threads >= 1 {
        NvccThreadsBoundJobs(numJobs.value, threads);
      }
      numJobs := Some(Max(1, PyFloorDiv(numJobs.value, threads)));
    }
    return Success((numJobs, nvccThreads));
  }

  /** Dividing by the nvcc thread count only ever reduces the job count:
      with at least one job and at least one thread the new count lies
      between 1 and the old one, and one thread keeps it. */
  lemma NvccThreadsBoundJobs(jobs: int, threads: int)
    requires jobs >= 1 && threads >= 1
    ensures 1 <= Max(1, PyFloorDiv(jobs, threads)) <= jobs
    ensures threads == 1 ==> Max(1, PyFloorDiv(jobs, threads)) == jobs
  {
    var q := PyFloorDiv(jobs, threads);
    if q > 0 {
      assert q <= threads * q by {
        assert threads * q == q + (threads - 1) * q;
        assert (threads - 1) * q >= 0;
      }
    }
  }

  // ---------------------------------------------------------------------
  // configure's once-per-directory guard

  predicate Distinct(s: seq<string>) {
    forall i, j :: 0 <= i < j < |s| ==> s[i] != s[j]
  }

  /** A sequence without repeats holds each element at most once. */
  lemma {:induction false} DistinctCountsOnce(s: seq<string>, x: string)
    requires Distinct(s)
    ensures multiset(s)[x] <= 1
  {
    if s != [] {
      var init := s[..|s| - 1];
      assert s == init + [s[|s| - 1]];
      assert Distinct(init);
      DistinctCountsOnce(init, x);
      if x == s[|s| - 1] {
        assert forall i :: 0 <= i < |init| ==> init[i] == s[i] != s[|s| - 1];
        assert multiset(init)[x] == 0;
      }
    }
  }

  /** The class-level `did_config` table of `cmake_build_ext`, one object
      shared by every instance of the class. The directories CMake was run
      on, in order, are `configured`. */
  class ConfigTable {
    var didConfig: set<string>
    var configured: seq<string>

    ghost predicate Valid()
      reads this
    {
      && Distinct(configured)
      && forall d :: d in didConfig <==> d in configured
    }

    constructor ()
      ensures Valid()
      ensures didConfig == {} && configured == []
    {
      didConfig := {};
      configured := [];
    }
  }

  /** A `cmake_build_ext` instance: it holds no table of its own and reads
      and writes the class-level one. */
  class CMakeBuildExt {
    const table: ConfigTable

    constructor (table: ConfigTable)
      ensures this.table == table
    {
      this.table := table;
    }

    /** `configure(ext)`: a directory already in `did_config` is skipped;
        any other is recorded and configured. So CMake runs at most once
        per directory, whichever instance asks. */
    method Configure(cmakeListsDir: string)
      requires table.Valid()
      modifies table
      ensures table.Valid()
      ensures old(cmakeListsDir in table.didConfig) ==>
                table.didConfig == old(table.didConfig) && table.configured == old(table.configured)
      ensures old(cmakeListsDir !in table.didConfig) ==>
                && table.didConfig == old(table.didConfig) + {cmakeListsDir}
                && table.configured == old(table.configured) + [cmakeListsDir]
      ensures multiset(table.configured)[cmakeListsDir] == 1
    {
      if cmakeListsDir in table.didConfig {
        DistinctCountsOnce(table.configured, cmakeListsDir);
        return;
      }
      table.didConfig := table.didConfig + {cmakeListsDir};
      table.configured := table.configured + [cmakeListsDir];
      DistinctCountsOnce(table.configured, cmakeListsDir);
    }
  }

  /** Two instances over the one class-level table: after the first has
      configured a directory, the second skips it, so CMake ran once. */
  method ConfigureFromTwoInstances(dir: string) returns (runs: seq<string>)
    ensures runs == [dir]
  {
    var table := new ConfigTable();
    var first := new CMakeBuildExt(table);
    var second := new CMakeBuildExt(table);
    first.Configure(dir);
    second.Configure(dir);
    runs := table.configured;
  }

  // ---------------------------------------------------------------------
  // The kernel gates

  /** `bool(int(os.getenv(name, "1")))`. */
  function EnvFlag(value: Option<string>): Result<bool, SetupError> {
    var n := ParseInt(value.GetOr("1"));
    if n.None? then Failure(ValueError) else Success(n.value != 0)
  }

  lemma UnsetFlagIsOn()
    ensures EnvFlag(None) == Success(true)
  {
    assert DecimalString(1) == "1";
    ParseIntRoundTrip(1);
  }

  /** The early-exit scan over `torch.cuda.get_device_capability(i)`:
      false at the first device whose major version is below `min`. */
  function AllMajorsAtLeast(capabilities: seq<(int, int)>, min: int): (b: bool)
    ensures b <==> forall i :: 0 <= i < |capabilities| ==> capabilities[i].0 >= min
  {
    if capabilities == [] then true
    else if capabilities[0].0 < min then false
    else AllMajorsAtLeast(capabilities[1..], min)
  }

  /** `_install_quants`: the flag, unless a device is older than major 6. */
  function InstallQuants(flag: Option<string>, capabilities: seq<(int, int)>): (r: Result<bool, SetupError>)
    ensures r.Failure? <==> EnvFlag(flag).Failure?
    ensures r.Success? ==>
              (r.value <==> EnvFlag(flag).value && forall i :: 0 <= i < |capabilities| ==> capabilities[i].0 >= 6)
  {
    var on :- EnvFlag(flag);
    Success(on && AllMajorsAtLeast(capabilities, 6))
  }

  /** `_install_punica`: the flag, unless a device is older than major 8. */
  function InstallPunica(flag: Option<string>, capabilities: seq<(int, int)>): (r: Result<bool, SetupError>)
    ensures r.Failure? <==> EnvFlag(flag).Failure?
    ensures r.Success? ==>
              (r.value <==> EnvFlag(flag).value && forall i :: 0 <= i < |capabilities| ==> capabilities[i].0 >= 8)
  {
    var on :- EnvFlag(flag);
    Success(on && AllMajorsAtLeast(capabilities, 8))
  }

  /** `_install_hadamard`: the flag, unless a device has major 6 or lower. */
  function InstallHadamard(flag: Option<string>, capabilities: seq<(int, int)>): (r: Result<bool, SetupError>)
    ensures r.Failure? <==> EnvFlag(flag).Failure?
    ensures r.Success? ==>
              (r.value <==> EnvFlag(flag).value && forall i :: 0 <= i < |capabilities| ==> capabilities[i].0 > 6)
  {
    var on :- EnvFlag(flag);
    Success(on && AllMajorsAtLeast(capabilities, 7))
  }

  /** The gates are nested: devices fit for punica fit for hadamard, and
      devices fit for hadamard fit for the quantization kernels. */
  lemma {:induction false} GatesNested(capabilities: seq<(int, int)>)
    ensures AllMajorsAtLeast(capabilities, 8) ==> AllMajorsAtLeast(capabilities, 7)
    ensures AllMajorsAtLeast(capabilities, 7) ==> AllMajorsAtLeast(capabilities, 6)
  {
    if capabilities != [] {
      GatesNested(capabilities[1..]);
    }
  }

  /** With all three variables unset and no device to object, every
      kernel family is built. */
  lemma DefaultGatesOn()
    ensures InstallQuants(None, []) == Success(true)
    ensures InstallPunica(None, []) == Success(true)
    ensures InstallHadamard(None, []) == Success(true)
  {
    UnsetFlagIsOn();
  }

  // ---------------------------------------------------------------------
  // The target platform

  /** What the platform probes found: `APHRODITE_TARGET_DEVICE` (default
      "cuda"), `torch.version.cuda`, `torch.version.hip` and whether
      `neuron-ls` succeeded. */
  datatype BuildEnv = BuildEnv(
    targetDevice: string,
    torchCuda: Option<string>,
    torchHip: Option<string>,
    neuronInstalled: bool)

  /** The value of `APHRODITE_TARGET_DEVICE`. */
  function TargetDevice(value: Option<string>): string {
    value.GetOr("cuda")
  }

  predicate IsCuda(e: BuildEnv) {
    e.targetDevice == "cuda" && e.torchCuda.Some? && !e.neuronInstalled
  }

  predicate IsHip(e: BuildEnv) {
    (e.targetDevice == "cuda" || e.targetDevice == "rocm") && e.torchHip.Some?
  }

  predicate IsNeuron(e: BuildEnv) {
    e.neuronInstalled
  }

  predicate IsCpu(e: BuildEnv) {
    e.targetDevice == "cpu"
  }

  /** `nvcc` supports `--threads` from 11.2 on. */
  predicate UsesNvccThreads(e: BuildEnv, nvccVersion: (nat, nat)) {
    IsCuda(e) && (nvccVersion.0 > 11 || (nvccVersion.0 == 11 && nvccVersion.1 >= 2))
  }

  // ---------------------------------------------------------------------
  // get_aphrodite_version

  /** The local version label for a toolkit version `v`: nothing for the
      main CUDA version, else `+<kind>` and the first three characters of
      `v` without its dots. */
  function VersionTag(kind: string, v: string): string {
    if v == MainCudaVersion then "" else "+" + kind + Take(RemoveChar(v, '.'), 3)
  }

  /** The label is empty exactly for "12.1"; any other label is `+<kind>`
      followed by at most three characters, none of them a dot. */
  lemma VersionTagShape(kind: string, v: string)
    ensures VersionTag(kind, v) == "" <==> v == MainCudaVersion
    ensures v != MainCudaVersion ==>
              && var t := VersionTag(kind, v);
              && "+" + kind <= t && |t| <= |kind| + 4
              && forall i :: |kind| + 1 <= i < |t| ==> t[i] != '.'
  {
    if v != MainCudaVersion {
      var d := Take(RemoveChar(v, '.'), 3);
      var t := VersionTag(kind, v);
      assert t == ("+" + kind) + d;
      forall i | |kind| + 1 <= i < |t|
        ensures t[i] != '.'
      {
        assert t[i] == d[i - |kind| - 1];
        assert d[i - |kind| - 1] == RemoveChar(v, '.')[i - |kind| - 1];
      }
    }
  }

  lemma VersionTagCuda118()
    ensures VersionTag("cu", "12.1") == ""
    ensures VersionTag("cu", "11.8") == "+cu118"
  {
    assert RemoveChar("8", '.') == "8" by {
      assert "8"[1..] == "";
    }
    assert RemoveChar(".8", '.') == "8" by {
      assert ".8"[1..] == "8";
    }
    assert RemoveChar("1.8", '.') == "18" by {
      assert "1.8"[1..] == ".8";
    }
    assert RemoveChar("11.8", '.') == "118" by {
      assert "11.8"[1..] == "1.8";
    }
  }

  /** `get_aphrodite_version`: the package version with the platform's
      label. On ROCm an unreadable `hipcc` version (`None`) differs from
      "12.1", so `None.replace` raises `AttributeError`. */
  function AphroditeVersion(version: string, e: BuildEnv, nvccVersion: string, hipccVersion: Option<string>,
                            neuronVersion: string): (r: Result<string, SetupError>)
    ensures r.Success? ==> version <= r.value
    ensures r.Failure? <==> || (!IsCuda(e) && !IsHip(e) && !IsNeuron(e) && !IsCpu(e))
                            || (!IsCuda(e) && IsHip(e) && hipccVersion.None?)
    ensures r.Failure? ==> r.error == (if IsHip(e) then AttributeError else RuntimeError)
    ensures IsCuda(e) ==> r == Success(version + VersionTag("cu", nvccVersion))
    ensures !IsCuda(e) && IsHip(e) && hipccVersion.Some? ==> r == Success(version + VersionTag("rocm", hipccVersion.value))
    ensures !IsCuda(e) && !IsHip(e) && IsNeuron(e) ==> r == Success(version + VersionTag("neuron", neuronVersion))
    ensures !IsCuda(e) && !IsHip(e) && !IsNeuron(e) && IsCpu(e) ==> r == Success(version + "+cpu")
  {
    if IsCuda(e) then Success(version + VersionTag("cu", nvccVersion))
    else if IsHip(e) then
      if hipccVersion.None? then Failure(AttributeError)
      else Success(version + VersionTag("rocm", hipccVersion.value))
    else if IsNeuron(e) then Success(version + VersionTag("neuron", neuronVersion))
    else if IsCpu(e) then Success(version + "+cpu")
    else Failure(RuntimeError)
  }

  // ---------------------------------------------------------------------
  // _read_requirements

  /** A line that pulls in another requirements file. */
  predicate IsInclude(line: string) {
    "-r " <= line
  }

  /** `line.split()[1]` for an include line: the first word after "-r ";
      `IndexError` when there is none. */
  function IncludeTarget(line: string): (r: Result<string, SetupError>)
    requires IsInclude(line)
    ensures r.Failure? <==> TrimLeft(line[3..]) == []
    ensures r.Success? ==> && r.value != [] && r.value <= TrimLeft(line[3..])
                           && forall i :: 0 <= i < |r.value| ==> !IsSpace(r.value[i])
  {
    var rest := TrimLeft(line[3..]);
    if rest == [] then Failure(IndexError) else Success(PrefixWord(rest))
  }

  /** `f.read().strip().split("\n")`. */
  function FileLines(content: string): seq<string> {
    Split(Strip(content), '\n')
  }

  /** The resolved lines of the file `name` among `files`. `depth` bounds
      the nesting of includes, standing for Python's recursion limit. */
  function ResolvedFile(files: map<string, string>, name: string, depth: nat): Result<seq<string>, SetupError>
    decreases depth, 0, 0
  {
    if depth == 0 then Failure(RecursionError)
    else if name !in files then Failure(FileNotFoundError)
    else ResolvedLines(files, FileLines(files[name]), depth - 1)
  }

  /** Each include line replaced by its file's resolved lines, the other
      lines kept; the first failing line, in order, decides the error. */
  function ResolvedLines(files: map<string, string>, lines: seq<string>, depth: nat): Result<seq<string>, SetupError>
    decreases depth, 1, |lines|
  {
    if lines == [] then Success([])
    else Joined(ResolvedLines(files, lines[..|lines| - 1], depth), LineResolved(files, lines[|lines| - 1], depth))
  }

  /** What one line contributes: an include line its file's lines, any
      other line itself. */
  function LineResolved(files: map<string, string>, line: string, depth: nat): Result<seq<string>, SetupError>
    decreases depth, 1, 0
  {
    if IsInclude(line) then
      var target :- IncludeTarget(line);
      ResolvedFile(files, target, depth)
    else Success([line])
  }

  /** Two results joined as `a + b`, failing with the first failure. */
  function Joined(a: Result<seq<string>, SetupError>, b: Result<seq<string>, SetupError>): Result<seq<string>, SetupError> {
    if a.Failure? then a
    else if b.Failure? then b
    else Success(a.value + b.value)
  }

  lemma JoinedAssociative(x: Result<seq<string>, SetupError>, y: Result<seq<string>, SetupError>, z: Result<seq<string>, SetupError>)
    ensures Joined(Joined(x, y), z) == Joined(x, Joined(y, z))
  {
    if x.Success? && y.Success? && z.Success? {
      assert x.value + y.value + z.value == x.value + (y.value + z.value);
    }
  }

  /** Resolving a concatenation resolves each part in turn. */
  lemma {:induction false} ResolvedLinesAppend(files: map<string, string>, a: seq<string>, b: seq<string>, depth: nat)
    ensures ResolvedLines(files, a + b, depth) == Joined(ResolvedLines(files, a, depth), ResolvedLines(files, b, depth))
    decreases |b|
  {
    if b == [] {
      assert a + b == a;
      if ResolvedLines(files, a, depth).Success? {
        assert ResolvedLines(files, a, depth).value + [] == ResolvedLines(files, a, depth).value;
      }
    } else {
      var b' := b[..|b| - 1];
      assert (a + b)[..|a + b| - 1] == a + b';
      assert (a + b)[|a + b| - 1] == b[|b| - 1];
      ResolvedLinesAppend(files, a, b', depth);
      JoinedAssociative(ResolvedLines(files, a, depth), ResolvedLines(files, b', depth), LineResolved(files, b[|b| - 1], depth));
    }
  }

  /** A single line resolves to its own contribution. */
  lemma SingleLine(files: map<string, string>, line: string, depth: nat)
    ensures ResolvedLines(files, [line], depth) == LineResolved(files, line, depth)
  {
    assert [line][..0] == [];
    var r := LineResolved(files, line, depth);
    if r.Success? {
      assert [] + r.value == r.value;
    }
  }

  /** Every "-r file" line is replaced where it stands by that file's
      lines, and the lines around it stay in order. */
  lemma IncludeSplicedInPlace(files: map<string, string>, before: seq<string>, line: string, after: seq<string>, depth: nat)
    requires IsInclude(line) && IncludeTarget(line).Success?
    requires ResolvedLines(files, before, depth).Success? && ResolvedLines(files, after, depth).Success?
    requires ResolvedFile(files, IncludeTarget(line).value, depth).Success?
    ensures ResolvedLines(files, before + [line] + after, depth) ==
              Success(ResolvedLines(files, before, depth).value
                      + ResolvedFile(files, IncludeTarget(line).value, depth).value
                      + ResolvedLines(files, after, depth).value)
  {
    ResolvedLinesAppend(files, before, [line], depth);
    ResolvedLinesAppend(files, before + [line], after, depth);
    SingleLine(files, line, depth);
  }

  /** A file without includes resolves to its own lines. */
  lemma {:induction false} NoIncludesKept(files: map<string, string>, lines: seq<string>, depth: nat)
    requires forall i :: 0 <= i < |lines| ==> !IsInclude(lines[i])
    ensures ResolvedLines(files, lines, depth) == Success(lines)
  {
    if lines != [] {
      var init := lines[..|lines| - 1];
      NoIncludesKept(files, init, depth);
      assert init + [lines[|lines| - 1]] == lines;
    }
  }

  /** Once a prefix of the lines fails, the whole file fails the same way. */
  lemma {:induction false} PrefixFailure(files: map<string, string>, lines: seq<string>, j: nat, depth: nat)
    requires j <= |lines| && ResolvedLines(files, lines[..j], depth).Failure?
    ensures ResolvedLines(files, lines, depth) == ResolvedLines(files, lines[..j], depth)
  {
    if j < |lines| {
      var init := lines[..|lines| - 1];
      assert init[..j] == lines[..j];
      PrefixFailure(files, init, j, depth);
    } else {
      assert lines[..j] == lines;
    }
  }

  /** One more line read: its contribution is appended, or its failure is
      the file's. */
  lemma ResolvedStep(files: map<string, string>, lines: seq<string>, i: nat, depth: nat, resolved: seq<string>)
    requires i < |lines| && ResolvedLines(files, lines[..i], depth) == Success(resolved)
    ensures LineResolved(files, lines[i], depth).Success? ==>
              ResolvedLines(files, lines[..i + 1], depth) == Success(resolved + LineResolved(files, lines[i], depth).value)
    ensures LineResolved(files, lines[i], depth).Failure? ==>
              ResolvedLines(files, lines, depth) == LineResolved(files, lines[i], depth)
  {
    assert lines[..i + 1][..i] == lines[..i];
    if LineResolved(files, lines[i], depth).Failure? {
      PrefixFailure(files, lines, i + 1, depth);
    }
  }

  /** `_read_requirements(filename)`: reads the file at `depth` levels of
      nesting left and resolves its lines. */
  method ReadRequirements(files: map<string, string>, filename: string, depth: nat) returns (r: Result<seq<string>, SetupError>)
    ensures r == ResolvedFile(files, filename, depth)
    decreases depth, 0
  {
    if depth == 0 {
      return Failure(RecursionError);
    }
    if filename !in files {
      return Failure(FileNotFoundError);
    }
    r := ResolveRequirementLines(files, FileLines(files[filename]), depth - 1);
  }

  /** The loop of `_read_requirements`: plain lines are appended to
      `resolved`, include lines are read recursively and their lines
      appended. */
  method ResolveRequirementLines(files: map<string, string>, requirements: seq<string>, depth: nat)
    returns (r: Result<seq<string>, SetupError>)
    ensures r == ResolvedLines(files, requirements, depth)
    decreases depth, 1
  {
    var resolved: seq<string> := [];
    var i := 0;
    while i < |requirements|
      invariant 0 <= i <= |requirements|
      invariant ResolvedLines(files, requirements[..i], depth) == Success(resolved)
    {
      var line := requirements[i];
      ResolvedStep(files, requirements, i, depth, resolved);
      if IsInclude(line) {
        var target := IncludeTarget(line);
        if target.Failure? {
          return Failure(target.error);
        }
        var sub := ReadRequirements(files, target.value, depth);
        assert LineResolved(files, line, depth) == sub;
        if sub.Failure? {
          return Failure(sub.error);
        }
        resolved := resolved + sub.value;
      } else {
        assert LineResolved(files, line, depth) == Success([line]);
        resolved := resolved + [line];
      }
      i := i + 1;
    }
    assert requirements[..|requirements|] == requirements;
    r := Success(resolved);
  }

  // ---------------------------------------------------------------------
  // get_requirements

  const CudaRequirements: string := "requirements-cuda.txt"
  const RocmRequirements: string := "requirements-rocm.txt"
  const NeuronRequirements: string := "requirements-neuron.txt"
  const CpuRequirements: string := "requirements-cpu.txt"

  const NcclPackage: string := "vllm-nccl-cu12"
  const FlashAttnPackage: string := "vllm-flash-attn"

  /** `major, minor = torch.version.cuda.split(".")`: a `ValueError` unless
      there are exactly two parts. */
  function CudaMajorMinor(v: string): (r: Result<(string, string), SetupError>)
    ensures r.Success? <==> |Split(v, '.')| == 2
    ensures r.Success? ==> '.' !in r.value.0 && '.' !in r.value.1
  {
    var parts := Split(v, '.');
    if |parts| == 2 then Success((parts[0], parts[1])) else Failure(ValueError)
  }

  /** What the rewrite loop keeps of one requirement: the nccl package
      renamed for the CUDA major version, flash-attn dropped unless the
      version is 12.1, anything else as it is. */
  function RewriteLine(req: string, major: string, minor: string): seq<string> {
    if Contains(req, NcclPackage) then [Replace(req, NcclPackage, "vllm-nccl-cu" + major)]
    else if Contains(req, FlashAttnPackage) && !(major == "12" && minor == "1") then []
    else [req]
  }

  /** The `modified_requirements` list for `reqs`. */
  function Rewritten(reqs: seq<string>, major: string, minor: string): (r: seq<string>)
    ensures |r| <= |reqs|
  {
    if reqs == [] then []
    else Rewritten(reqs[..|reqs| - 1], major, minor) + RewriteLine(reqs[|reqs| - 1], major, minor)
  }

  /** The loop of the CUDA branch that builds `modified_requirements`. */
  method RewriteCudaRequirements(requirements: seq<string>, major: string, minor: string) returns (modified: seq<string>)
    ensures modified == Rewritten(requirements, major, minor)
  {
    modified := [];
    var i := 0;
    while i < |requirements|
      invariant 0 <= i <= |requirements|
      invariant modified == Rewritten(requirements[..i], major, minor)
    {
      var req := requirements[i];
      assert requirements[..i + 1][..i] == requirements[..i];
      if Find(req, NcclPackage) {
        req := Replace(req, NcclPackage, "vllm-nccl-cu" + major);
        modified := modified + [req];
      } else if Find(req, FlashAttnPackage) && !(major == "12" && minor == "1") {
      } else {
        modified := modified + [req];
      }
      i := i + 1;
    }
    assert requirements[..|requirements|] == requirements;
  }

  /** Replacing a pattern by itself changes nothing. */
  lemma {:induction false} ReplaceBySelf(s: string, pat: string)
    requires pat != []
    ensures Replace(s, pat, pat) == s
    decreases |s|
  {
    if |s| >= |pat| {
      if s[..|pat|] == pat {
        ReplaceBySelf(s[|pat|..], pat);
        assert s[..|pat|] + s[|pat|..] == s;
      } else {
        ReplaceBySelf(s[1..], pat);
        assert [s[0]] + s[1..] == s;
      }
    }
  }

  /** On CUDA major version 12 the nccl package is renamed to itself. */
  lemma NcclRenameOnMainVersion()
    ensures "vllm-nccl-cu" + "12" == NcclPackage
  {
  }

  /** On CUDA 12.1 the rewrite keeps every requirement as it is. */
  lemma {:induction false} RewrittenOnMainVersion(reqs: seq<string>)
    ensures Rewritten(reqs, "12", "1") == reqs
  {
    if reqs != [] {
      var init := reqs[..|reqs| - 1];
      var last := reqs[|reqs| - 1];
      RewrittenOnMainVersion(init);
      NcclRenameOnMainVersion();
      ReplaceBySelf(last, NcclPackage);
      assert init + [last] == reqs;
    }
  }

  /** Rewriting a concatenation rewrites each part in turn, so every line
      is rewritten where it stands and the order is kept. */
  lemma {:induction false} RewrittenAppend(a: seq<string>, b: seq<string>, major: string, minor: string)
    ensures Rewritten(a + b, major, minor) == Rewritten(a, major, minor) + Rewritten(b, major, minor)
    decreases |b|
  {
    if b == [] {
      assert a + b == a;
    } else {
      var b' := b[..|b| - 1];
      assert (a + b)[..|a + b| - 1] == a + b';
      assert (a + b)[|a + b| - 1] == b[|b| - 1];
      RewrittenAppend(a, b', major, minor);
    }
  }

  /** A single requirement is rewritten by `RewriteLine`. */
  lemma RewrittenSingle(req: string, major: string, minor: string)
    ensures Rewritten([req], major, minor) == RewriteLine(req, major, minor)
  {
    assert [req][..0] == [];
  }

  /** A line naming the nccl package is replaced where it stands by its
      renamed form; the lines around it are rewritten independently. */
  lemma NcclRenamedInPlace(before: seq<string>, req: string, after: seq<string>, major: string, minor: string)
    requires Contains(req, NcclPackage)
    ensures Rewritten(before + [req] + after, major, minor)
              == Rewritten(before, major, minor) + [Replace(req, NcclPackage, "vllm-nccl-cu" + major)]
                 + Rewritten(after, major, minor)
  {
    RewrittenAppend(before, [req], major, minor);
    RewrittenAppend(before + [req], after, major, minor);
    RewrittenSingle(req, major, minor);
  }

  /** Requirements naming neither package are all kept, in order. */
  lemma {:induction false} RewrittenKeepsOtherLines(reqs: seq<string>, major: string, minor: string)
    requires forall i :: 0 <= i < |reqs| ==> !Contains(reqs[i], NcclPackage) && !Contains(reqs[i], FlashAttnPackage)
    ensures Rewritten(reqs, major, minor) == reqs
  {
    if reqs != [] {
      var init := reqs[..|reqs| - 1];
      RewrittenKeepsOtherLines(init, major, minor);
      assert init + [reqs[|reqs| - 1]] == reqs;
    }
  }

  /** Off CUDA 12.1, no flash-attn requirement survives the rewrite unless
      it also names the nccl package. */
  lemma {:induction false} RewrittenDropsFlashAttn(reqs: seq<string>, major: string, minor: string)
    requires !(major == "12" && minor == "1")
    requires forall i :: 0 <= i < |reqs| ==> !Contains(reqs[i], NcclPackage)
    ensures forall i :: 0 <= i < |Rewritten(reqs, major, minor)| ==> !Contains(Rewritten(reqs, major, minor)[i], FlashAttnPackage)
    ensures forall i :: 0 <= i < |Rewritten(reqs, major, minor)| ==> Rewritten(reqs, major, minor)[i] in reqs
  {
    if reqs != [] {
      var init := reqs[..|reqs| - 1];
      RewrittenDropsFlashAttn(init, major, minor);
      var r := Rewritten(reqs, major, minor);
      var ri := Rewritten(init, major, minor);
      var last := reqs[|reqs| - 1];
      assert r == ri + RewriteLine(last, major, minor);
      forall i | 0 <= i < |r|
        ensures !Contains(r[i], FlashAttnPackage) && r[i] in reqs
      {
        if i < |ri| {
          assert r[i] == ri[i];
          assert ri[i] in init;
        } else {
          assert r[i] == last;
        }
      }
    }
  }

  /** The requirements of the platform, given its probes and the files'
      contents, exactly as the script returns them: in the CUDA branch the
      rewritten list is computed and then dropped. */
  function GetRequirementsAsWritten(e: BuildEnv, files: map<string, string>, depth: nat): (r: Result<seq<string>, SetupError>)
    ensures IsCuda(e) && r.Success? ==> r == ResolvedFile(files, CudaRequirements, depth)
    ensures !IsCuda(e) ==> r == PlatformRequirements(e, files, depth)
  {
    if IsCuda(e) then
      var requirements :- ResolvedFile(files, CudaRequirements, depth);
      var version :- CudaMajorMinor(e.torchCuda.value);
      var _ := Rewritten(requirements, version.0, version.1);
      Success(requirements)
    else PlatformRequirements(e, files, depth)
  }

  /** `get_requirements` for the platforms other than CUDA. */
  function PlatformRequirements(e: BuildEnv, files: map<string, string>, depth: nat): (r: Result<seq<string>, SetupError>)
    ensures IsHip(e) ==> r == ResolvedFile(files, RocmRequirements, depth)
    ensures !IsHip(e) && IsNeuron(e) ==> r == ResolvedFile(files, NeuronRequirements, depth)
    ensures !IsHip(e) && !IsNeuron(e) && IsCpu(e) ==> r == ResolvedFile(files, CpuRequirements, depth)
    ensures !IsHip(e) && !IsNeuron(e) && !IsCpu(e) ==> r == Failure(ValueError)
  {
    if IsHip(e) then ResolvedFile(files, RocmRequirements, depth)
    else if IsNeuron(e) then ResolvedFile(files, NeuronRequirements, depth)
    else if IsCpu(e) then ResolvedFile(files, CpuRequirements, depth)
    else Failure(ValueError)
  }

  /** `get_requirements` returning the rewritten list on CUDA, as the loop
      that builds it intends. */
  function GetRequirements(e: BuildEnv, files: map<string, string>, depth: nat): (r: Result<seq<string>, SetupError>)
    ensures IsCuda(e) && r.Success? ==>
              && ResolvedFile(files, CudaRequirements, depth).Success?
              && CudaMajorMinor(e.torchCuda.value).Success?
              && var v := CudaMajorMinor(e.torchCuda.value).value;
              && r.value == Rewritten(ResolvedFile(files, CudaRequirements, depth).value, v.0, v.1)
    ensures !IsCuda(e) ==> r == PlatformRequirements(e, files, depth)
  {
    if IsCuda(e) then
      var requirements :- ResolvedFile(files, CudaRequirements, depth);
      var version :- CudaMajorMinor(e.torchCuda.value);
      Success(Rewritten(requirements, version.0, version.1))
    else PlatformRequirements(e, files, depth)
  }

  /** `(a + "." + b).split(".")` is `[a, b]` when neither part has a dot. */
  lemma {:induction false} SplitAround(a: string, b: string, sep: char)
    requires sep !in a && sep !in b
    ensures Split(a + [sep] + b, sep) == [a, b]
    decreases |a|
  {
    var s := a + [sep] + b;
    if a == [] {
      assert s[1..] == b;
      SplitWithoutSeparator(b, sep);
    } else {
      assert s[1..] == a[1..] + [sep] + b;
      SplitAround(a[1..], b, sep);
      assert [a[0]] + a[1..] == a;
    }
  }

  lemma CudaMajorMinorMain()
    ensures CudaMajorMinor("12.1") == Success(("12", "1"))
  {
    assert "12.1" == "12" + ['.'] + "1";
    SplitAround("12", "1", '.');
  }

  /** The two agree everywhere except on CUDA versions other than 12.1:
      there the rewrite does something the script throws away. */
  lemma AsWrittenAgreesOnMainVersion(e: BuildEnv, files: map<string, string>, depth: nat)
    requires !IsCuda(e) || e.torchCuda == Some(MainCudaVersion)
    ensures GetRequirementsAsWritten(e, files, depth) == GetRequirements(e, files, depth)
  {
    if IsCuda(e) {
      CudaMajorMinorMain();
      var f := ResolvedFile(files, CudaRequirements, depth);
      if f.Success? {
        RewrittenOnMainVersion(f.value);
      }
    }
  }

  lemma SplitWithoutSeparator(s: string, sep: char)
    requires sep !in s
    ensures Split(s, sep) == [s]
    decreases |s|
  {
    if s != [] {
      SplitWithoutSeparator(s[1..], sep);
      assert [s[0]] + s[1..] == s;
    }
  }

  lemma FlashAttnNotNccl()
    ensures !Contains(FlashAttnPackage, NcclPackage)
    ensures Contains(FlashAttnPackage, FlashAttnPackage)
  {
    assert OccursAt(FlashAttnPackage, FlashAttnPackage, 0);
    forall i | 0 <= i <= |FlashAttnPackage|
      ensures !OccursAt(FlashAttnPackage, NcclPackage, i)
    {
      if i == 0 {
        assert FlashAttnPackage[5] != NcclPackage[5];
      } else if i == 1 {
        assert FlashAttnPackage[1] != NcclPackage[0];
      }
    }
  }

  lemma FlashAttnFileLines()
    ensures FileLines(FlashAttnPackage) == [FlashAttnPackage]
  {
    var s := FlashAttnPackage;
    TrimLeftNoSpace(s);
    TrimRightNoSpace(s);
    assert forall i :: 0 <= i < |s| ==> s[i] != '\n';
    SplitWithoutSeparator(s, '\n');
  }

  lemma CudaFileOfFlashAttn()
    ensures ResolvedFile(map[CudaRequirements := FlashAttnPackage], CudaRequirements, 1) == Success([FlashAttnPackage])
  {
    FlashAttnFileLines();
    assert !IsInclude(FlashAttnPackage) by {
      assert FlashAttnPackage[0] != '-';
    }
    SingleLine(map[CudaRequirements := FlashAttnPackage], FlashAttnPackage, 0);
  }

  lemma CudaMajorMinor118()
    ensures CudaMajorMinor("11.8") == Success(("11", "8"))
  {
    assert "11.8" == "11" + ['.'] + "8";
    SplitAround("11", "8", '.');
  }

  lemma RewriteDropsFlashAttn118()
    ensures Rewritten([FlashAttnPackage], "11", "8") == []
  {
    FlashAttnNotNccl();
    assert RewriteLine(FlashAttnPackage, "11", "8") == [];
    assert [FlashAttnPackage][..0] == [];
  }

  /** A CUDA 11.8 build whose requirements name flash-attn: the script
      installs flash-attn although the rewrite was meant to drop it. */
  lemma AsWrittenKeepsFlashAttnOnCuda118()
    ensures var e := BuildEnv("cuda", Some("11.8"), None, false);
            var files := map[CudaRequirements := FlashAttnPackage];
            && GetRequirementsAsWritten(e, files, 1) == Success([FlashAttnPackage])
            && GetRequirements(e, files, 1) == Success([])
  {
    CudaFileOfFlashAttn();
    CudaMajorMinor118();
    RewriteDropsFlashAttn118();
  }
}
