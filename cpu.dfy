/** The CPU affinity state of rdtset: the process-wide CPU set `m_cpuset`,
    `parse_cpu`, which fills it from the user's CPU list, `set_affinity`,
    which applies it to a process or thread, and the guard of
    `print_cmd_line_cpu_config`.

    The collaborators whose code is not part of this model are parameters:
    the CPU-list grammar `parse_cpu_set` (a `ParserOracle`), the kernel's
    affinity calls (a `Syscalls`), the formatter `cpuset_to_str` (a
    `Formatter`) and whether `malloc` succeeds (a `bool`). Every contract
    below holds for every choice of them. */
module Cpu {
  import opened Wrappers
  import opened LibC

  // ---------------------------------------------------------------------
  // The CPU set
  // ---------------------------------------------------------------------

  /** `CPU_SETSIZE` of glibc: the number of CPU indices a `cpu_set_t` can hold. */
  const CPU_SETSIZE: nat := 1024

  /** `sizeof(cpu_set_t)`: one bit per CPU index, in bytes. */
  const CPU_SET_BYTES: nat := CPU_SETSIZE / 8

  /** A `cpu_set_t`, as the set of the CPU indices whose bit is on. */
  type CpuSet = s: set<nat> | forall c :: c in s ==> c < CPU_SETSIZE witness {}

  // ---------------------------------------------------------------------
  // parse_cpu: the input normaliser
  // ---------------------------------------------------------------------

  /** How far `while (isblank(*cpu)) cpu++` advances the pointer: the length
      of the longest all-blank prefix of the input. */
  function BlankPrefixLen(s: string): (n: nat)
    ensures n <= |s|
    ensures forall k :: 0 <= k < n ==> IsBlank(s[k])
    ensures n == |s| || !IsBlank(s[n])
  {
    if s != [] && IsBlank(s[0]) then 1 + BlankPrefixLen(s[1..]) else 0
  }

  /** The three properties above determine the stopping point: any `n` that
      has only blanks before it and no blank at it is `BlankPrefixLen(s)`. */
  lemma BlankPrefixLenUnique(s: string, n: nat)
    requires n <= |s|
    requires forall k :: 0 <= k < n ==> IsBlank(s[k])
    requires n == |s| || !IsBlank(s[n])
    ensures n == BlankPrefixLen(s)
  {
  }

  /** The input with its leading blanks (spaces and tabs) removed: what is
      left starts with a non-blank or is empty, and everything removed was a
      blank. */
  function SkipBlanks(s: string): (r: string)
    ensures r == [] || !IsBlank(r[0])
    ensures |r| <= |s| && forall k :: 0 <= k < |s| - |r| ==> IsBlank(s[k])
    ensures NUL !in s ==> NUL !in r
  {
    s[BlankPrefixLen(s)..]
  }

  /** What is left is the rest of the input: the input is the removed prefix
      followed by the result. */
  lemma SkipBlanksIsRest(s: string)
    ensures s == s[..|s| - |SkipBlanks(s)|] + SkipBlanks(s)
  {
  }

  /** Removing blanks a second time changes nothing. */
  lemma SkipBlanksIdempotent(s: string)
    ensures SkipBlanks(SkipBlanks(s)) == SkipBlanks(s)
  {
    var r := SkipBlanks(s);
    BlankPrefixLenUnique(r, 0);
  }

  /** The string enclosed in the delimiters "(" and ")" that `parse_cpu_set`
      requires. */
  function Delimited(s: string): (r: string)
    ensures |r| == |s| + 2
    ensures r[0] == '(' && r[|r| - 1] == ')'
    ensures r[1..|r| - 1] == s
    ensures NUL !in s ==> NUL !in r
  {
    "(" + s + ")"
  }

  /** `len = strlen(cpu) + strlen("()") + 1`: the size of the buffer `parse_cpu`
      allocates for the delimited string. */
  function BufferLen(s: string): (n: nat)
    ensures n == |Delimited(s)| + 1
  {
    |s| + |"()"| + 1
  }

  /** The buffer of `BufferLen(s)` bytes is exactly filled by
      `snprintf(cpu_str, len, "(%s)", cpu)`: nothing is truncated, every byte
      is used, and the C string the buffer holds is the delimited input. */
  lemma BufferExactlyFits(s: CString)
    ensures var f := Snprintf(BufferLen(s), Delimited(s));
      f.returned < BufferLen(s) && |f.written| == BufferLen(s) &&
      f.written == Delimited(s) + [NUL] && CStringIn(f.written) == Delimited(s)
  {
    CStringInTerminated(Delimited(s));
  }

  /** The buffer is also no larger than needed: any smaller size truncates, and
      the parser would then not see the delimited string. */
  lemma ShorterBufferTruncates(s: CString, size: nat)
    requires size < BufferLen(s)
    ensures var f := Snprintf(size, Delimited(s));
      f.returned >= size && CStringIn(f.written) != Delimited(s)
  {
    var f := Snprintf(size, Delimited(s));
    if size > 0 {
      assert NUL in f.written by { assert f.written[|f.written| - 1] == NUL; }
    }
  }

  // ---------------------------------------------------------------------
  // parse_cpu: delegation to the grammar and the state update
  // ---------------------------------------------------------------------

  /** What `parse_cpu_set(str, &set)` reports: its return value (-1 on a syntax
      error) and the contents of `set` when it returns. */
  datatype ParserResult = ParserResult(ret: int, cpus: CpuSet)

  /** The grammar parser, given the string and the set it is handed. */
  type ParserOracle = (string, CpuSet) -> ParserResult

  /** One call of `parse_cpu_set`: the string and the set it was given. */
  datatype ParserCall = ParserCall(text: string, start: CpuSet)

  /** The effect of one `parse_cpu`: its return value, `m_cpuset` afterwards and
      the parser call it made, if any. */
  datatype ParseOutcome = ParseOutcome(ret: int, cpus: CpuSet, call: Option<ParserCall>)

  /** `parse_cpu(cpu)` from the state `prior`, with `cpu == None` for NULL and
      `allocOk` the outcome of `malloc`. */
  function ParseCpuSpec(prior: CpuSet, cpu: Option<CString>, allocOk: bool,
                        parser: ParserOracle): (o: ParseOutcome)
    // NULL is rejected and nothing changes
    ensures cpu.None? ==> o == ParseOutcome(-EINVAL, prior, None)
    // an allocation failure is rejected before the set is touched
    ensures !allocOk ==> o == ParseOutcome(-EINVAL, prior, None)
    // the parser is called exactly when the input is not NULL and malloc succeeded
    ensures o.call.Some? <==> cpu.Some? && allocOk
    // it gets the delimited, blank-stripped input and the set reset to empty
    ensures o.call.Some? ==> o.call.value == ParserCall(Delimited(SkipBlanks(cpu.value)), {})
    // the final state is what the parser left in the set
    ensures o.call.Some? ==> o.cpus == parser(o.call.value.text, {}).cpus
    // the result is -EINVAL exactly when no parse happened or the parser returned -1
    ensures o.ret == -EINVAL <==> o.call.None? || parser(o.call.value.text, {}).ret == -1
    ensures o.ret == 0 || o.ret == -EINVAL
  {
    match cpu
    case None => ParseOutcome(-EINVAL, prior, None)
    case Some(s) =>
      if !allocOk then ParseOutcome(-EINVAL, prior, None)
      else
        var text := Delimited(SkipBlanks(s));
        var res := parser(text, {});
        ParseOutcome(if res.ret == -1 then -EINVAL else 0, res.cpus, Some(ParserCall(text, {})))
  }

  /** A parser that leaves the set it was given untouched when it rejects `text`. */
  ghost predicate WritesNothingOnFailure(parser: ParserOracle, text: string) {
    parser(text, {}).ret == -1 ==> parser(text, {}).cpus == {}
  }

  /** A rejected CPU list never keeps the cores of the previous list: after a
      failed parse the set is empty, provided the parser writes nothing when it
      fails. */
  lemma FailedParseEmptiesSet(prior: CpuSet, s: CString, parser: ParserOracle)
    requires WritesNothingOnFailure(parser, Delimited(SkipBlanks(s)))
    requires ParseCpuSpec(prior, Some(s), true, parser).ret == -EINVAL
    ensures ParseCpuSpec(prior, Some(s), true, parser).cpus == {}
  {
  }

  /** The parser's own return value is not passed on: any value other than -1,
      negative ones included, makes `parse_cpu` succeed. */
  lemma OnlyMinusOneFails(prior: CpuSet, s: CString, parser: ParserOracle)
    requires parser(Delimited(SkipBlanks(s)), {}).ret != -1
    ensures ParseCpuSpec(prior, Some(s), true, parser).ret == 0
    ensures ParseCpuSpec(prior, Some(s), true, parser).cpus == parser(Delimited(SkipBlanks(s)), {}).cpus
  {
  }

  /** Once the parser is reached the previous state is irrelevant: parsing the
      same input twice leaves the same set and returns the same value. */
  lemma ParseCpuIdempotent(prior: CpuSet, s: CString, parser: ParserOracle)
    ensures var first := ParseCpuSpec(prior, Some(s), true, parser);
      var second := ParseCpuSpec(first.cpus, Some(s), true, parser);
      second.cpus == first.cpus && second.ret == first.ret
  {
  }

  /** Leading blanks make no difference to the outcome. */
  lemma LeadingBlanksIgnored(prior: CpuSet, blanks: CString, s: CString, allocOk: bool,
                             parser: ParserOracle)
    requires forall k :: 0 <= k < |blanks| ==> IsBlank(blanks[k])
    ensures ParseCpuSpec(prior, Some(blanks + s), allocOk, parser)
         == ParseCpuSpec(prior, Some(s), allocOk, parser)
  {
    var t := blanks + s;
    var n := BlankPrefixLen(s);
    forall k | 0 <= k < |blanks| + n
      ensures IsBlank(t[k])
    {
      if k >= |blanks| { assert t[k] == s[k - |blanks|]; }
    }
    BlankPrefixLenUnique(t, |blanks| + n);
    assert t[|blanks| + n..] == s[n..];
  }

  // ---------------------------------------------------------------------
  // set_affinity
  // ---------------------------------------------------------------------

  /** The operating system the code is built for. */
  datatype Platform = Linux | FreeBSD

  /** The `level` argument of FreeBSD's `cpuset_setaffinity`. */
  datatype CpuLevel = CpuLevelWhich

  /** The `which` argument of FreeBSD's `cpuset_setaffinity`. */
  datatype CpuWhich = CpuWhichTid | CpuWhichPid

  /** `pid_t`, a signed 32-bit integer on both platforms. */
  type Pid = x: int | -0x8000_0000 <= x < 0x8000_0000

  /** An affinity call and its arguments: the target, the size of the set in
      bytes and the set. */
  datatype AffinityCall =
    | SchedSetaffinity(pid: Pid, setSize: nat, mask: CpuSet)
    | CpusetSetaffinity(level: CpuLevel, which: CpuWhich, id: int, setSize: nat, mask: CpuSet)

  /** The kernel, giving each affinity call its return value. */
  type Syscalls = AffinityCall -> int

  /** What `set_affinity` returns and the affinity call it made, if any. */
  datatype AffinityResult = AffinityResult(ret: int, call: Option<AffinityCall>)

  /** `set_affinity(pid)` on `platform` with `cpus` the current `m_cpuset`. */
  function SetAffinity(cpus: CpuSet, platform: Platform, pid: Pid, os: Syscalls): (r: AffinityResult)
    // no call, and success, exactly when no CPU is selected
    ensures r.call.None? <==> |cpus| == 0
    ensures r.call.None? ==> r.ret == 0
    // otherwise one call with the whole set, whose result is returned as is
    ensures r.call.Some? ==> r.ret == os(r.call.value)
    ensures r.call.Some? ==> r.call.value.mask == cpus && r.call.value.setSize == CPU_SET_BYTES
    // Linux: sched_setaffinity with the pid passed through
    ensures r.call.Some? && platform == Linux ==> r.call.value == SchedSetaffinity(pid, CPU_SET_BYTES, cpus)
    // FreeBSD: pid 0 is the calling thread (id -1), any other pid a process
    ensures r.call.Some? && platform == FreeBSD ==>
      r.call.value.CpusetSetaffinity? && r.call.value.level == CpuLevelWhich &&
      (r.call.value.which == CpuWhichTid <==> pid == 0) &&
      r.call.value.id == (if pid == 0 then -1 else pid)
  {
    if |cpus| == 0 then AffinityResult(0, None)
    else
      var call := match platform
        case Linux => SchedSetaffinity(pid, CPU_SET_BYTES, cpus)
        case FreeBSD =>
          if pid == 0 then CpusetSetaffinity(CpuLevelWhich, CpuWhichTid, -1, CPU_SET_BYTES, cpus)
          else CpusetSetaffinity(CpuLevelWhich, CpuWhichPid, pid, CPU_SET_BYTES, cpus);
      AffinityResult(os(call), Some(call))
  }

  /** For every state `parse_cpu` can leave behind, `set_affinity` is a no-op
      exactly when that state is empty: after a parse, when the parser produced
      no CPU; without one, when the previous state was empty. */
  lemma AffinityAfterParse(prior: CpuSet, cpu: Option<CString>, allocOk: bool, parser: ParserOracle,
                           platform: Platform, pid: Pid, os: Syscalls)
    ensures var o := ParseCpuSpec(prior, cpu, allocOk, parser);
      var a := SetAffinity(o.cpus, platform, pid, os);
      a.call.None? <==> (if o.call.Some? then parser(o.call.value.text, {}).cpus == {} else prior == {})
  {
  }

  // ---------------------------------------------------------------------
  // print_cmd_line_cpu_config
  // ---------------------------------------------------------------------

  /** The external `cpuset_to_str`, as the text it renders for a set. */
  type Formatter = CpuSet -> CString

  /** The line `print_cmd_line_cpu_config` prints for `cpus`, or `None` when it
      prints nothing. */
  function CmdLineCpuConfig(cpus: CpuSet, toStr: Formatter): (out: Option<string>)
    ensures out.None? <==> |cpus| == 0
    ensures out.Some? ==> out.value == "Core Affinity: CPUs: " + toStr(cpus) + "\n"
  {
    if |cpus| != 0 then Some("Core Affinity: CPUs: " + toStr(cpus) + "\n") else None
  }

  // ---------------------------------------------------------------------
  // The process-wide state
  // ---------------------------------------------------------------------

  /** The static `m_cpuset` and the three operations on it. */
  class AffinityStore {
    var cpuset: CpuSet

    /** A static `cpu_set_t` starts zeroed. */
    constructor ()
      ensures cpuset == {}
    {
      cpuset := {};
    }

    /** `parse_cpu(cpu)`. */
    method ParseCpu(cpu: Option<CString>, allocOk: bool, parser: ParserOracle) returns (ret: int)
      modifies this
      ensures ret == ParseCpuSpec(old(cpuset), cpu, allocOk, parser).ret
      ensures cpuset == ParseCpuSpec(old(cpuset), cpu, allocOk, parser).cpus
    {
      if cpu.None? {
        return -EINVAL;
      }
      var s := cpu.value;
      var i := 0;
      while i < |s| && IsBlank(s[i])
        invariant 0 <= i <= |s|
        invariant forall k :: 0 <= k < i ==> IsBlank(s[k])
      {
        i := i + 1;
      }
      BlankPrefixLenUnique(s, i);
      var rest := s[i..];
      var len := |rest| + |"()"| + 1;
      if !allocOk {
        return -EINVAL;
      }
      var buf := Snprintf(len, Delimited(rest)).written;
      BufferExactlyFits(rest);
      cpuset := {};
      var res := parser(CStringIn(buf), cpuset);
      cpuset := res.cpus;
      ret := if res.ret == -1 then -EINVAL else 0;
    }

    /** `set_affinity(pid)`: reads `m_cpuset` and changes nothing. */
    function SetAffinityNow(platform: Platform, pid: Pid, os: Syscalls): (r: AffinityResult)
      reads this
      ensures r.call.None? <==> cpuset == {}
    {
      SetAffinity(cpuset, platform, pid, os)
    }

    /** `print_cmd_line_cpu_config()`: reads `m_cpuset` and changes nothing. */
    function PrintCmdLineCpuConfig(toStr: Formatter): (out: Option<string>)
      reads this
      ensures out.None? <==> cpuset == {}
    {
      CmdLineCpuConfig(cpuset, toStr)
    }
  }

  // ---------------------------------------------------------------------
  // Scenarios: what a caller of the three operations can rely on
  // ---------------------------------------------------------------------

  /** A list with a leading blank: the parser sees "(0-2)", and the selected
      CPUs are then applied on Linux with one `sched_setaffinity` call. */
  method ListWithLeadingBlank(parser: ParserOracle, pid: Pid, os: Syscalls)
    returns (parsed: int, store: CpuSet, applied: AffinityResult)
    requires parser("(0-2)", {}) == ParserResult(0, {0, 1, 2})
    ensures parsed == 0 && store == {0, 1, 2}
    ensures applied == AffinityResult(os(SchedSetaffinity(pid, CPU_SET_BYTES, {0, 1, 2})),
                                      Some(SchedSetaffinity(pid, CPU_SET_BYTES, {0, 1, 2})))
  {
    var st := new AffinityStore();
    assert Delimited(SkipBlanks(" 0-2")) == "(0-2)" by { assert " 0-2"[1..] == "0-2"; }
    parsed := st.ParseCpu(Some(" 0-2"), true, parser);
    store := st.cpuset;
    applied := st.SetAffinityNow(Linux, pid, os);
  }

  /** An empty list: the parser sees "()" and selects nothing, so
      `set_affinity` succeeds without a call and nothing is printed. */
  method EmptyList(parser: ParserOracle, platform: Platform, pid: Pid, os: Syscalls, toStr: Formatter)
    returns (parsed: int, applied: AffinityResult, printed: Option<string>)
    requires parser("()", {}) == ParserResult(0, {})
    ensures parsed == 0 && applied == AffinityResult(0, None) && printed == None
  {
    var st := new AffinityStore();
    assert BlankPrefixLen("") == 0;
    assert Delimited(SkipBlanks("")) == "()";
    parsed := st.ParseCpu(Some(""), true, parser);
    applied := st.SetAffinityNow(platform, pid, os);
    printed := st.PrintCmdLineCpuConfig(toStr);
  }

  /** A malformed list after a valid one: `parse_cpu` fails, and the earlier
      selection is not applied. */
  method MalformedListAfterValidOne(parser: ParserOracle, platform: Platform, pid: Pid, os: Syscalls)
    returns (first: int, second: int, applied: AffinityResult)
    requires parser("(1)", {}) == ParserResult(0, {1})
    requires parser("(abc)", {}) == ParserResult(-1, {})
    ensures first == 0 && second == -EINVAL && applied == AffinityResult(0, None)
  {
    var st := new AffinityStore();
    assert Delimited(SkipBlanks("1")) == "(1)";
    assert Delimited(SkipBlanks("abc")) == "(abc)";
    first := st.ParseCpu(Some("1"), true, parser);
    second := st.ParseCpu(Some("abc"), true, parser);
    applied := st.SetAffinityNow(platform, pid, os);
  }

  /** NULL and an allocation failure both leave an earlier selection in place. */
  method RejectedBeforeParse(parser: ParserOracle, s: CString, platform: Platform, pid: Pid, os: Syscalls)
    returns (nullRet: int, allocRet: int, store: CpuSet)
    requires parser("(1)", {}) == ParserResult(0, {1})
    ensures nullRet == -EINVAL && allocRet == -EINVAL && store == {1}
  {
    var st := new AffinityStore();
    assert Delimited(SkipBlanks("1")) == "(1)";
    var ok := st.ParseCpu(Some("1"), true, parser);
    nullRet := st.ParseCpu(None, true, parser);
    allocRet := st.ParseCpu(Some(s), false, parser);
    store := st.cpuset;
  }
}
