# rdtset CPU affinity, modelled in Dafny

This project models the CPU affinity part of `rdtset` (intel-cmt-cat), the file
`rdtset/cpu.c`. It covers four things:

- the process-wide CPU set `m_cpuset`;
- `parse_cpu`, which strips leading blanks from the user's CPU list, wraps it in
  the delimiters `(`…`)` in a buffer of `strlen + 3` bytes, zeroes the set and
  hands both to the CPU-list grammar `parse_cpu_set`;
- `set_affinity`, which does nothing when the set is empty and otherwise makes
  one affinity call: `sched_setaffinity` on Linux, `cpuset_setaffinity` on
  FreeBSD (always at `CPU_LEVEL_WHICH`, with `CPU_WHICH_TID` and id -1 for
  pid 0 and `CPU_WHICH_PID` with the pid otherwise);
- the guard of `print_cmd_line_cpu_config`, which prints only a non-empty set.

Files:

- `wrappers.dfy` (module `Wrappers`): `Option`, used for a NULL pointer and for
  "no call was made".
- `libc.dfy` (module `LibC`): the C library pieces the code relies on. These are
  `EINVAL`, the C-locale `isblank`, reading a C string out of a buffer, and
  `snprintf` with its truncation rule.
- `cpu.dfy` (module `Cpu`): the CPU set type, the specification functions of
  the three operations, lemmas about them, and the class `AffinityStore`. The
  class holds `m_cpuset`. Its method `ParseCpu` has the pointer-advancing blank
  loop and updates the field in place. A few scenario methods show what a
  caller of the three operations can rely on.

The collaborators whose code is not part of this model are parameters, and
every contract holds for every choice of them:

- `parse_cpu_set` is a `ParserOracle`, a function from the string and the set it
  is handed to the parser's return value and the set's contents afterwards;
- the affinity system calls are a `Syscalls`, a function from the call made
  (with its `which`/id arguments, the set size and the set) to its return value;
- `cpuset_to_str` is a `Formatter`;
- whether `malloc` succeeds is the boolean `allocOk`. Because every contract
  holds for both values, this captures the nondeterministic allocation
  failure;
- the build platform is the datatype `Platform = Linux | FreeBSD` instead of
  `#ifdef`.

Constants: `CPU_SETSIZE` is 1024 (glibc), so `sizeof(cpu_set_t)` is 128 bytes,
and `EINVAL` is 22. A NULL argument is `None`. A C string is its characters
before the terminator, a `seq<char>` without NUL. Each `char` of the model
stands for one byte of the C string, so `strlen` is the length of the
sequence.

Two behaviours of the code are worth stating on their own:

- Only the value -1 from `parse_cpu_set` makes `parse_cpu` fail
  (rdtset/cpu.c:69). Any other return value, negative or positive, gives 0.
- After a failed parse, `m_cpuset` holds whatever the parser left in the
  zeroed set (rdtset/cpu.c:68-69). It is empty only when the parser writes
  nothing on failure (`Cpu.WritesNothingOnFailure`), which
  `Cpu.FailedParseEmptiesSet` proves.

## Model

| member | source | states |
|---|---|---|
| `LibC.CStringIn` | rdtset/cpu.c:58 | the C string read from a buffer is a NUL-free prefix of it, ending at the first NUL when there is one |
| `LibC.CStringInTerminated` | rdtset/cpu.c:63 | a NUL-free string stored with its terminator reads back as itself |
| `LibC.Snprintf` | rdtset/cpu.c:63 | `snprintf` returns the full output length, stores at most `size` bytes ending in NUL, never stores anything but a prefix of the output, and stores the whole output exactly when the return value is below `size` |
| `LibC.IsBlank` | rdtset/cpu.c:54 | `isblank` (space or tab in the C locale) never holds for the terminator, so the blank loop stops at the end of the string |
| `Cpu.BlankPrefixLen` | rdtset/cpu.c:54-55 | the blank loop stops within the string, after only blanks, and at a non-blank or the end |
| `Cpu.BlankPrefixLenUnique` | rdtset/cpu.c:54-55 | those properties determine the stopping point uniquely |
| `Cpu.SkipBlanks` | rdtset/cpu.c:54-55 | the stripped input is empty or starts with a non-blank, is no longer than the input, the characters removed from the front are all blanks, and it stays NUL-free |
| `Cpu.SkipBlanksIsRest` | rdtset/cpu.c:54-55 | the stripped input is the rest of the input: the input is the removed prefix followed by it |
| `Cpu.SkipBlanksIdempotent` | rdtset/cpu.c:54-55 | stripping blanks twice is the same as once |
| `Cpu.LeadingBlanksIgnored` | rdtset/cpu.c:54-55 | prefixing the input with blanks does not change the outcome of `parse_cpu` |
| `Cpu.Delimited` | rdtset/cpu.c:57-63 | the wrapped string is two characters longer, starts with "(", ends with ")", has the input between them, and stays NUL-free |
| `Cpu.BufferLen` | rdtset/cpu.c:58 | `strlen(cpu) + strlen("()") + 1` is the length of the delimited string plus its terminator |
| `Cpu.BufferExactlyFits` | rdtset/cpu.c:57-63 | the `strlen + 3` byte buffer takes `"(" + s + ")"` with no truncation, every byte used, and holds exactly that C string |
| `Cpu.ShorterBufferTruncates` | rdtset/cpu.c:58-63 | any smaller buffer truncates, and the parser would not see the delimited string |
| `Cpu.ParseCpuSpec` | rdtset/cpu.c:45-76 | NULL and allocation failure return -EINVAL with the set unchanged and no parse. Otherwise the parser gets the blank-stripped delimited input and the set reset to empty, and the final set is the parser's. The return is -EINVAL exactly when no parse happened or the parser returned -1, and is always 0 or -EINVAL |
| `Cpu.FailedParseEmptiesSet` | rdtset/cpu.c:68-70 | a failed parse leaves the set empty, never the previous cores, if the parser writes nothing on failure |
| `Cpu.OnlyMinusOneFails` | rdtset/cpu.c:69-70 | any parser return other than -1, negative ones included, gives 0 and the parser's set |
| `Cpu.ParseCpuIdempotent` | rdtset/cpu.c:67-75 | parsing the same input twice gives the same set and return value |
| `Cpu.AffinityStore.constructor` | rdtset/cpu.c:43 | the static set starts empty |
| `Cpu.AffinityStore.ParseCpu` | rdtset/cpu.c:45-76 | the method, with its blank loop, `snprintf` buffer and in-place reset then parse, returns and leaves in `m_cpuset` exactly what `ParseCpuSpec` gives for the previous state |
| `Cpu.SetAffinity` | rdtset/cpu.c:78-109 | no call and return 0 exactly when the set is empty. Otherwise exactly one call with the whole set and `sizeof(cpu_set_t)`, whose result is returned unchanged. On Linux it is `sched_setaffinity` with the pid as given. On FreeBSD it is `cpuset_setaffinity` at `CPU_LEVEL_WHICH`, with `CPU_WHICH_TID` and id -1 exactly for pid 0, and `CPU_WHICH_PID` with the pid otherwise |
| `Cpu.AffinityAfterParse` | rdtset/cpu.c:68-91 | for every state `parse_cpu` leaves, `set_affinity` makes no call exactly when that state is empty |
| `Cpu.CmdLineCpuConfig` | rdtset/cpu.c:111-120 | a line is printed exactly when the set is non-empty, and it is the "Core Affinity: CPUs: " line of the formatted set, whose text is a C string |
| `Cpu.AffinityStore.SetAffinityNow` | rdtset/cpu.c:78-91 | read-only on `m_cpuset`: no call exactly when the stored set is empty |
| `Cpu.AffinityStore.PrintCmdLineCpuConfig` | rdtset/cpu.c:111-116 | read-only on `m_cpuset`: output exactly when the stored set is non-empty |
| `Cpu.ListWithLeadingBlank` | rdtset/cpu.c:54-95 | for " 0-2" the parser sees "(0-2)". If it yields {0,1,2}, the store is {0,1,2} and Linux makes one `sched_setaffinity` call with it |
| `Cpu.EmptyList` | rdtset/cpu.c:68-91 | for "" the parser sees "()". If it selects nothing, `set_affinity` returns 0 without a call and nothing is printed |
| `Cpu.MalformedListAfterValidOne` | rdtset/cpu.c:68-91 | a rejected list after an accepted one returns -EINVAL, and `set_affinity` is then a no-op |
| `Cpu.RejectedBeforeParse` | rdtset/cpu.c:51-65 | NULL and allocation failure return -EINVAL and keep the earlier selection |

## Left out

- The CPU-list grammar of `parse_cpu_set`: its source is not part of this model. It is the `ParserOracle` parameter.
- The effects of `sched_setaffinity` and `cpuset_setaffinity` on the scheduler: these are foreign calls. Only the choice of call, its arguments and the pass-through of its result are modelled.
- `cpuset_to_str`, the `printf` output and the `g_verbose` message in `set_affinity`: these are I/O and a foreign formatter. The printed line is returned as a value.
- `malloc` and `free` beyond the success flag: the unconditional release of the buffer (rdtset/cpu.c:72-73) has no observable effect in the model.
- The `#ifdef` build selection: the platform is an input instead.
- The `int` width of `len` (rdtset/cpu.c:58): for inputs longer than `INT_MAX - 3` characters the C addition overflows. The model computes the length on unbounded integers.
- FreeBSD's own `CPU_SETSIZE`: one constant, glibc's 1024, is used for both platforms.
