# sL-HealthCheck: a verified model of the network health check

`sL_health_check.py` pings one host once and reports whether the network is
healthy. This project models its logic in Dafny and proves properties of it.
Every fact about the environment is an input: the platform name, what
running the ping command produced, and the captured stdout.

- `ascii.dfy` (module `Ascii`): the `\s` and `\d` classes of Python's `re`,
  and the letter folding of `str.lower()` and `re.IGNORECASE`, all on ASCII.
- `decimal.dfy` (module `Decimal`): what `int()` makes of a digit run,
  including the interpreter's limit on the number of digits.
- `average_latency.dfy` (module `AverageLatency`): the search
  `re.search(r'Average\s*=\s*(\d+)ms', stdout, re.IGNORECASE | re.DOTALL)`
  written out as a scanner. `IsMatch(s, m)` says declaratively that the
  pattern matches `s` with a given split. `ScanAt` is the greedy matcher at
  one position. `FindMatch` and `Search` try positions from left to right.
  The lemmas prove that:
  - the search returns exactly the leftmost match;
  - a match at a given position can be split in only one way, the greedy one,
    so group 1 is always a maximal digit run;
  - letter case does not matter;
  - a digit run followed by anything other than `ms` (a space, say) gives no
    match;
  - a well-formed token is parsed to its digits.
- `health_check.dfy` (module `HealthCheck`): the command vector, the way
  `subprocess.run(..., check=True)` turns the process's end into a return or
  an exception, the classification into `(healthy, latency)` with the
  diagnostic line chosen, and `check_network_health` as their composition.
- `vibe_report.dfy` (module `VibeReport`): the `__main__` block's choice
  among four reports: blazing, stable, seamless and unreachable.

The process is a parameter `run: seq<string> -> Launch`. It gives what
executing an argument vector produces. `Completed` means the process
exited and its stdout was decoded as text (`text=True`, line 37); it carries
the return code and stdout. `ExecutableMissing` is the `FileNotFoundError`
of a missing `ping`. `LaunchFailed` is any other exception the call raises.
That includes a decoding error on the output of a process that exited 0:
such a run is `LaunchFailed`, not `Completed(0, _)`, and is reported
unhealthy with the unexpected-error line.
`RunChecked` applies `check=True`: a non-zero exit arrives as
`CalledProcessError`. So the `else` branch at line 52-53 is never reached
from `CheckNetworkHealth` (`ReturnCodeElseIsDead`). `Classify` still models
that branch, with the same answer.

On interpreters that have the integer string conversion limit, `int()` on a
run of more than 4300 digits (the default limit) raises `ValueError`. The generic `except Exception` catches it, so the check then
reports `(False, None)` with the unexpected-error line. The parameter
`maxStrDigits` is the interpreter's `sys.get_int_max_str_digits()`. It is 0
on interpreters without the limit, or where the limit is switched off. CPython checks the limit only for strings
longer than 640 characters. This path is easy to overlook, but it follows
from the code as written, so the model includes it.

The code uses `re.search`, so only the leftmost match counts: an earlier
`Average = 7ms` wins over a later token. `HealthyWithLeftmostMatch` states the
result for whatever the leftmost match is. `HealthyWithParsedLatency` is a
special case for a concrete token. It asks that no spelling of `average` comes
before the token, which is enough to make the token the leftmost match (text
such as `Average: n/a` before it is also harmless, and is covered by
`HealthyWithLeftmostMatch`).

## Model

| member | source | states |
|---|---|---|
| `Ascii.LowerString` | sL_health_check.py:27 | `str.lower()` on ASCII: same length, each character folded on its own |
| `HealthCheck.IsWindows` | sL_health_check.py:27 | the platform name is Windows exactly when it has seven characters that fold to `windows` one by one |
| `HealthCheck.PingCommand` | sL_health_check.py:27-30 | four arguments `ping`, count flag, `1`, host; the flag is `-n` exactly when the lower-cased platform name is `windows`, otherwise `-c`; the host is the last element |
| `HealthCheck.PingCommandIgnoresCase` | sL_health_check.py:27 | two platform names that agree up to letter case select the same command |
| `HealthCheck.PingCommandOnKnownPlatforms` | sL_health_check.py:27-30 | `Windows` gives `-n 1`, `Linux` and `Darwin` give `-c 1` |
| `HealthCheck.RunChecked` | sL_health_check.py:34-39 | with `check=True` a completed process returns only with code 0; a non-zero code becomes `CalledProcessError`, a missing executable `FileNotFoundError`, any other exception of the call, a decoding error on the output of a process that exited 0 included, stays another exception |
| `Ascii.IsSpace` | sL_health_check.py:44 | `\s` on ASCII; a whitespace character is never `=`, a digit, an upper-case letter or `m`, so neither `\s*` can swallow the `=` or digits that follow it, and a space cannot stand for `ms` |
| `Ascii.IsDigit` | sL_health_check.py:44 | `\d` on ASCII; a digit is never `=` nor folds to the `m` of `ms` |
| `AverageLatency.IsMatch` | sL_health_check.py:44 | the pattern matches with a given split; any such split puts `=` after `Average`, a non-empty digit run after `=`, and `ms` inside the text |
| `AverageLatency.SpanEnd` | sL_health_check.py:44 | a greedy `\s*` or `\d+`: the returned end bounds a run of the class that cannot be extended |
| `AverageLatency.MatchIsGreedy` | sL_health_check.py:44 | every match splits the text the greedy way: both `\s*` stop at the first non-space, group 1 is the whole digit run, and a non-digit follows it |
| `AverageLatency.ScanAt` | sL_health_check.py:44 | returns a match at position i exactly when the pattern matches there, and then it is the only split |
| `AverageLatency.FindMatch` | sL_health_check.py:44 | returns a match at or after `from`, and no match starts between `from` and it; None only when no match starts at or after `from` |
| `AverageLatency.Search` | sL_health_check.py:44 | `re.search` returns a match of the pattern, and None exactly when the pattern matches nowhere |
| `AverageLatency.SearchIsLeftmost` | sL_health_check.py:44 | `re.search` returns m exactly when m is the leftmost match, and None exactly when the pattern matches nowhere |
| `AverageLatency.Group` | sL_health_check.py:47 | `match.group(1)` is a non-empty run of ASCII digits |
| `AverageLatency.AverageDigits` | sL_health_check.py:44-47 | group 1 of the found match is a non-empty run of ASCII digits |
| `AverageLatency.SearchIgnoresCase` | sL_health_check.py:44 | IGNORECASE: lower-casing stdout changes neither the match found nor the captured digits |
| `AverageLatency.NoMatchWithoutUnitAfterDigits` | sL_health_check.py:44 | when `Average`, `=` and a whole digit run are present but `ms` does not follow the run at once, for example after a space, no match starts there |
| `AverageLatency.FirstTokenIsParsed` | sL_health_check.py:44-47 | text with no `average` before a token `Average <spaces> = <spaces> <digits> ms`, in any case, yields exactly those digits whatever follows |
| `Decimal.DecimalValue` | sL_health_check.py:47 | the value of k digits is below 10^k |
| `Decimal.DecimalRoundTrip` | sL_health_check.py:47 | `int(str(n)) == n` for every natural n |
| `Decimal.LeadingZeroIgnored` | sL_health_check.py:47 | a leading zero does not change the value `int()` reads |
| `Decimal.ParseInt` | sL_health_check.py:47 | `int()` of a digit run fails exactly when the interpreter's digit limit is on and the run exceeds both it and 640 digits; otherwise it gives the run's decimal value |
| `HealthCheck.Classify` | sL_health_check.py:41-63 | the result never has a latency without being healthy; healthy only after exit code 0; exit 0 without a match gives `(True, None)`, with a match `(True, N)` for the match's digits, or `(False, None)` with the unexpected-error line when `int()` refuses them; a non-zero code, returned or raised, gives `(False, None)` with no line; `FileNotFoundError` alone selects the not-found line; any other exception gives the unexpected-error line |
| `HealthCheck.CheckNetworkHealth` | sL_health_check.py:26-63 | for every platform, host and process behaviour a result is returned (printing aside, see below); it is valid, healthy only after exit code 0; a non-zero exit gives `(False, None)`; a missing executable gives `(False, None)` and is the only cause of the not-found line; any other exception of the call (`LaunchFailed`, which includes undecodable output of a process that exited 0) gives `(False, None)` with the unexpected-error line |
| `HealthCheck.ReturnCodeElseIsDead` | sL_health_check.py:38-60 | after `check=True` the return code seen is always 0, and the unreachable `else` would answer as `CalledProcessError` does |
| `HealthCheck.HealthyWithParsedLatency` | sL_health_check.py:41-48 | a zero exit whose stdout holds a well-formed token with no `average` before it gives `(True, N)`, N the token's decimal value, when `int()` accepts the digits |
| `HealthCheck.HealthyWithLeftmostMatch` | sL_health_check.py:41-48 | a zero exit whose stdout has leftmost match m gives `(True, N)`, N the value of m's digits, with no diagnostic, when `int()` accepts the digits |
| `HealthCheck.HealthyWithoutLatency` | sL_health_check.py:49-51 | a zero exit whose stdout matches nowhere gives `(True, None)` with no diagnostic |
| `HealthCheck.NoSpacedUnitAnywhere` | sL_health_check.py:44-51 | `Average = 23 ms`, with a space before `ms`, has no match at all |
| `HealthCheck.ExampleRuns` | sL_health_check.py:41-63 | `... Average = 23ms` with exit 0 gives `(True, 23)`; `Request timed out.` with exit 1 gives `(False, None)`; empty output and `Average = 23 ms` with exit 0 give `(True, None)`; a missing executable gives `(False, None)` and the not-found line |
| `VibeReport.SelectTier` | sL_health_check.py:70-87 | blazing iff healthy with latency below 50, stable iff healthy with latency 50 or more, seamless iff healthy without latency, unreachable iff not healthy; being a single value, exactly one applies |
| `VibeReport.ScriptTier` | sL_health_check.py:66-87 | the script reports anything but unreachable only after the ping to 8.8.8.8 exited with code 0 and its output was decoded (`Completed(0, _)`); for such a run it reports seamless when stdout has no match, and otherwise blazing or stable as the parsed latency is below 50 or not, or unreachable when `int()` refuses the digits |
| `VibeReport.ScenarioTiers` | sL_health_check.py:68-87 | the example runs lead to blazing, seamless and unreachable respectively |
| `VibeReport.SlowReplyIsStable` | sL_health_check.py:77-80 | an average of 120 ms is reported as stable |

## Left out

- The process itself (`subprocess.run`, lines 34-39): what running the command produces is the parameter `run`. The model does not capture stderr, timing or the blocking wait.
- `platform.system()` (line 27): the platform name is a parameter.
- `datetime.now()` and every `print` (lines 23-24, 56, 62, 74-87): only the choice of diagnostic and of report is modelled, not the wording. The exception message printed at line 62 is not modelled either.
- `CheckNetworkHealth`: the promise that a result is always returned assumes every `print` succeeds. Lines 23-24 run before the `try`, and lines 56 and 62 run inside the `except` handlers, so an exception raised by `print` (a `UnicodeEncodeError` on the emoji when stdout cannot encode it, say) escapes the function. The model leaves printing out and does not capture that path.
- Python's Unicode semantics: `\s`, `\d`, `re.IGNORECASE` and `str.lower()` are modelled on ASCII only. In Python, `\s` also matches non-ASCII spaces. `\d` and `int()` also accept other decimal digits. Under IGNORECASE the long s (U+017F) also matches the `s` of `ms`.
- `re.DOTALL` changes nothing, since the pattern has no `.`.
- `BaseException` subclasses outside `Exception` (`KeyboardInterrupt`, `SystemExit`) are not caught at line 61. They would escape the function. The model covers only outcomes that are `Exception`s.
- `TARGET_HOST` (line 10) is the constant `VibeReport.TargetHost`, used by `ScriptTier` and by the lemmas about it, `ScenarioTiers` and `SlowReplyIsStable`. The members of `HealthCheck` take the host as a parameter.
