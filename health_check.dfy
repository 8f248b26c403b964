/**
  `check_network_health`: the ping command chosen for the platform, the
  outcome of running it, and the (healthy, latency) pair made of that
  outcome. The platform name, the process and its captured stdout are
  inputs; nothing is spawned.
 */
module HealthCheck {
  import opened Optional
  import opened Ascii
  import opened Decimal
  import opened AverageLatency

  /** The pair `(is_healthy, avg_latency_ms)` the check returns. */
  datatype HealthResult = HealthResult(healthy: bool, latency: Option<nat>) {
    /** A latency is reported only for a healthy network. */
    predicate Valid() {
      latency.Some? ==> healthy
    }
  }

  const Unhealthy := HealthResult(false, None)

  /** Which error line, if any, the check prints before returning. */
  datatype Diagnostic = NoDiagnostic | CommandNotFound | UnexpectedError

  datatype Checked = Checked(result: HealthResult, diagnostic: Diagnostic)

  /** `platform.system().lower() == "windows"`. */
  predicate IsWindows(system: string)
    ensures IsWindows(system) <==> |system| == 7 && forall i :: 0 <= i < 7 ==> Lower(system[i]) == "windows"[i]
  {
    LowerString(system) == "windows"
  }

  /** The argument vector: one echo request, `-n` on Windows and `-c` elsewhere, the host last. */
  function PingCommand(system: string, host: string): (cmd: seq<string>)
    ensures |cmd| == 4 && cmd[0] == "ping" && cmd[2] == "1" && cmd[|cmd| - 1] == host
    ensures cmd[1] == "-n" <==> IsWindows(system)
    ensures cmd[1] == "-c" <==> !IsWindows(system)
  {
    if IsWindows(system) then ["ping", "-n", "1", host] else ["ping", "-c", "1", host]
  }

  /** The platform test ignores letter case, so any spelling of Windows selects `-n`. */
  lemma PingCommandIgnoresCase(a: string, b: string, host: string)
    requires |a| == |b| && forall i :: 0 <= i < |a| ==> Lower(a[i]) == Lower(b[i])
    ensures PingCommand(a, host) == PingCommand(b, host)
  {
  }

  /** The names `platform.system()` reports pick the flags one expects. */
  lemma PingCommandOnKnownPlatforms(host: string)
    ensures PingCommand("Windows", host) == ["ping", "-n", "1", host]
    ensures PingCommand("Linux", host) == ["ping", "-c", "1", host]
    ensures PingCommand("Darwin", host) == ["ping", "-c", "1", host]
  {
  }

  /** What starting the child process produced. */
  datatype Launch =
    | Completed(returnCode: int, stdout: string)   // the process exited and its stdout was decoded
    | ExecutableMissing                            // `ping` is not on the search path
    | LaunchFailed                                 // any other exception of the call, undecodable stdout included

  /** What reaches the code after `subprocess.run(...)` returns or raises. */
  datatype RunOutcome =
    | Returned(returnCode: int, stdout: string)    // `result`
    | FileNotFound                                 // `FileNotFoundError`
    | CalledProcessError(returnCode: int)          // `subprocess.CalledProcessError`
    | OtherException                               // any other `Exception`

  /** `subprocess.run(..., check=True)`: a non-zero exit is raised, never returned. */
  function RunChecked(l: Launch): (o: RunOutcome)
    ensures o.Returned? <==> l.Completed? && l.returnCode == 0
    ensures o.Returned? ==> o.stdout == l.stdout
    ensures o.CalledProcessError? ==> l.Completed? && o.returnCode == l.returnCode
    ensures o.CalledProcessError? <==> l.Completed? && l.returnCode != 0
    ensures o.FileNotFound? <==> l.ExecutableMissing?
    ensures o.OtherException? <==> l.LaunchFailed?
  {
    match l
    case Completed(code, out) => if code == 0 then Returned(code, out) else CalledProcessError(code)
    case ExecutableMissing => FileNotFound
    case LaunchFailed => OtherException
  }

  /**
    The `try` block from the return of `subprocess.run` on, with its three
    `except` clauses. `maxStrDigits` is the interpreter's limit on `int()`
    (0 for none); `int()` over the limit raises ValueError, which the last
    `except` turns into an unexpected error.
   */
  function Classify(o: RunOutcome, maxStrDigits: nat): (c: Checked)
    ensures c.result.Valid()
    ensures c.result.healthy ==> o.Returned? && o.returnCode == 0
    ensures !(o.Returned? && o.returnCode == 0) ==> c.result == Unhealthy
    ensures o.Returned? && o.returnCode == 0 && AverageDigits(o.stdout).None? ==>
      c == Checked(HealthResult(true, None), NoDiagnostic)
    ensures o.Returned? && o.returnCode == 0 && AverageDigits(o.stdout).Some? ==>
      var ds := AverageDigits(o.stdout).value;
      c == match ParseInt(ds, maxStrDigits)
           case Some(n) => Checked(HealthResult(true, Some(n)), NoDiagnostic)
           case None => Checked(Unhealthy, UnexpectedError)
    ensures c.diagnostic == CommandNotFound <==> o.FileNotFound?
    ensures o.OtherException? ==> c.diagnostic == UnexpectedError
    ensures o.CalledProcessError? || (o.Returned? && o.returnCode != 0) ==> c == Checked(Unhealthy, NoDiagnostic)
  {
    match o
    case Returned(code, out) =>
      if code == 0 then
        match AverageDigits(out)
        case Some(ds) =>
          (match ParseInt(ds, maxStrDigits)
           case Some(n) => Checked(HealthResult(true, Some(n)), NoDiagnostic)
           case None => Checked(Unhealthy, UnexpectedError))
        case None => Checked(HealthResult(true, None), NoDiagnostic)
      else Checked(Unhealthy, NoDiagnostic)
    case FileNotFound => Checked(Unhealthy, CommandNotFound)
    case CalledProcessError(_) => Checked(Unhealthy, NoDiagnostic)
    case OtherException => Checked(Unhealthy, UnexpectedError)
  }

  /**
    `check_network_health(host)` on platform `system`, where `run` stands for
    what running an argument vector produces on this machine.
   */
  function CheckNetworkHealth(system: string, host: string, run: seq<string> -> Launch, maxStrDigits: nat): (c: Checked)
    ensures c.result.Valid()
    ensures var l := run(PingCommand(system, host));
      && (c.result.healthy ==> l.Completed? && l.returnCode == 0)
      && (l.Completed? && l.returnCode != 0 ==> c == Checked(Unhealthy, NoDiagnostic))
      && (l.ExecutableMissing? <==> c.diagnostic == CommandNotFound)
      && (l.ExecutableMissing? ==> c.result == Unhealthy)
      && (l.LaunchFailed? ==> c == Checked(Unhealthy, UnexpectedError))
  {
    Classify(RunChecked(run(PingCommand(system, host))), maxStrDigits)
  }

  /**
    Under `check=True` the `returncode` test always sees 0, so its `else`
    branch is never taken; it would give the same answer as the raised error.
   */
  lemma ReturnCodeElseIsDead(l: Launch, maxStrDigits: nat)
    ensures RunChecked(l).Returned? ==> RunChecked(l).returnCode == 0
    ensures forall code: int, out: string :: code != 0 ==>
      Classify(Returned(code, out), maxStrDigits) == Classify(CalledProcessError(code), maxStrDigits)
  {
  }

  /**
    A successful ping whose output holds a well-formed `Average = Nms` token,
    with no `average` in any case before it, reports the network healthy with
    latency N, so long as `int()` accepts the digits.
   */
  lemma HealthyWithParsedLatency(system: string, host: string, run: seq<string> -> Launch, maxStrDigits: nat,
                                 p: string, word: string, ws1: string, ws2: string, ds: string, unit: string, q: string)
    requires run(PingCommand(system, host)) == Completed(0, p + word + ws1 + "=" + ws2 + ds + unit + q)
    requires forall j :: 0 <= j && j + |AverageLiteral| <= |p| ==> !FoldsAt(p, j, AverageLiteral)
    requires |word| == |AverageLiteral| && FoldsAt(word, 0, AverageLiteral)
    requires SpacesIn(ws1, 0, |ws1|) && SpacesIn(ws2, 0, |ws2|)
    requires IsDigitString(ds) && 1 <= |ds|
    requires |unit| == |UnitLiteral| && FoldsAt(unit, 0, UnitLiteral)
    requires maxStrDigits == 0 || |ds| <= LongMaxStrDigitsThreshold || |ds| <= maxStrDigits
    ensures CheckNetworkHealth(system, host, run, maxStrDigits) == Checked(HealthResult(true, Some(DecimalValue(ds))), NoDiagnostic)
  {
    FirstTokenIsParsed(p, word, ws1, ws2, ds, unit, q);
  }

  /**
    A successful ping whose output's leftmost match is m reports the network
    healthy with the value of m's digits, so long as `int()` accepts them.
   */
  lemma HealthyWithLeftmostMatch(system: string, host: string, run: seq<string> -> Launch, maxStrDigits: nat, m: Match)
    requires run(PingCommand(system, host)).Completed? && run(PingCommand(system, host)).returnCode == 0
    requires IsLeftmostMatch(run(PingCommand(system, host)).stdout, m)
    requires var ds := Group(run(PingCommand(system, host)).stdout, m);
      maxStrDigits == 0 || |ds| <= LongMaxStrDigitsThreshold || |ds| <= maxStrDigits
    ensures CheckNetworkHealth(system, host, run, maxStrDigits) ==
      Checked(HealthResult(true, Some(DecimalValue(Group(run(PingCommand(system, host)).stdout, m)))), NoDiagnostic)
  {
    SearchIsLeftmost(run(PingCommand(system, host)).stdout);
  }

  /** A successful ping whose output has no match is healthy with no latency. */
  lemma HealthyWithoutLatency(system: string, host: string, run: seq<string> -> Launch, maxStrDigits: nat)
    requires run(PingCommand(system, host)).Completed? && run(PingCommand(system, host)).returnCode == 0
    requires forall m: Match :: !IsMatch(run(PingCommand(system, host)).stdout, m)
    ensures CheckNetworkHealth(system, host, run, maxStrDigits) == Checked(HealthResult(true, None), NoDiagnostic)
  {
  }

  /** Five end-to-end runs: a fast reply, a timeout, an empty output, a space before `ms`, and a missing executable. */
  lemma ExampleRuns(system: string, host: string, run: seq<string> -> Launch)
    ensures run(PingCommand(system, host)) == Completed(0, "... Average = 23ms") ==>
      CheckNetworkHealth(system, host, run, DefaultMaxStrDigits).result == HealthResult(true, Some(23))
    ensures run(PingCommand(system, host)) == Completed(1, "Request timed out.") ==>
      CheckNetworkHealth(system, host, run, DefaultMaxStrDigits).result == HealthResult(false, None)
    ensures run(PingCommand(system, host)) == Completed(0, "") ==>
      CheckNetworkHealth(system, host, run, DefaultMaxStrDigits) == Checked(HealthResult(true, None), NoDiagnostic)
    ensures run(PingCommand(system, host)) == Completed(0, "Average = 23 ms") ==>
      CheckNetworkHealth(system, host, run, DefaultMaxStrDigits) == Checked(HealthResult(true, None), NoDiagnostic)
    ensures run(PingCommand(system, host)) == ExecutableMissing ==>
      CheckNetworkHealth(system, host, run, DefaultMaxStrDigits) == Checked(HealthResult(false, None), CommandNotFound)
  {
    var l := run(PingCommand(system, host));
    if l == Completed(0, "... Average = 23ms") {
      assert "... Average = 23ms" == "... " + "Average" + " " + "=" + " " + "23" + "ms" + "";
      HealthyWithParsedLatency(system, host, run, DefaultMaxStrDigits, "... ", "Average", " ", " ", "23", "ms", "");
      assert DecimalValue("23") == 23 by {
        assert "23"[..1] == "2";
      }
    }
    if l == Completed(0, "") {
      SearchIsLeftmost("");
    }
    if l == Completed(0, "Average = 23 ms") {
      NoSpacedUnitAnywhere();
    }
  }

  /** In `Average = 23 ms` the space before `ms` leaves no match anywhere. */
  lemma NoSpacedUnitAnywhere()
    ensures AverageDigits("Average = 23 ms").None?
  {
    var s := "Average = 23 ms";
    assert Lower(s[12 + 0]) != UnitLiteral[0];
    NoMatchWithoutUnitAfterDigits(s, 0, 8, 10, 12);
    forall m: Match ensures !IsMatch(s, m) {
      if 0 < m.start && m.start + |AverageLiteral| <= |s| {
        // only the `a` of `Average` starts a word that can fold to `average`
        var j := if m.start == 4 then 1 else 0;
        assert Lower(s[m.start + j]) != AverageLiteral[j];
      }
    }
    SearchIsLeftmost(s);
  }
}
