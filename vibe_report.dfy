/**
  The `__main__` block: run the check against the fixed target and pick the
  "Vibe Status" line to print from the (healthy, latency) pair.
 */
module VibeReport {
  import opened Optional
  import opened Decimal
  import opened AverageLatency
  import opened HealthCheck

  /** The default target, `TARGET_HOST`. */
  const TargetHost := "8.8.8.8"

  /** Latencies below this many milliseconds are reported as blazing fast. */
  const BlazingBelowMillis := 50

  /** The four reports: optimal with a fast or a stable latency, optimal without latency data, and unreachable. */
  datatype Tier = Blazing | Stable | Seamless | Unreachable

  /** The nested conditionals of the report. */
  function SelectTier(r: HealthResult): (t: Tier)
    ensures t == Blazing <==> r.healthy && r.latency.Some? && r.latency.value < BlazingBelowMillis
    ensures t == Stable <==> r.healthy && r.latency.Some? && r.latency.value >= BlazingBelowMillis
    ensures t == Seamless <==> r.healthy && r.latency.None?
    ensures t == Unreachable <==> !r.healthy
  {
    if r.healthy then
      match r.latency
      case Some(ms) => if ms < BlazingBelowMillis then Blazing else Stable
      case None => Seamless
    else Unreachable
  }

  /** The report the script prints, on platform `system` with `run` standing for the machine. */
  function ScriptTier(system: string, run: seq<string> -> Launch, maxStrDigits: nat): (t: Tier)
    ensures var l := run(PingCommand(system, TargetHost));
      && (t != Unreachable ==> l.Completed? && l.returnCode == 0)
      && (l.Completed? && l.returnCode == 0 && AverageDigits(l.stdout).None? ==> t == Seamless)
      && (l.Completed? && l.returnCode == 0 && AverageDigits(l.stdout).Some? ==>
            match ParseInt(AverageDigits(l.stdout).value, maxStrDigits)
            case Some(n) => t == (if n < BlazingBelowMillis then Blazing else Stable)
            case None => t == Unreachable)
  {
    SelectTier(CheckNetworkHealth(system, TargetHost, run, maxStrDigits).result)
  }

  /** The reports that three of the example runs lead to. */
  lemma ScenarioTiers(system: string, run: seq<string> -> Launch)
    ensures run(PingCommand(system, TargetHost)) == Completed(0, "... Average = 23ms") ==>
      ScriptTier(system, run, DefaultMaxStrDigits) == Blazing
    ensures run(PingCommand(system, TargetHost)) == Completed(0, "") ==>
      ScriptTier(system, run, DefaultMaxStrDigits) == Seamless
    ensures run(PingCommand(system, TargetHost)) == Completed(1, "Request timed out.") ==>
      ScriptTier(system, run, DefaultMaxStrDigits) == Unreachable
  {
    ExampleRuns(system, TargetHost, run);
  }

  /** A reply averaging 120 ms is reported as stable, not blazing. */
  lemma SlowReplyIsStable(system: string, run: seq<string> -> Launch)
    requires run(PingCommand(system, TargetHost)) == Completed(0, "Average = 120ms")
    ensures ScriptTier(system, run, DefaultMaxStrDigits) == Stable
  {
    assert "Average = 120ms" == "" + "Average" + " " + "=" + " " + "120" + "ms" + "";
    FirstTokenIsParsed("", "Average", " ", " ", "120", "ms", "");
    assert DecimalValue("120") == 120 by {
      assert "120"[..2] == "12";
      assert "12"[..1] == "1";
    }
  }
}
