/** The logging task that every ping client spawns: it drains the bounded channel of
    results and feeds the round-trip and the packet inter-arrival (PIAT) statistics
    (`ping/src/udp.rs`, `ping/src/tcp.rs`, `ping/src/icmp.rs`). */
module LogTask {
  import opened Prelude
  import opened Statistics

  /** The part of a result the log task looks at; `recvTs` is in nanoseconds. */
  datatype Entry = Entry(rtt: real, recvTs: nat)

  const NANOS_PER_MILLI := 1000000

  /** `count` is the shared receive counter, `time` the previous arrival; `rtts` and
      `piats` are the samples given to the two statistics so far. */
  datatype LogState = LogState(count: nat, time: nat, rtts: seq<real>, piats: seq<real>)

  const START := LogState(0, 0, [], [])

  /** One turn of the loop; `None` is the unsigned subtraction going below zero. */
  function LogStep(l: LogState, e: Entry): Option<LogState> {
    if l.count == 0 then
      Some(LogState(1, e.recvTs, l.rtts + [e.rtt], l.piats))
    else if e.recvTs < l.time then
      None
    else
      var diff := (e.recvTs - l.time) / NANOS_PER_MILLI;
      Some(LogState(l.count + 1, e.recvTs, l.rtts + [e.rtt], l.piats + [diff as real]))
  }

  function Rtts(es: seq<Entry>): (r: seq<real>)
    ensures |r| == |es|
  {
    if es == [] then [] else Rtts(es[..|es| - 1]) + [es[|es| - 1].rtt]
  }

  /** No arrival precedes the one before it. */
  ghost predicate Arrived(es: seq<Entry>) {
    |es| >= 2 ==> Arrived(es[..|es| - 1]) && es[|es| - 2].recvTs <= es[|es| - 1].recvTs
  }

  lemma {:induction false} ArrivedIsSorted(es: seq<Entry>)
    ensures Arrived(es) <==> forall i, j :: 0 <= i < j < |es| ==> es[i].recvTs <= es[j].recvTs
  {
    if |es| >= 2 {
      var ds := es[..|es| - 1];
      ArrivedIsSorted(ds);
      if Arrived(es) {
        forall i, j | 0 <= i < j < |es| ensures es[i].recvTs <= es[j].recvTs {
          assert ds[i].recvTs <= ds[|ds| - 1].recvTs;
          assert j < |ds| ==> ds[i].recvTs <= ds[j].recvTs;
        }
      } else if Arrived(ds) {
        assert es[|es| - 2].recvTs > es[|es| - 1].recvTs;
      } else {
        var i, j :| 0 <= i < j < |ds| && ds[i].recvTs > ds[j].recvTs;
        assert es[i].recvTs > es[j].recvTs;
      }
    }
  }

  lemma {:induction false} PrefixArrived(es: seq<Entry>, i: nat)
    requires Arrived(es) && i <= |es|
    ensures Arrived(es[..i])
  {
    if i == |es| {
      assert es[..i] == es;
    } else if |es| >= 2 {
      PrefixArrived(es[..|es| - 1], i);
      assert es[..|es| - 1][..i] == es[..i];
    }
  }

  /** Gaps between neighbouring arrivals, each truncated to whole milliseconds. */
  function Gaps(es: seq<Entry>): (r: seq<real>)
    ensures |r| == if es == [] then 0 else |es| - 1
  {
    if |es| < 2 then []
    else
      var a, b := es[|es| - 2].recvTs, es[|es| - 1].recvTs;
      Gaps(es[..|es| - 1]) + [(if a <= b then (b - a) / NANOS_PER_MILLI else 0) as real]
  }

  /** What the log task's variables hold after logging `es`. */
  ghost predicate HasLogged(l: LogState, es: seq<Entry>) {
    && Arrived(es)
    && l.count == |es|
    && (es != [] ==> l.time == es[|es| - 1].recvTs)
    && l.rtts == Rtts(es)
    && l.piats == Gaps(es)
  }

  /** How one more result extends the two histories. */
  lemma Extend(es: seq<Entry>, i: nat)
    requires i < |es|
    ensures Rtts(es[..i + 1]) == Rtts(es[..i]) + [es[i].rtt]
    ensures i == 0 ==> Gaps(es[..i + 1]) == []
    ensures i > 0 && es[i - 1].recvTs <= es[i].recvTs ==>
              Gaps(es[..i + 1]) == Gaps(es[..i]) + [((es[i].recvTs - es[i - 1].recvTs) / NANOS_PER_MILLI) as real]
    ensures Arrived(es[..i + 1]) <==> Arrived(es[..i]) && (i > 0 ==> es[i - 1].recvTs <= es[i].recvTs)
  {
    var fs := es[..i + 1];
    assert fs[..i] == es[..i];
  }

  lemma LogStepLogs(l: LogState, es: seq<Entry>, e: Entry)
    requires HasLogged(l, es)
    ensures LogStep(l, e).Some? <==> Arrived(es + [e])
    ensures LogStep(l, e).Some? ==> HasLogged(LogStep(l, e).value, es + [e])
  {
    var fs := es + [e];
    assert fs[..|es| + 1] == fs && fs[..|es|] == es;
    Extend(fs, |es|);
  }

  /** The whole loop over a channel's contents. */
  function LogRun(es: seq<Entry>): Option<LogState> {
    if es == [] then Some(START)
    else
      match LogRun(es[..|es| - 1])
      case Some(l) => LogStep(l, es[|es| - 1])
      case None => None
  }

  /** The loop gets through exactly the results that arrive in order, and then its
      statistics have been given every round trip and every truncated gap. */
  lemma {:induction false} LogRunLogs(es: seq<Entry>)
    ensures LogRun(es).Some? <==> Arrived(es)
    ensures LogRun(es).Some? ==> HasLogged(LogRun(es).value, es)
  {
    if es != [] {
      var ds := es[..|es| - 1];
      LogRunLogs(ds);
      if Arrived(es) {
        PrefixArrived(es, |es| - 1);
      }
      if Arrived(ds) {
        LogStepLogs(LogRun(ds).value, ds, es[|es| - 1]);
        assert ds + [es[|es| - 1]] == es;
      }
    }
  }

  /** What the two statistics have been given, one by one: every round trip, and every gap in whole
      milliseconds. */
  lemma {:induction false} LoggedValues(l: LogState, es: seq<Entry>)
    requires HasLogged(l, es)
    ensures |l.rtts| == |es| && forall i :: 0 <= i < |es| ==> l.rtts[i] == es[i].rtt
    ensures |l.piats| == if es == [] then 0 else |es| - 1
    ensures forall i {:trigger l.piats[i]} :: 0 <= i < |l.piats| ==>
              l.piats[i] == ((es[i + 1].recvTs - es[i].recvTs) / 1000000) as real
  {
    RttsOneByOne(es);
    GapsOneByOne(es);
  }

  lemma {:induction false} RttsOneByOne(es: seq<Entry>)
    ensures forall i :: 0 <= i < |es| ==> Rtts(es)[i] == es[i].rtt
  {
    if es != [] {
      RttsOneByOne(es[..|es| - 1]);
    }
  }

  lemma {:induction false} GapsOneByOne(es: seq<Entry>)
    requires Arrived(es)
    ensures forall i {:trigger Gaps(es)[i]} :: 0 <= i < |Gaps(es)| ==>
              Gaps(es)[i] == ((es[i + 1].recvTs - es[i].recvTs) / 1000000) as real
  {
    if |es| >= 2 {
      GapsOneByOne(es[..|es| - 1]);
    }
  }

  lemma {:induction false} FailedStaysFailed(es: seq<Entry>, i: nat)
    requires i <= |es| && LogRun(es[..i]).None?
    ensures LogRun(es).None?
  {
    if i == |es| {
      assert es[..i] == es;
    } else {
      assert es[..|es| - 1][..i] == es[..i];
      FailedStaysFailed(es[..|es| - 1], i);
    }
  }

  /** The variables of the log task. */
  class LogLoop {
    var recvCount: nat
    var time: nat
    const stats: RunningStatistics
    const statPiat: RunningStatistics

    ghost predicate Valid()
      reads this, stats, statPiat
    {
      stats != statPiat && stats.Valid() && statPiat.Valid()
    }

    ghost function View(): LogState
      reads this, stats, statPiat
    {
      LogState(recvCount, time, stats.history, statPiat.history)
    }

    constructor ()
      ensures Valid() && View() == START && fresh(stats) && fresh(statPiat)
    {
      recvCount, time := 0, 0;
      stats := new RunningStatistics();
      statPiat := new RunningStatistics();
    }

    /** The body of the loop; `false` is the failed subtraction. */
    method Log(result: Entry) returns (ok: bool)
      requires Valid()
      modifies this, stats, statPiat
      ensures Valid()
      ensures ok <==> LogStep(old(View()), result).Some?
      ensures View() == if ok then LogStep(old(View()), result).value else old(View())
    {
      if recvCount == 0 {
        time := result.recvTs;
      } else {
        if result.recvTs < time {
          return false;
        }
        var diff := (result.recvTs - time) / NANOS_PER_MILLI;
        statPiat.Update(diff as real);
        time := result.recvTs;
      }
      stats.Update(result.rtt);
      recvCount := recvCount + 1;
      ok := true;
    }

    /** The loop, over the results taken from the channel in order; it ends early at a
        failed subtraction. */
    method Drain(entries: seq<Entry>) returns (ok: bool)
      requires Valid() && View() == START
      modifies this, stats, statPiat
      ensures Valid() && (ok <==> LogRun(entries).Some?)
      ensures ok ==> View() == LogRun(entries).value
    {
      for i := 0 to |entries|
        invariant Valid() && LogRun(entries[..i]) == Some(View())
      {
        assert entries[..i + 1][..i] == entries[..i];
        ok := Log(entries[i]);
        if !ok {
          FailedStaysFailed(entries, i + 1);
          return;
        }
      }
      assert entries[..|entries|] == entries;
      ok := true;
    }
  }

  // ----- What the inter-arrival statistic means -----

  /** Truncation loses less than one millisecond a gap. */
  lemma {:induction false} GapsTelescope(es: seq<Entry>)
    requires Arrived(es) && es != []
    ensures var span := (es[|es| - 1].recvTs - es[0].recvTs) as real;
            && Sum(Gaps(es)) * 1000000.0 <= span
            && (|es| >= 2 ==> span < (Sum(Gaps(es)) + |Gaps(es)| as real) * 1000000.0)
  {
    if |es| >= 2 {
      var ds := es[..|es| - 1];
      GapsTelescope(ds);
      var d := es[|es| - 1].recvTs - es[|es| - 2].recvTs;
      assert 0 <= d - d / NANOS_PER_MILLI * NANOS_PER_MILLI < NANOS_PER_MILLI;
      assert Gaps(es)[..|Gaps(es)| - 1] == Gaps(ds);
      assert Sum(Gaps(es)) == Sum(Gaps(ds)) + (d / NANOS_PER_MILLI) as real;
    }
  }

  /** After `k >= 2` results the mean inter-arrival time, times its `k - 1` samples, is within
      `k - 1` milliseconds below the time between the first and the last arrival. */
  lemma InterArrivalBound(s0: Stats, l: LogState, es: seq<Entry>)
    requires s0.samples == 0 && HasLogged(l, es) && |es| >= 2
    ensures After(s0, l.rtts).samples == |es| && After(s0, l.piats).samples == |es| - 1
    ensures var n := (|es| - 1) as real;
            var mean := After(s0, l.piats).mean;
            var span := (es[|es| - 1].recvTs - es[0].recvTs) as real / 1000000.0;
            Times(n, mean) <= span < Times(n, mean) + n
  {
    RefinesTwoPass(s0, l.rtts);
    RefinesTwoPass(s0, l.piats);
    GapsTelescope(es);
    SumIsMean(Gaps(es));
  }

  /** A log whose arrival stamps are all equal reports inter-arrival times of exactly zero. */
  lemma {:induction false} EqualStampsGiveZeroGaps(es: seq<Entry>)
    requires forall i, j :: 0 <= i < j < |es| ==> es[i].recvTs == es[j].recvTs
    ensures forall g :: g in Gaps(es) ==> g == 0.0
  {
    if |es| >= 2 {
      EqualStampsGiveZeroGaps(es[..|es| - 1]);
      assert es[|es| - 2].recvTs == es[|es| - 1].recvTs;
    }
  }
}
