/** The timers of the two handshake loops (`latency/src/test_runner.rs`), in milliseconds. Both loops
    poll one `select!`: each turn of a loop enters it anew, polls it at once, and makes its 10 s sleep anew;
    the client's 100 ms interval lives across turns. What a turn does to the runner is the turn of the
    runner's object. A run is the sequence of moments at which the runner is polled, with the relay's turns
    in between. */
module HandshakeTimers {
  import opened Prelude
  import opened Relay
  import opened Handshake
  import opened RunnerTurns

  const HANDSHAKE_TIMEOUT := 10000
  const HANDSHAKE_INTERVAL := 100

  /** `polled` is the last poll, `start` when the sleep was made, `deadline` the interval's next tick;
      `atOnce` says that a turn has ended and the next is polled at the same moment. */
  datatype Clock = Clock(polled: nat, start: nat, deadline: nat, atOnce: bool)

  function ClockFrom(t: nat): Clock {
    Clock(t, t, t, true)
  }

  /** The branches of the two loops. */
  predicate OfSelect(e: Event) {
    e.Timer? || e.Expiry? || e.Ctrl? || e.Incoming?
  }

  /** The runner may be polled at `at`: no later than `gap` after the poll before. */
  predicate CanPoll(c: Clock, gap: nat, at: nat) {
    c.polled <= at <= c.polled + (if c.atOnce then 0 else gap)
  }

  predicate SleepIsOver(c: Clock, at: nat) {
    at >= c.start + HANDSHAKE_TIMEOUT
  }

  /** No branch is ready, as far as the clock and the relay's channel can tell. */
  predicate Idle(side: Side, n: Node, c: Clock, at: nat) {
    && !SleepIsOver(c, at)
    && (side == Client ==> at < c.deadline)
    && (side == Server && n.ctx.Some? ==> n.ctx.value.inbox == [])
  }

  predicate Due(c: Clock, e: Event, at: nat) {
    match e
    case Timer => at >= c.deadline
    case Expiry => SleepIsOver(c, at)
    case _ => true
  }

  /** A poll that finds nothing, or takes one of the ready branches. With `anew` the sleep is made again for
      the next turn, as the source does; without, one sleep made before the loop serves all turns. */
  function AfterIdle(c: Clock, at: nat): Clock {
    c.(polled := at, atOnce := false)
  }

  function AfterBranch(c: Clock, e: Event, at: nat, anew: bool): Clock {
    Clock(at, if anew then at else c.start, if e.Timer? then c.deadline + HANDSHAKE_INTERVAL else c.deadline, true)
  }

  // ----- One loop, whatever surrounds it -----

  /** A poll of the runner, with the branch it takes if any, or a turn of its relay. */
  datatype Tick = Nothing(at: nat) | Branch(at: nat, e: Event, env: Env) | RelayTurn(w: Wakeup, env: Env)

  datatype Looping = Looping(node: Node, clock: Clock)

  /** `None` when the loop is over, or the tick is not possible. */
  function Poll(side: Side, anew: bool, gap: nat, l: Looping, t: Tick): Option<Looping> {
    if l.node.phase != InLoop then None
    else
      match t
      case Nothing(at) =>
        if !CanPoll(l.clock, gap, at) || !Idle(side, l.node, l.clock, at) then None
        else Some(l.(clock := AfterIdle(l.clock, at)))
      case Branch(at, e, env) =>
        if !CanPoll(l.clock, gap, at) || !OfSelect(e) || !Due(l.clock, e, at) || !Polls(side, l.node, e, env) then None
        else Some(Looping(Turn(side, l.node, e, env).node, AfterBranch(l.clock, e, at, anew)))
      case RelayTurn(w, env) =>
        Some(l.(node := Turn(side, l.node, RelayRuns(w), env).node))
  }

  function RunLoop(side: Side, anew: bool, gap: nat, l: Looping, ts: seq<Tick>): Option<Looping> {
    if ts == [] then Some(l)
    else
      var r := RunLoop(side, anew, gap, l, ts[..|ts| - 1]);
      if r.None? then None else Poll(side, anew, gap, r.value, ts[|ts| - 1])
  }

  lemma RunLoopExtends(side: Side, anew: bool, gap: nat, l: Looping, ts: seq<Tick>, m: Looping, t: Tick)
    requires RunLoop(side, anew, gap, l, ts) == Some(m)
    ensures RunLoop(side, anew, gap, l, ts + [t]) == Poll(side, anew, gap, m, t)
  {
    assert (ts + [t])[..|ts|] == ts;
  }

  /** The relay leaves the loop alone. */
  lemma RelayTurnKeepsLoop(side: Side, n: Node, w: Wakeup, env: Env)
    ensures var m := Turn(side, n, RelayRuns(w), env).node;
            && m.phase == n.phase && m.id == n.id && m.testCfg == n.testCfg && m.ctx.Some? == n.ctx.Some?
            && (m.ctx.Some? ==> m.ctx.value.given == n.ctx.value.given && m.ctx.value.returned == n.ctx.value.returned)
  {
  }

  // ----- The server's loop -----

  /** The server's loop is still in its first turn, whose sleep is not over; or it has ended, at its timeout
      not before the sleep was over. */
  predicate FirstTurn(n: Node, t: nat, gap: nat, l: Looping)
    requires n.ctx.Some?
  {
    && l.node.ctx.Some? && l.node.testCfg == n.testCfg
    && (l.node.phase == InLoop ==>
          && l.clock.start == t && l.clock.polled < t + 10000
          && l.node.ctx.value.returned == n.ctx.value.returned)
    && l.clock.polled < t + 10000 + gap
    && (l.node.phase == Failed(Timeout) ==> l.clock.polled >= t + 10000)
  }

  lemma ServerPollKeeps(n: Node, t: nat, anew: bool, gap: nat, l: Looping, k: Tick)
    requires n.ctx.Some? && n.testCfg.Some? && FirstTurn(n, t, gap, l)
    requires Poll(Server, anew, gap, l, k).Some?
    ensures FirstTurn(n, t, gap, Poll(Server, anew, gap, l, k).value)
  {
    match k
    case Nothing(_) =>
    case Branch(_, e, env) => ServerTurnTakesOne(l.node, e, env);
    case RelayTurn(w, env) => RelayTurnKeepsLoop(Server, l.node, w, env);
  }

  /** Although every turn would make its sleep anew, the server's loop has only one, as each
      message ends it: so as long as it goes on less than 10 s have passed since it began, and it ends within
      10 s and one gap, by its timeout not before 10 s. */
  lemma {:induction false} ServerEndsInTime(n: Node, t: nat, gap: nat, ts: seq<Tick>)
    requires n.phase == InLoop && n.ctx.Some? && n.testCfg.Some?
    requires RunLoop(Server, true, gap, Looping(n, ClockFrom(t)), ts).Some?
    ensures FirstTurn(n, t, gap, RunLoop(Server, true, gap, Looping(n, ClockFrom(t)), ts).value)
  {
    if ts != [] {
      var init := ts[..|ts| - 1];
      ServerEndsInTime(n, t, gap, init);
      ServerPollKeeps(n, t, true, gap, RunLoop(Server, true, gap, Looping(n, ClockFrom(t)), init).value, ts[|ts| - 1]);
    }
  }

  // ----- The client's loop -----

  /** The client in its loop, whose relay has not ended. */
  predicate ClientLoops(n: Node) {
    n.phase == InLoop && n.id.Some? && n.ctx.Some? && !n.ctx.value.task.Dead?
  }

  /** The tick is never due later than an interval after the sleep was made, and polls without effect
      only happen before it. */
  predicate TickComesFirst(c: Clock) {
    && c.start <= c.polled && c.deadline <= c.start + HANDSHAKE_INTERVAL
    && if c.atOnce then c.polled == c.start else c.polled < c.deadline
  }

  lemma IdleKeepsTick(side: Side, n: Node, c: Clock, at: nat)
    requires TickComesFirst(c) && at >= c.polled && side == Client && Idle(side, n, c, at)
    ensures TickComesFirst(AfterIdle(c, at))
  {
  }

  lemma BranchKeepsTick(c: Clock, gap: nat, e: Event, at: nat)
    requires TickComesFirst(c) && CanPoll(c, gap, at) && Due(c, e, at)
    ensures TickComesFirst(AfterBranch(c, e, at, true))
    ensures gap <= HANDSHAKE_TIMEOUT - HANDSHAKE_INTERVAL ==> !e.Expiry?
  {
  }

  lemma ClientBranch(n: Node, e: Event, env: Env)
    requires n.phase == InLoop && OfSelect(e) && Polls(Client, n, e, env) && !e.Expiry?
    ensures Turn(Client, n, e, env).node.phase != Failed(Timeout)
  {
  }

  lemma {:induction false} ClientRunKeeps(n: Node, t: nat, gap: nat, ts: seq<Tick>)
    requires n.phase == InLoop && RunLoop(Client, true, gap, Looping(n, ClockFrom(t)), ts).Some?
    ensures var l := RunLoop(Client, true, gap, Looping(n, ClockFrom(t)), ts).value;
            && TickComesFirst(l.clock)
            && (gap <= HANDSHAKE_TIMEOUT - HANDSHAKE_INTERVAL ==> l.node.phase != Failed(Timeout))
  {
    if ts != [] {
      ClientRunKeeps(n, t, gap, ts[..|ts| - 1]);
      var l := RunLoop(Client, true, gap, Looping(n, ClockFrom(t)), ts[..|ts| - 1]).value;
      match ts[|ts| - 1]
      case Nothing(at) => IdleKeepsTick(Client, l.node, l.clock, at);
      case Branch(at, e, env) =>
        BranchKeepsTick(l.clock, gap, e, at);
        if gap <= HANDSHAKE_TIMEOUT - HANDSHAKE_INTERVAL {
          ClientBranch(l.node, e, env);
        }
      case RelayTurn(w, env) => RelayTurnKeepsLoop(Client, l.node, w, env);
    }
  }

  /** How often the interval has ticked in a run. */
  function Ticks(ts: seq<Tick>): nat {
    if ts == [] then 0
    else
      var k := ts[|ts| - 1];
      Ticks(ts[..|ts| - 1]) + (if k.Branch? && k.e.Timer? then 1 else 0)
  }

  /** The interval keeps its schedule however late it is polled: tick `k` is due `100 * k` ms after the first,
      so what a stall has delayed comes in a burst, and each tick gives one handshake to a living relay. */
  lemma {:induction false} TicksKeepSchedule(n: Node, t: nat, anew: bool, gap: nat, ts: seq<Tick>)
    requires n.phase == InLoop && n.ctx.Some?
    requires RunLoop(Client, anew, gap, Looping(n, ClockFrom(t)), ts).Some?
    ensures var l := RunLoop(Client, anew, gap, Looping(n, ClockFrom(t)), ts).value;
            && l.clock.deadline == t + 100 * Ticks(ts) && l.node.ctx.Some?
            && (l.node.phase == InLoop ==> |l.node.ctx.value.given| == |n.ctx.value.given| + Ticks(ts))
  {
    if ts != [] {
      TicksKeepSchedule(n, t, anew, gap, ts[..|ts| - 1]);
      var l := RunLoop(Client, anew, gap, Looping(n, ClockFrom(t)), ts[..|ts| - 1]).value;
      match ts[|ts| - 1]
      case Nothing(_) =>
      case Branch(_, e, env) => ClientBranchGivesOne(l.node, e, env);
      case RelayTurn(w, env) => RelayTurnKeepsLoop(Client, l.node, w, env);
    }
  }

  lemma ClientBranchGivesOne(n: Node, e: Event, env: Env)
    requires n.phase == InLoop && n.ctx.Some? && OfSelect(e) && Polls(Client, n, e, env)
    ensures var m := Turn(Client, n, e, env).node;
            && m.ctx.Some?
            && (m.phase == InLoop ==>
                  |m.ctx.value.given| == |n.ctx.value.given| + (if e.Timer? then 1 else 0))
  {
  }

  /** `l` after `k` handshakes, given to a relay that does not run. */
  predicate GaveHandshakes(n: Node, t: nat, k: nat, anew: bool, l: Looping)
    requires n.ctx.Some?
  {
    && ClientLoops(l.node)
    && |l.node.ctx.value.given| == |n.ctx.value.given| + k
    && l.clock.deadline == t + HANDSHAKE_INTERVAL * k
    && (if k == 0 then l.clock == ClockFrom(t)
        else l.clock.polled == l.clock.deadline - HANDSHAKE_INTERVAL && l.clock.atOnce)
    && l.clock.start == if anew then l.clock.polled else t
  }

  lemma TickGives(n: Node, env: Env)
    requires ClientLoops(n)
    ensures Polls(Client, n, Timer, env)
    ensures var m := Turn(Client, n, Timer, env).node;
            ClientLoops(m) && |m.ctx.value.given| == |n.ctx.value.given| + 1
  {
  }

  /** After a tick the next turn is polled at once, and finds nothing. */
  lemma NothingAtOnce(n: Node, t: nat, k: nat, anew: bool, l: Looping)
    requires n.ctx.Some? && GaveHandshakes(n, t, k, anew, l) && 0 < k && (anew || k <= 100)
    ensures Poll(Client, anew, HANDSHAKE_INTERVAL, l, Nothing(l.clock.polled))
         == Some(l.(clock := l.clock.(atOnce := false)))
  {
  }

  lemma OneMoreHandshake(n: Node, t: nat, k: nat, anew: bool, l: Looping, env: Env)
    requires n.ctx.Some? && (anew || k <= 100)
    requires GaveHandshakes(n, t, k, anew, l.(clock := l.clock.(atOnce := true))) && (k == 0 || !l.clock.atOnce)
    ensures var r := Poll(Client, anew, HANDSHAKE_INTERVAL, l, Branch(l.clock.deadline, Timer, env));
            r.Some? && GaveHandshakes(n, t, k + 1, anew, r.value)
  {
    TickGives(l.node, env);
  }

  /** A handshake every 100 ms, the runner being polled at each tick and at once again; if one sleep has to
      serve them all, 101 of them. */
  lemma {:induction false} Handshakes(n: Node, t: nat, k: nat, anew: bool, env: Env)
    returns (ts: seq<Tick>, l: Looping)
    requires ClientLoops(n) && (anew || k <= 101)
    ensures RunLoop(Client, anew, HANDSHAKE_INTERVAL, Looping(n, ClockFrom(t)), ts) == Some(l)
    ensures GaveHandshakes(n, t, k, anew, l)
  {
    var l0 := Looping(n, ClockFrom(t));
    ts, l := [], l0;
    if k > 0 {
      ts, l := Handshakes(n, t, k - 1, anew, env);
      if k > 1 {
        var idle := Nothing(l.clock.polled);
        NothingAtOnce(n, t, k - 1, anew, l);
        RunLoopExtends(Client, anew, HANDSHAKE_INTERVAL, l0, ts, l, idle);
        ts, l := ts + [idle], l.(clock := l.clock.(atOnce := false));
      }
      var next := Branch(l.clock.deadline, Timer, env);
      OneMoreHandshake(n, t, k - 1, anew, l, env);
      RunLoopExtends(Client, anew, HANDSHAKE_INTERVAL, l0, ts, l, next);
      ts, l := ts + [next], Poll(Client, anew, HANDSHAKE_INTERVAL, l, next).value;
    }
  }

  /** Without an answer the promptly polled client sends any number of handshakes and stays in its
      loop. */
  lemma ClientNeverGivesUp(n: Node, t: nat, k: nat, env: Env) returns (ts: seq<Tick>)
    requires ClientLoops(n)
    ensures var r := RunLoop(Client, true, HANDSHAKE_INTERVAL, Looping(n, ClockFrom(t)), ts);
            && r.Some? && r.value.node.phase == InLoop && r.value.node.ctx.Some?
            && |r.value.node.ctx.value.given| == |n.ctx.value.given| + k
  {
    var l;
    ts, l := Handshakes(n, t, k, true, env);
  }

  /** A tick at once, a poll just before the next, and then a stall. */
  lemma StallTimesOut(n: Node, t: nat, gap: nat, env: Env) returns (ts: seq<Tick>)
    requires ClientLoops(n) && gap > HANDSHAKE_TIMEOUT - HANDSHAKE_INTERVAL
    ensures var r := RunLoop(Client, true, gap, Looping(n, ClockFrom(t)), ts);
            r.Some? && r.value.node.phase == Failed(Timeout)
  {
    var l0 := Looping(n, ClockFrom(t));
    var t1, t2, t3, t4 :=
      Branch(t, Timer, env), Nothing(t), Nothing(t + 99), Branch(t + HANDSHAKE_TIMEOUT, Expiry, env);
    TickGives(n, env);
    var m := Turn(Client, n, Timer, env).node;
    var l1, l2, l3 := Looping(m, Clock(t, t, t + 100, true)), Looping(m, Clock(t, t, t + 100, false)),
                      Looping(m, Clock(t + 99, t, t + 100, false));
    RunLoopExtends(Client, true, gap, l0, [], l0, t1);
    RunLoopExtends(Client, true, gap, l0, [] + [t1], l1, t2);
    RunLoopExtends(Client, true, gap, l0, [] + [t1] + [t2], l2, t3);
    RunLoopExtends(Client, true, gap, l0, [] + [t1] + [t2] + [t3], l3, t4);
    ts := [] + [t1] + [t2] + [t3] + [t4];
  }

  /** The client's timeout can be taken only if the runner is left unpolled for more than 9900 ms, and
      with any such gap it can: below that, however long the server stays silent and whatever else arrives,
      never. */
  lemma ClientTimeoutIff(n: Node, t: nat, gap: nat)
    requires ClientLoops(n)
    ensures (exists ts :: var r := RunLoop(Client, true, gap, Looping(n, ClockFrom(t)), ts);
                          r.Some? && r.value.node.phase == Failed(Timeout))
       <==> gap > 9900
  {
    if gap > HANDSHAKE_TIMEOUT - HANDSHAKE_INTERVAL {
      var ts := StallTimesOut(n, t, gap, Env(0, 0, false));
    } else {
      forall ts | RunLoop(Client, true, gap, Looping(n, ClockFrom(t)), ts).Some?
        ensures RunLoop(Client, true, gap, Looping(n, ClockFrom(t)), ts).value.node.phase != Failed(Timeout)
      {
        ClientRunKeeps(n, t, gap, ts);
      }
    }
  }

  // ----- What a single deadline would change -----

  /** With one sleep for the whole loop: how many handshakes have been given by when. */
  predicate BeforeDeadline(n: Node, t: nat, gap: nat, l: Looping)
    requires n.ctx.Some? && l.node.ctx.Some?
  {
    var k := |l.node.ctx.value.given| - |n.ctx.value.given|;
    && l.clock.start == t
    && l.clock.polled < t + HANDSHAKE_TIMEOUT + gap
    && (l.node.phase == InLoop && !l.clock.atOnce ==> l.clock.polled < t + HANDSHAKE_TIMEOUT)
    && 0 <= HANDSHAKE_INTERVAL * k <= l.clock.deadline - t
    && l.clock.deadline - t < HANDSHAKE_INTERVAL + HANDSHAKE_TIMEOUT + gap
  }

  lemma ClientBranchGives(n: Node, e: Event, env: Env)
    requires n.phase == InLoop && n.ctx.Some? && OfSelect(e) && Polls(Client, n, e, env)
    ensures var m := Turn(Client, n, e, env).node;
            && m.ctx.Some?
            && |n.ctx.value.given| <= |m.ctx.value.given| <= |n.ctx.value.given| + (if e.Timer? then 1 else 0)
  {
  }

  lemma {:induction false} SingleDeadlineKeeps(n: Node, t: nat, gap: nat, ts: seq<Tick>)
    requires n.phase == InLoop && n.ctx.Some?
    requires RunLoop(Client, false, gap, Looping(n, ClockFrom(t)), ts).Some?
    ensures var l := RunLoop(Client, false, gap, Looping(n, ClockFrom(t)), ts).value;
            l.node.ctx.Some? && BeforeDeadline(n, t, gap, l)
  {
    if ts != [] {
      SingleDeadlineKeeps(n, t, gap, ts[..|ts| - 1]);
      var l := RunLoop(Client, false, gap, Looping(n, ClockFrom(t)), ts[..|ts| - 1]).value;
      match ts[|ts| - 1]
      case Nothing(_) =>
      case Branch(_, e, env) => ClientBranchGives(l.node, e, env);
      case RelayTurn(w, env) => RelayTurnKeepsLoop(Client, l.node, w, env);
    }
  }

  /** The contrast: with one sleep made before the loop, a client that is polled every 100 ms gives at most 101
      handshakes, and can give any number up to that, whatever it is sent; and it ends within 10 s and one
      gap between polls. */
  lemma SingleDeadlineBounds(n: Node, t: nat, k: nat)
    requires ClientLoops(n)
    ensures (exists ts :: var r := RunLoop(Client, false, HANDSHAKE_INTERVAL, Looping(n, ClockFrom(t)), ts);
                          && r.Some? && r.value.node.ctx.Some?
                          && |r.value.node.ctx.value.given| == |n.ctx.value.given| + k)
       <==> k <= 101
  {
    if k <= 101 {
      var ts, l := Handshakes(n, t, k, false, Env(0, 0, false));
    } else {
      forall ts | RunLoop(Client, false, HANDSHAKE_INTERVAL, Looping(n, ClockFrom(t)), ts).Some?
        ensures var l := RunLoop(Client, false, HANDSHAKE_INTERVAL, Looping(n, ClockFrom(t)), ts).value;
                l.node.ctx.Some? && |l.node.ctx.value.given| <= |n.ctx.value.given| + 101
      {
        SingleDeadlineKeeps(n, t, HANDSHAKE_INTERVAL, ts);
      }
    }
  }

  lemma SingleDeadlineEnds(n: Node, t: nat, gap: nat, ts: seq<Tick>)
    requires n.phase == InLoop && n.ctx.Some?
    requires RunLoop(Client, false, gap, Looping(n, ClockFrom(t)), ts).Some?
    ensures RunLoop(Client, false, gap, Looping(n, ClockFrom(t)), ts).value.clock.polled < t + HANDSHAKE_TIMEOUT + gap
  {
    SingleDeadlineKeeps(n, t, gap, ts);
  }
}
