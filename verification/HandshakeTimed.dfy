/** The whole handshake with the clocks of both loops: what the timers make of a stuck handshake. The two
    sides have clocks of their own. */
module HandshakeTimed {
  import opened Prelude
  import opened Relay
  import opened Handshake
  import opened HandshakeInvariant
  import opened HandshakePhases
  import opened HandshakeRuns
  import opened HandshakeLiveness
  import opened RunnerTurns
  import opened HandshakeTimers

  datatype World = World(s: State, client: Clock, server: Clock) {
    function ClockOf(side: Side): Clock {
      if side == Client then client else server
    }

    function SetClock(side: Side, c: Clock): World {
      if side == Client then this.(client := c) else this.(server := c)
    }
  }

  /** A runner in its loop is polled, and takes a branch or none; anything else that happens, at `at` on the
      clock of the side that it may bring into its loop. */
  datatype Event = Wake(side: Side, at: nat, e: Option<RunnerTurns.Event>, k: nat) | Rest(m: Move, at: nat)

  /** The move is one that the clocks do not govern. */
  predicate Untimed(s: State, m: Move) {
    m.Side? && OfSelect(m.e) ==> s.Get(m.side).phase != InLoop
  }

  /** A side that has come into its loop makes its timers. */
  function Entered(before: State, after: State, side: Side, at: nat, c: Clock): Clock {
    if before.Get(side).phase != InLoop && after.Get(side).phase == InLoop then ClockFrom(at) else c
  }

  function Happen(p: Params, gap: nat, w: World, e: Event): Option<World> {
    match e
    case Wake(side, at, None, _) =>
      var n, c := w.s.Get(side), w.ClockOf(side);
      if n.phase != InLoop || !CanPoll(c, gap, at) || !Idle(side, n, c, at) then None
      else if side == Client && w.s.s2c != [] then None
      else Some(w.SetClock(side, AfterIdle(c, at)))
    case Wake(side, at, Some(b), k) =>
      var c := w.ClockOf(side);
      var r := Advance(p, w.s, Side(side, b, k));
      if w.s.Get(side).phase != InLoop || !OfSelect(b) || !CanPoll(c, gap, at) || !Due(c, b, at) || r.None? then None
      else Some(w.SetClock(side, AfterBranch(c, b, at, true)).(s := r.value))
    case Rest(m, at) =>
      var r := Advance(p, w.s, m);
      if r.None? || !Untimed(w.s, m) then None
      else
        var t := r.value;
        Some(World(t, Entered(w.s, t, Client, at, w.client), Entered(w.s, t, Server, at, w.server)))
  }

  function RunWorld(p: Params, gap: nat, w: World, es: seq<Event>): Option<World> {
    if es == [] then Some(w)
    else
      var r := RunWorld(p, gap, w, es[..|es| - 1]);
      if r.None? then None else Happen(p, gap, r.value, es[|es| - 1])
  }

  function Start(p: Params): World {
    World(Init(p), ClockFrom(0), ClockFrom(0))
  }

  // ----- What the clocks keep -----

  predicate WorldInv(p: Params, w: World)
    requires p.Valid()
  {
    && Inv(p, w.s)
    && (w.s.client.phase == InLoop ==> TickComesFirst(w.client))
    && (w.s.server.phase == InLoop ==> w.server.polled < w.server.start + HANDSHAKE_TIMEOUT)
  }

  lemma MoveKeepsInv(p: Params, s: State, m: Move)
    requires p.Valid() && Inv(p, s) && Advance(p, s, m).Some?
    ensures Inv(p, Advance(p, s, m).value)
  {
    MoveIsAStep(p, s, m);
    DoKeeps(p, s, StepOf(s, m));
  }

  /** A branch of the server's loop ends it. */
  lemma ServerBranchEnds(p: Params, s: State, e: RunnerTurns.Event, k: nat)
    requires p.Valid() && Inv(p, s) && s.server.phase == InLoop && OfSelect(e) && Joint(p, s, Server, e, k).Some?
    ensures Joint(p, s, Server, e, k).value.server.phase != InLoop
    ensures Joint(p, s, Server, e, k).value.client == s.client
  {
    ServerTurnTakesOne(s.server, e, StreamsOf(s).EnvFor(p, Server));
  }

  lemma ClientBranchKeepsServer(p: Params, s: State, e: RunnerTurns.Event, k: nat)
    requires Joint(p, s, Client, e, k).Some?
    ensures Joint(p, s, Client, e, k).value.server == s.server
  {
  }

  lemma WakeKeepsInv(p: Params, gap: nat, w: World, e: Event)
    requires p.Valid() && WorldInv(p, w) && e.Wake? && Happen(p, gap, w, e).Some?
    ensures WorldInv(p, Happen(p, gap, w, e).value)
  {
    match e.e
    case None =>
      if e.side == Client {
        IdleKeepsTick(Client, w.s.client, w.client, e.at);
      }
    case Some(b) =>
      MoveKeepsInv(p, w.s, Side(e.side, b, e.k));
      if e.side == Client {
        BranchKeepsTick(w.client, gap, b, e.at);
        ClientBranchKeepsServer(p, w.s, b, e.k);
      } else {
        ServerBranchEnds(p, w.s, b, e.k);
      }
  }

  lemma RestKeepsInv(p: Params, gap: nat, w: World, e: Event)
    requires p.Valid() && WorldInv(p, w) && e.Rest? && Happen(p, gap, w, e).Some?
    ensures WorldInv(p, Happen(p, gap, w, e).value)
  {
    MoveKeepsInv(p, w.s, e.m);
  }

  lemma {:induction false} RunWorldKeeps(p: Params, gap: nat, w: World, es: seq<Event>)
    requires p.Valid() && WorldInv(p, w) && RunWorld(p, gap, w, es).Some?
    ensures WorldInv(p, RunWorld(p, gap, w, es).value)
  {
    if es != [] {
      RunWorldKeeps(p, gap, w, es[..|es| - 1]);
      var v := RunWorld(p, gap, w, es[..|es| - 1]).value;
      match es[|es| - 1]
      case Wake(_, _, _, _) => WakeKeepsInv(p, gap, v, es[|es| - 1]);
      case Rest(_, _) => RestKeepsInv(p, gap, v, es[|es| - 1]);
    }
  }

  // ----- A stuck handshake -----

  /** Nothing but its own timeout takes the client out of its loop. */
  lemma OnlyTimeoutEndsIt(p: Params, s: State, a: Action)
    requires p.Valid() && Inv(p, s) && Silent(s) && s.client.phase == InLoop
    requires Do(p, s, a).Some? && a != TimedOut(Client)
    ensures Do(p, s, a).value.client.phase == InLoop
  {
    StepMoves(p, s, a, Client);
    if a.ClientTick? {
      GiveKeepsLink(s.client.ctx.value, Encoded(Message.Handshake(p.id)), WireOf(p, s, Client));
    }
  }

  lemma ServerStaysOrEnds(p: Params, s: State, a: Action)
    requires p.Valid() && Inv(p, s) && Silent(s) && Do(p, s, a).Some?
    ensures s.server.phase == InLoop && Do(p, s, a).value.server.phase != InLoop ==> a == TimedOut(Server)
    ensures s.server.phase.Failed? ==> Do(p, s, a).value.server.phase == s.server.phase
  {
    StepMoves(p, s, a, Server);
  }

  lemma MoveStaysStuck(p: Params, s: State, m: Move)
    requires p.Valid() && Inv(p, s) && Silent(s) && s.client.phase == InLoop
    requires Advance(p, s, m).Some? && StepOf(s, m) != TimedOut(Client)
    ensures var t := Advance(p, s, m).value; Silent(t) && t.client.phase == InLoop
    ensures s.server.phase.Failed? ==> Advance(p, s, m).value.server.phase == s.server.phase
  {
    MoveIsAStep(p, s, m);
    SilenceLasts(p, s, StepOf(s, m));
    OnlyTimeoutEndsIt(p, s, StepOf(s, m));
    ServerStaysOrEnds(p, s, StepOf(s, m));
  }

  /** The client waits in its loop. The server, if it has been in its loop since `start`, still is, or has
      given up when its 10 s were over. */
  predicate Waiting(w: World, start: Option<nat>) {
    && Silent(w.s) && w.s.client.phase == InLoop
    && (start.Some? ==>
          if w.s.server.phase == InLoop then w.server.start == start.value
          else w.s.server.phase.Failed? && w.server.polled >= start.value + HANDSHAKE_TIMEOUT)
  }

  lemma ClientWakeKeepsWaiting(p: Params, gap: nat, w: World, e: Event, start: Option<nat>)
    requires p.Valid() && WorldInv(p, w) && Waiting(w, start) && e.Wake? && e.side == Client
    requires gap <= HANDSHAKE_TIMEOUT - HANDSHAKE_INTERVAL && Happen(p, gap, w, e).Some?
    ensures Waiting(Happen(p, gap, w, e).value, start)
  {
    if e.e.Some? {
      BranchKeepsTick(w.client, gap, e.e.value, e.at);
      ClientBranchKeepsServer(p, w.s, e.e.value, e.k);
      MoveStaysStuck(p, w.s, Side(Client, e.e.value, e.k));
    }
  }

  lemma ServerWakeKeepsWaiting(p: Params, gap: nat, w: World, e: Event, start: Option<nat>)
    requires p.Valid() && WorldInv(p, w) && Waiting(w, start) && e.Wake? && e.side == Server
    requires Happen(p, gap, w, e).Some?
    ensures Waiting(Happen(p, gap, w, e).value, start)
  {
    if e.e.Some? {
      ServerBranchEnds(p, w.s, e.e.value, e.k);
      MoveStaysStuck(p, w.s, Side(Server, e.e.value, e.k));
    }
  }

  /** What the clocks do not govern leaves a server that is in its loop, or has failed, as it is. */
  lemma RestLeavesServer(p: Params, gap: nat, w: World, e: Event)
    requires p.Valid() && Inv(p, w.s) && Silent(w.s) && e.Rest? && Happen(p, gap, w, e).Some?
    requires w.s.server.phase == InLoop || w.s.server.phase.Failed?
    ensures var t := Happen(p, gap, w, e).value; t.s.server.phase == w.s.server.phase && t.server == w.server
  {
    MoveIsAStep(p, w.s, e.m);
    ServerStaysOrEnds(p, w.s, StepOf(w.s, e.m));
  }

  lemma UntimedIsNoTimeout(s: State, m: Move)
    requires Untimed(s, m) && (m.Outside? ==> OfEnvironment(m.a)) && s.client.phase == InLoop
    ensures StepOf(s, m) != TimedOut(Client)
  {
  }

  lemma RestKeepsSilence(p: Params, gap: nat, w: World, e: Event)
    requires p.Valid() && Inv(p, w.s) && Silent(w.s) && w.s.client.phase == InLoop
    requires e.Rest? && Happen(p, gap, w, e).Some?
    ensures var t := Happen(p, gap, w, e).value.s; Silent(t) && t.client.phase == InLoop
  {
    UntimedIsNoTimeout(w.s, e.m);
    MoveStaysStuck(p, w.s, e.m);
  }

  lemma RestKeepsWaiting(p: Params, gap: nat, w: World, e: Event, start: Option<nat>)
    requires p.Valid() && WorldInv(p, w) && Waiting(w, start) && e.Rest? && Happen(p, gap, w, e).Some?
    ensures Waiting(Happen(p, gap, w, e).value, start)
  {
    RestKeepsSilence(p, gap, w, e);
    if start.Some? {
      RestLeavesServer(p, gap, w, e);
    }
  }

  lemma {:induction false} RunKeepsWaiting(p: Params, gap: nat, w: World, es: seq<Event>, start: Option<nat>)
    requires p.Valid() && WorldInv(p, w) && Waiting(w, start)
    requires gap <= HANDSHAKE_TIMEOUT - HANDSHAKE_INTERVAL && RunWorld(p, gap, w, es).Some?
    ensures WorldInv(p, RunWorld(p, gap, w, es).value) && Waiting(RunWorld(p, gap, w, es).value, start)
  {
    if es != [] {
      var e := es[|es| - 1];
      RunKeepsWaiting(p, gap, w, es[..|es| - 1], start);
      var v := RunWorld(p, gap, w, es[..|es| - 1]).value;
      if e.Rest? {
        RestKeepsInv(p, gap, v, e);
        RestKeepsWaiting(p, gap, v, e, start);
      } else {
        WakeKeepsInv(p, gap, v, e);
        if e.side == Client {
          ClientWakeKeepsWaiting(p, gap, v, e, start);
        } else {
          ServerWakeKeepsWaiting(p, gap, v, e, start);
        }
      }
    }
  }

  /** What the timers make of a stuck handshake, in every continuation in which the client's runner is polled
      at least every 9900 ms: the client stays in its handshake loop for ever, and the server, once in its
      loop, has given up exactly when it has been polled 10 s or more after it entered. */
  lemma StuckForGood(p: Params, gap: nat, before: seq<Event>, w: World, after: seq<Event>, t: World)
    requires p.Valid() && gap <= 9900
    requires RunWorld(p, gap, Start(p), before) == Some(w) && Stuck(w.s)
    requires RunWorld(p, gap, w, after) == Some(t)
    ensures t.s.client.phase == InLoop && t.s.server.phase != Ready
    ensures w.s.server.phase == InLoop ==>
              && (t.s.server.phase == InLoop || t.s.server.phase == Failed(Timeout))
              && (t.s.server.phase == Failed(Timeout) <==> t.server.polled >= w.server.start + 10000)
  {
    RunWorldKeeps(p, gap, Start(p), before);
    RunKeepsWaiting(p, gap, w, after, if w.s.server.phase == InLoop then Some(w.server.start) else None);
  }

  // ----- Such runs exist -----

  lemma RunWorldExtends(p: Params, gap: nat, w: World, es: seq<Event>, v: World, e: Event)
    requires RunWorld(p, gap, w, es) == Some(v)
    ensures RunWorld(p, gap, w, es + [e]) == Happen(p, gap, v, e)
  {
    assert (es + [e])[..|es|] == es;
  }

  /** Idle polls of the server, until its 10 s are over. */
  lemma {:induction false} ServerIdles(p: Params, gap: nat, w: World) returns (es: seq<Event>, v: World)
    requires p.Valid() && WorldInv(p, w) && gap > 0
    requires w.s.server.phase == InLoop && w.s.server.ctx.Some? && w.s.server.ctx.value.inbox == []
    ensures RunWorld(p, gap, w, es) == Some(v) && v.s == w.s && v.client == w.client
    ensures v.server.start == w.server.start && !v.server.atOnce
    ensures v.server.polled == w.server.start + HANDSHAKE_TIMEOUT - 1
    decreases w.server.start + HANDSHAKE_TIMEOUT - w.server.polled, w.server.atOnce
  {
    es, v := [], w;
    var at := w.server.polled + (if w.server.atOnce then 0 else 1);
    if w.server.atOnce || at < w.server.start + HANDSHAKE_TIMEOUT {
      var idle := Wake(Server, at, None, 0);
      var u := w.(server := AfterIdle(w.server, at));
      assert Happen(p, gap, w, idle) == Some(u);
      var rest;
      rest, v := ServerIdles(p, gap, u);
      IdleFirst(p, gap, w, idle, u, rest);
      es := [idle] + rest;
    }
  }

  lemma {:induction false} IdleFirst(p: Params, gap: nat, w: World, e: Event, u: World, es: seq<Event>)
    requires Happen(p, gap, w, e) == Some(u)
    ensures RunWorld(p, gap, w, [e] + es) == RunWorld(p, gap, u, es)
  {
    var all := [e] + es;
    if es == [] {
      assert all[..0] == [];
    } else {
      IdleFirst(p, gap, w, e, u, es[..|es| - 1]);
      assert all[..|all| - 1] == [e] + es[..|es| - 1];
    }
  }

  /** And the server can indeed give up, from every stuck world in which it is in its loop, however often it
      is polled. */
  lemma ServerGivesUp(p: Params, gap: nat, w: World) returns (es: seq<Event>, t: World)
    requires p.Valid() && WorldInv(p, w) && gap > 0 && Stuck(w.s) && w.s.server.phase == InLoop
    ensures RunWorld(p, gap, w, es) == Some(t)
    ensures t.s.client.phase == InLoop && t.s.server.phase == Failed(Timeout)
  {
    var idles, v := ServerIdles(p, gap, w);
    var last := Wake(Server, v.server.polled + 1, Some(Expiry), 0);
    RunWorldExtends(p, gap, w, idles, v, last);
    es, t := idles + [last], Happen(p, gap, v, last).value;
  }

  /** Both sides get into their loops at once. */
  lemma OpenedInTime(p: Params, gap: nat) returns (es: seq<Event>)
    requires p.Valid()
    ensures RunWorld(p, gap, Start(p), es) == Some(World(BothLooping(p), ClockFrom(0), ClockFrom(0)))
  {
    var bound := Answered(p).(server := BoundServer(p));
    Greets(p);
    es := SetUpInTime(p, gap, [], Init(p), ClientHello, Greeted(p));
    Answers(p);
    es := SetUpInTime(p, gap, es, Greeted(p), ServerHello(1), Answered(p));
    BindsAndConnects(p);
    es := SetUpInTime(p, gap, es, Answered(p), ServerBind, bound);
    es := SetUpInTime(p, gap, es, bound, ClientReply(1), BothLooping(p));
  }

  /** A step of `setup`, at moment 0. */
  lemma SetUpInTime(p: Params, gap: nat, es: seq<Event>, s: State, a: Action, t: State) returns (more: seq<Event>)
    requires RunWorld(p, gap, Start(p), es) == Some(World(s, ClockFrom(0), ClockFrom(0)))
    requires Do(p, s, a) == Some(t) && OfSetup(a)
    ensures RunWorld(p, gap, Start(p), more) == Some(World(t, ClockFrom(0), ClockFrom(0)))
  {
    var m := MoveOf(s, a);
    StepIsAMove(p, s, a);
    SetupIsUntimed(s, a);
    RestAtOnce(p, gap, s, m, t);
    RunWorldExtends(p, gap, Start(p), es, World(s, ClockFrom(0), ClockFrom(0)), Rest(m, 0));
    more := es + [Rest(m, 0)];
  }

  predicate OfSetup(a: Action) {
    a.ClientHello? || a.ClientReply? || a.ServerHello? || a.ServerBind?
  }

  lemma SetupIsUntimed(s: State, a: Action)
    requires OfSetup(a)
    ensures Untimed(s, MoveOf(s, a))
  {
  }

  lemma RestAtOnce(p: Params, gap: nat, s: State, m: Move, t: State)
    requires Advance(p, s, m) == Some(t) && Untimed(s, m)
    ensures Happen(p, gap, World(s, ClockFrom(0), ClockFrom(0)), Rest(m, 0))
         == Some(World(t, ClockFrom(0), ClockFrom(0)))
  {
  }

  /** After `k` ticks that the client's relay does not get to see. */
  predicate Unheard(p: Params, k: nat, w: World)
    requires p.Valid()
  {
    && w.s.client.phase == InLoop && w.s.client.id.Some? && w.s.client.ctx.Some?
    && w.s.server == BoundServer(p)
    && w.s.net == multiset{} && w.s.s2c == [] && w.server == ClockFrom(0)
    && w.client.deadline == HANDSHAKE_INTERVAL * k && w.client.atOnce && w.client.start == w.client.polled
    && (if k == 0 then w.client.polled == 0 else w.client.polled == w.client.deadline - HANDSHAKE_INTERVAL)
    && var l := w.s.client.ctx.value;
       && l.task == Selecting && l.cap == p.cap
       && |l.unread| == (if k <= p.cap then k else p.cap) && (l.lagged <==> k > p.cap)
  }

  lemma OneMoreUnheard(p: Params, k: nat, w: World)
    requires p.Valid() && Unheard(p, k, w.(client := w.client.(atOnce := true))) && (k == 0 || !w.client.atOnce)
    ensures var r := Happen(p, HANDSHAKE_INTERVAL, w, Wake(Client, w.client.deadline, Some(Timer), 0));
            r.Some? && Unheard(p, k + 1, r.value)
  {
    NothingPublished(StreamsOf(w.s), Client, None);
  }

  lemma {:induction false} UnheardTicks(p: Params, k: nat) returns (es: seq<Event>, w: World)
    requires p.Valid()
    ensures RunWorld(p, HANDSHAKE_INTERVAL, Start(p), es) == Some(w) && Unheard(p, k, w)
  {
    if k == 0 {
      es := OpenedInTime(p, HANDSHAKE_INTERVAL);
      w := World(BothLooping(p), ClockFrom(0), ClockFrom(0));
    } else {
      es, w := UnheardTicks(p, k - 1);
      if k > 1 {
        var idle := Wake(Client, w.client.polled, None, 0);
        RunWorldExtends(p, HANDSHAKE_INTERVAL, Start(p), es, w, idle);
        es, w := es + [idle], w.(client := AfterIdle(w.client, w.client.polled));
      }
      var next := Wake(Client, w.client.deadline, Some(Timer), 0);
      OneMoreUnheard(p, k - 1, w);
      RunWorldExtends(p, HANDSHAKE_INTERVAL, Start(p), es, w, next);
      es, w := es + [next], Happen(p, HANDSHAKE_INTERVAL, w, next).value;
    }
  }

  /** So polling the runners promptly does not help when a relay is not scheduled: there is a run, polled every
      100 ms, that ends with the server having given up and the client in its loop for ever. */
  lemma StuckThoughPrompt(p: Params)
    requires p.Valid()
    ensures exists es, after :: var r := RunWorld(p, HANDSHAKE_INTERVAL, Start(p), es);
                                && r.Some? && Stuck(r.value.s)
                                && var t := RunWorld(p, HANDSHAKE_INTERVAL, r.value, after);
                                   && t.Some? && t.value.s.client.phase == InLoop
                                   && t.value.s.server.phase == Failed(Timeout)
  {
    var es, w := UnheardTicks(p, p.cap + 1);
    RunWorldKeeps(p, HANDSHAKE_INTERVAL, Start(p), es);
    assert Stuck(w.s);
    var after, t := ServerGivesUp(p, HANDSHAKE_INTERVAL, w);
  }
}
