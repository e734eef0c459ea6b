/** One runner at a time: what each turn of a runner, or of its relay, does to the runner, what it writes
    to its control stream and what it sends. Two such runners between the control streams and the network
    make exactly the runs of the handshake model. */
module RunnerTurns {
  import opened Prelude
  import opened Relay
  import opened Handshake

  /** What wakes a runner: the parts of `setup` (`First` and `NoFirst` are its first `read`), the outcomes
      of the `select!` in the handshake loops and in `run`, and the relay task. `Start` is the
      beginning of `run`. */
  datatype Event =
    | Hello
    | First(m: Message)
    | NoFirst
    | Bind
    | Timer
    | Expiry
    | Ctrl(m: Message)
    | Incoming
    | Start
    | RelayRuns(w: Wakeup)

  /** The capacity of the broadcast channel, the address that the client's socket gets, and whether the
      other side is known to have closed the control streams. */
  datatype Env = Env(cap: nat, local: Addr, hungUp: bool)

  datatype Outcome = Outcome(node: Node, wrote: seq<Message>, sent: Option<Datagram>)

  /** The runner stands where the event can happen to it. */
  predicate Polls(side: Side, n: Node, e: Event, env: Env) {
    match e
    case Hello => side == Client && n.phase == Begin && n.id.Some? && n.testCfg.Some?
    case First(_) => n.phase == if side == Client then Exchanged else Begin
    case NoFirst => env.hungUp && n.phase == if side == Client then Exchanged else Begin
    case Bind => side == Server && n.phase == Exchanged && n.testCfg.Some?
    case Timer => n.ctx.Some? && (Running(n) || (n.phase == InLoop && side == Client && n.id.Some?))
    case Expiry => n.phase == InLoop
    case Ctrl(_) => Running(n) || (n.phase == InLoop && side == Client && n.id.Some?)
    case Incoming =>
      n.ctx.Some? && n.ctx.value.inbox != [] && (Running(n) || (n.phase == InLoop && side == Server))
    case Start => n.phase == Ready && !Running(n)
    case RelayRuns(w) => n.ctx.Some? && Woken(n.ctx.value, w).Some?
  }

  /** One turn; an event that the runner does not poll changes nothing. */
  function Turn(side: Side, n: Node, e: Event, env: Env): Outcome {
    if !Polls(side, n, e, env) then Outcome(n, [], None)
    else
      match e
      case Hello => Writes(ClientOnStart(n, env.hungUp))
      case First(m) =>
        if side == Client then Quietly(ClientOnReply(n, m, env.cap, env.local))
        else Writes(ServerOnTest(n, m, env.hungUp))
      case NoFirst => Quietly(Fail(n, StreamClosed))
      case Bind => Quietly(ServerOnBind(n, env.cap))
      case Timer =>
        Quietly(if n.phase == InLoop then ClientOnTick(n) else SendOrFail(n, Data(n.testCfg.value.len.value)))
      case Expiry => Quietly(Fail(n, Timeout))
      case Ctrl(m) => Quietly(if n.phase == InLoop then ClientOnCtrl(n, m) else OnRunCtrl(side, n, m))
      case Incoming =>
        if n.phase == InLoop then Writes(ServerOnDatagram(n, env.hungUp))
        else Quietly(n.(ctx := Some(CtxRecv(n.ctx.value).0)))
      case Start => Quietly(Fail(n, ConfigPanic))
      case RelayRuns(w) =>
        var (l, d) := Woken(n.ctx.value, w).value;
        Outcome(n.(ctx := Some(l)), [], d)
  }

  function Quietly(n: Node): Outcome {
    Outcome(n, [], None)
  }

  function Writes(r: (Node, seq<Message>)): Outcome {
    Outcome(r.0, r.1, None)
  }

  /** A loop over a script: it goes on while the runner stays in the phase it began in. The second
      and third results are all that was written and sent. */
  function Loop(side: Side, n: Node, script: seq<(Event, Env)>): (Node, seq<Message>, seq<Datagram>) {
    if script == [] then (n, [], [])
    else
      var (m, wrote, sent) := Loop(side, n, script[..|script| - 1]);
      if m.phase != n.phase then (m, wrote, sent)
      else
        var (e, env) := script[|script| - 1];
        var o := Turn(side, m, e, env);
        (o.node, wrote + o.wrote, sent + (if o.sent.Some? then [o.sent.value] else []))
  }

  /** One more event of a script. */
  lemma LoopGoesOn(side: Side, n: Node, script: seq<(Event, Env)>, i: nat)
    requires i < |script|
    ensures var (m, wrote, sent) := Loop(side, n, script[..i]);
            var (e, env) := script[i];
            var o := Turn(side, m, e, env);
            Loop(side, n, script[..i + 1])
            == if m.phase != n.phase || !Polls(side, m, e, env) then (m, wrote, sent)
               else (o.node, wrote + o.wrote, sent + (if o.sent.Some? then [o.sent.value] else []))
  {
    assert script[..i + 1][..i] == script[..i];
    var (m, wrote, sent) := Loop(side, n, script[..i]);
    assert wrote + [] == wrote && sent + [] == sent;
  }

  /** What a loop sends is what its relay emits, in order. */
  lemma {:induction false} LoopSendsWhatIsEmitted(side: Side, n: Node, script: seq<(Event, Env)>)
    requires n.ctx.Some? && (n.phase == InLoop || n.phase == Ready)
    ensures var (m, _, sent) := Loop(side, n, script);
            && m.ctx.Some? && |m.ctx.value.emitted| == |n.ctx.value.emitted| + |sent|
            && m.ctx.value.emitted == n.ctx.value.emitted + Payloads(sent)
  {
    if script == [] {
      assert n.ctx.value.emitted + [] == n.ctx.value.emitted;
    } else {
      var i := |script| - 1;
      LoopSendsWhatIsEmitted(side, n, script[..i]);
      var (m, wrote, sent) := Loop(side, n, script[..i]);
      if m.phase == n.phase {
        var (e, env) := script[i];
        TurnSendsWhatIsEmitted(side, m, e, env);
        PayloadsJoin(sent, Turn(side, m, e, env).sent);
      }
    }
  }

  function Payloads(ds: seq<Datagram>): (xs: seq<Payload>)
    ensures |xs| == |ds| && forall i :: 0 <= i < |ds| ==> xs[i] == ds[i].payload
  {
    seq(|ds|, i requires 0 <= i < |ds| => ds[i].payload)
  }

  lemma PayloadsJoin(ds: seq<Datagram>, d: Option<Datagram>)
    ensures Payloads(ds + (if d.Some? then [d.value] else []))
         == Payloads(ds) + (if d.Some? then [d.value.payload] else [])
  {
  }

  lemma TurnSendsWhatIsEmitted(side: Side, n: Node, e: Event, env: Env)
    requires n.ctx.Some? && (n.phase == InLoop || n.phase == Ready)
    ensures var o := Turn(side, n, e, env);
            && o.node.ctx.Some?
            && o.node.ctx.value.emitted
               == n.ctx.value.emitted + (if o.sent.Some? then [o.sent.value.payload] else [])
  {
  }

  // ----- The server's handshake loop takes at most one turn -----

  /** Whatever the script, the server's handshake loop takes at most one message: as long as it
      goes on it has taken none and written nothing, and it ends ready exactly when it has written
      its one answer, to the message it took. */
  lemma {:induction false} ServerLoopTakesOne(n: Node, script: seq<(Event, Env)>)
    requires n.phase == InLoop && n.ctx.Some? && n.testCfg.Some?
    ensures var (m, out, _) := Loop(Server, n, script);
            && m.ctx.Some? && m.testCfg == n.testCfg
            && |m.ctx.value.returned| <= |n.ctx.value.returned| + 1
            && (m.phase == InLoop ==> out == [] && m.ctx.value.returned == n.ctx.value.returned)
            && (m.phase == Ready <==> |out| == 1)
            && (m.phase == Ready ==>
                  out[0].Handshake? && m.ctx.value.returned == n.ctx.value.returned + [Encoded(out[0])])
  {
    if script != [] {
      var init := script[..|script| - 1];
      ServerLoopTakesOne(n, init);
      var m := Loop(Server, n, init).0;
      if m.phase == InLoop {
        var (e, env) := script[|script| - 1];
        ServerTurnTakesOne(m, e, env);
      }
    }
  }

  /** A turn of the server's handshake loop either was the relay's or ends the loop. */
  lemma ServerTurnTakesOne(n: Node, e: Event, env: Env)
    requires n.phase == InLoop && n.ctx.Some? && n.testCfg.Some?
    ensures var o := Turn(Server, n, e, env);
            var m, out := o.node, o.wrote;
            && m.ctx.Some? && m.testCfg == n.testCfg
            && (Polls(Server, n, e, env) && !e.RelayRuns? ==> m.phase != InLoop)
            && |m.ctx.value.returned| <= |n.ctx.value.returned| + 1
            && (m.phase != Ready ==> out == [])
            && (m.phase == InLoop ==> m.ctx.value.returned == n.ctx.value.returned)
            && (m.phase == Ready ==>
                  && |out| == 1 && out[0].Handshake?
                  && m.ctx.value.returned == n.ctx.value.returned + [Encoded(out[0])])
  {
    if e.RelayRuns? {
      RelayReturnsNothing(n.ctx.value, e.w);
    }
  }

  lemma RelayReturnsNothing(l: Link, w: Wakeup)
    ensures Woken(l, w).Some? ==> Woken(l, w).value.0.returned == l.returned
  {
  }

  // ----- Two runners, the control streams and the network -----

  predicate OfEnvironment(a: Action) {
    a.Hangup? || a.Lose? || a.Copy?
  }

  /** Everything between the two runners. */
  datatype Streams = Streams(c2s: seq<Message>, s2c: seq<Message>, net: multiset<Datagram>,
                             gone: set<Side>, answers: seq<Message>)
  {
    /** What a side has to read. */
    function Inbound(side: Side): seq<Message> {
      if side == Client then s2c else c2s
    }

    function SetInbound(side: Side, q: seq<Message>): Streams {
      if side == Client then this.(s2c := q) else this.(c2s := q)
    }

    function EnvFor(p: Params, side: Side): Env {
      Env(p.cap, p.clientAddr, Other(side) in gone)
    }

    /** The streams and the network have what the event takes; a `read` takes `k` messages, and `local` is
        the address of the side's socket. */
    predicate Offers(side: Side, local: Option<Addr>, e: Event, k: nat) {
      match e
      case First(m) => 0 < k <= |Inbound(side)| && m == Inbound(side)[0]
      case Ctrl(m) => 0 < k <= |Inbound(side)| && m == Inbound(side)[0]
      case NoFirst => Inbound(side) == []
      case RelayRuns(Arrival(d)) => d in net && Some(d.dst) == local
      case _ => true
    }

    function Taken(side: Side, e: Event, k: nat): Streams
      requires e.First? || e.Ctrl? ==> k <= |Inbound(side)|
    {
      match e
      case First(_) => SetInbound(side, Inbound(side)[k..])
      case Ctrl(_) => SetInbound(side, Inbound(side)[k..])
      case RelayRuns(Arrival(d)) => this.(net := net - multiset{d})
      case _ => this
    }

    function Published(side: Side, wrote: seq<Message>, sent: Option<Datagram>): Streams {
      var more := if sent.Some? then net + multiset{sent.value} else net;
      if side == Client then this.(c2s := c2s + wrote, net := more)
      else this.(s2c := s2c + wrote, answers := answers + wrote, net := more)
    }

    /** Whether the network or the streams can take the step; `phase` is that of a side that hangs up. */
    predicate Allows(phase: Phase, a: Action)
      requires OfEnvironment(a)
    {
      match a
      case Lose(d) => d in net
      case Copy(d) => d in net
      case Hangup(side, kept) => phase.Failed? && side !in gone && kept <= |Inbound(Other(side))|
    }

    function After(phase: Phase, a: Action): Streams
      requires OfEnvironment(a) && Allows(phase, a)
    {
      match a
      case Lose(d) => this.(net := net - multiset{d})
      case Copy(d) => this.(net := net + multiset{d})
      case Hangup(side, kept) =>
        SetInbound(Other(side), Inbound(Other(side))[..kept]).(gone := gone + {side})
    }
  }

  function StreamsOf(s: State): Streams {
    Streams(s.c2s, s.s2c, s.net, s.gone, s.answers)
  }

  function Whole(client: Node, server: Node, w: Streams): State {
    State(client, server, w.c2s, w.s2c, w.net, w.gone, w.answers)
  }

  function LocalOf(n: Node): Option<Addr> {
    if n.ctx.None? then None else Some(n.ctx.value.local)
  }

  /** One side takes a turn in the surroundings it finds. */
  function JointTurn(p: Params, side: Side, n: Node, w: Streams, e: Event, k: nat): Option<(Node, Streams)> {
    if !Polls(side, n, e, w.EnvFor(p, side)) || !w.Offers(side, LocalOf(n), e, k) then None
    else
      var o := Turn(side, n, e, w.EnvFor(p, side));
      Some((o.node, w.Taken(side, e, k).Published(side, o.wrote, o.sent)))
  }

  function Joint(p: Params, s: State, side: Side, e: Event, k: nat): Option<State> {
    match JointTurn(p, side, s.Get(side), StreamsOf(s), e, k)
    case None => None
    case Some((n, w)) => var t := s.Put(side, n); Some(Whole(t.client, t.server, w))
  }

  /** The step of the handshake model that a turn is. */
  function ActionOf(s: State, side: Side, e: Event, k: nat): Action {
    var looping := s.Get(side).phase == InLoop;
    match e
    case Hello => ClientHello
    case First(_) => if side == Client then ClientReply(k) else ServerHello(k)
    case NoFirst => StreamEnds(side)
    case Bind => ServerBind
    case Timer => if looping then ClientTick else RunTick(side)
    case Expiry => TimedOut(side)
    case Ctrl(_) => if looping then ClientCtrl(k) else RunCtrl(side, k)
    case Incoming => if looping then ServerDatagram else RunRecv(side)
    case Start => RunPanics(side)
    case RelayRuns(Channel) => RelayOut(side)
    case RelayRuns(Arrival(d)) => RelayIn(side, d)
    case RelayRuns(Room) => RelayPush(side)
    case RelayRuns(StopSignal) => RelayStop(side)
  }

  /** A turn that writes nothing leaves the streams as it found them. */
  lemma NothingPublished(w: Streams, side: Side, sent: Option<Datagram>)
    ensures w.Published(side, [], sent) == w.(net := if sent.Some? then w.net + multiset{sent.value} else w.net)
  {
    assert w.c2s + [] == w.c2s && w.s2c + [] == w.s2c && w.answers + [] == w.answers;
  }

  /** What a relay's turn leaves, for either side. */
  lemma RelayPublishes(p: Params, s: State, side: Side, w: Wakeup, k: nat)
    requires Joint(p, s, side, RelayRuns(w), k).Some?
    ensures var (l, d) := Woken(s.Get(side).ctx.value, w).value;
            var net := if w.Arrival? then s.net - multiset{w.d} else s.net;
            var t := s.Put(side, s.Get(side).(ctx := Some(l)));
            Joint(p, s, side, RelayRuns(w), k) == Some(t.(net := if d.Some? then net + multiset{d.value} else net))
  {
    NothingPublished(StreamsOf(s).Taken(side, RelayRuns(w), k), side, Woken(s.Get(side).ctx.value, w).value.1);
  }

  lemma SendingTurnIsTheStep(p: Params, s: State, side: Side, k: nat)
    requires Joint(p, s, side, RelayRuns(Channel), k).Some?
    ensures RelayStep(s, RelayOut(side)) == Joint(p, s, side, RelayRuns(Channel), k)
  {
    RelayPublishes(p, s, side, Channel, k);
  }

  lemma ReceivingTurnIsTheStep(p: Params, s: State, side: Side, d: Datagram, k: nat)
    requires Joint(p, s, side, RelayRuns(Arrival(d)), k).Some?
    ensures RelayStep(s, RelayIn(side, d)) == Joint(p, s, side, RelayRuns(Arrival(d)), k)
  {
    RelayPublishes(p, s, side, Arrival(d), k);
    ArrivalIsOffered(p, s, side, d, k);
    ArrivalIsTheStep(s, side, d);
  }

  lemma ArrivalIsOffered(p: Params, s: State, side: Side, d: Datagram, k: nat)
    requires Joint(p, s, side, RelayRuns(Arrival(d)), k).Some?
    ensures s.Get(side).ctx.Some? && d in s.net && d.dst == s.Get(side).ctx.value.local
    ensures PollSocket(s.Get(side).ctx.value, d).Some?
    ensures Woken(s.Get(side).ctx.value, Arrival(d)) == Some((PollSocket(s.Get(side).ctx.value, d).value, None))
  {
  }

  lemma ArrivalIsTheStep(s: State, side: Side, d: Datagram)
    requires s.Get(side).ctx.Some? && d in s.net && d.dst == s.Get(side).ctx.value.local
    requires PollSocket(s.Get(side).ctx.value, d).Some?
    ensures var t := s.Put(side, s.Get(side).(ctx := PollSocket(s.Get(side).ctx.value, d)));
            RelayStep(s, RelayIn(side, d)) == Some(t.(net := s.net - multiset{d}))
  {
  }

  lemma PushingTurnIsTheStep(p: Params, s: State, side: Side, k: nat)
    requires Joint(p, s, side, RelayRuns(Room), k).Some?
    ensures RelayStep(s, RelayPush(side)) == Joint(p, s, side, RelayRuns(Room), k)
  {
    RelayPublishes(p, s, side, Room, k);
  }

  lemma StoppingTurnIsTheStep(p: Params, s: State, side: Side, k: nat)
    requires Joint(p, s, side, RelayRuns(StopSignal), k).Some?
    ensures RelayStep(s, RelayStop(side)) == Joint(p, s, side, RelayRuns(StopSignal), k)
  {
    RelayPublishes(p, s, side, StopSignal, k);
  }

  lemma RelayTurnIsTheStep(p: Params, s: State, side: Side, w: Wakeup, k: nat)
    requires Joint(p, s, side, RelayRuns(w), k).Some?
    ensures RelayStep(s, ActionOf(s, side, RelayRuns(w), k)) == Joint(p, s, side, RelayRuns(w), k)
  {
    match w
    case Channel => SendingTurnIsTheStep(p, s, side, k);
    case Arrival(d) => ReceivingTurnIsTheStep(p, s, side, d, k);
    case Room => PushingTurnIsTheStep(p, s, side, k);
    case StopSignal => StoppingTurnIsTheStep(p, s, side, k);
  }

  lemma RunReadIsTheStep(p: Params, s: State, side: Side, m: Message, k: nat)
    requires Joint(p, s, side, Ctrl(m), k).Some? && s.Get(side).phase == Ready
    ensures RunnerStep(s, RunCtrl(side, k)) == Joint(p, s, side, Ctrl(m), k)
  {
    NothingPublished(StreamsOf(s).Taken(side, Ctrl(m), k), side, None);
  }

  lemma RunTickIsTheStep(p: Params, s: State, side: Side, k: nat)
    requires Joint(p, s, side, Timer, k).Some? && s.Get(side).phase == Ready
    ensures RunnerStep(s, RunTick(side)) == Joint(p, s, side, Timer, k)
  {
    NothingPublished(StreamsOf(s), side, None);
  }

  lemma RunTurnIsTheStep(p: Params, s: State, side: Side, e: Event, k: nat)
    requires Joint(p, s, side, e, k).Some? && s.Get(side).phase == Ready && (e.Incoming? || e.Start?)
    ensures RunnerStep(s, ActionOf(s, side, e, k)) == Joint(p, s, side, e, k)
  {
    NothingPublished(StreamsOf(s), side, None);
  }

  lemma LoopTurnIsTheStep(p: Params, s: State, side: Side, e: Event, k: nat)
    requires Joint(p, s, side, e, k).Some? && s.Get(side).phase == InLoop && (e.Timer? || e.Ctrl? || e.Expiry?)
    ensures Do(p, s, ActionOf(s, side, e, k)) == Joint(p, s, side, e, k)
  {
    NothingPublished(StreamsOf(s).Taken(side, e, k), side, None);
  }

  lemma QuietSetupIsTheStep(p: Params, s: State, side: Side, e: Event, k: nat)
    requires Joint(p, s, side, e, k).Some? && (e.NoFirst? || e.Bind? || (e.First? && side == Client))
    ensures Do(p, s, ActionOf(s, side, e, k)) == Joint(p, s, side, e, k)
  {
    NothingPublished(StreamsOf(s).Taken(side, e, k), side, None);
  }

  lemma WriteIsTheStep(p: Params, s: State, side: Side, e: Event, k: nat)
    requires Joint(p, s, side, e, k).Some?
    requires e.Hello? || (e.First? && side == Server) || (e.Incoming? && s.Get(side).phase == InLoop)
    ensures Do(p, s, ActionOf(s, side, e, k)) == Joint(p, s, side, e, k)
  {
  }

  /** Every turn of a runner, of its setup or of its relay, is a step of the model: the same new
      state, output and datagram. */
  lemma TurnIsTheStep(p: Params, s: State, side: Side, e: Event, k: nat)
    requires Joint(p, s, side, e, k).Some?
    ensures Do(p, s, ActionOf(s, side, e, k)) == Joint(p, s, side, e, k)
  {
    var looping := s.Get(side).phase == InLoop;
    if e.RelayRuns? {
      RelayTurnIsTheStep(p, s, side, e.w, k);
    } else if e.Hello? || (e.First? && side == Server) || (e.Incoming? && looping) {
      WriteIsTheStep(p, s, side, e, k);
    } else if e.NoFirst? || e.Bind? || e.First? {
      QuietSetupIsTheStep(p, s, side, e, k);
    } else if looping {
      LoopTurnIsTheStep(p, s, side, e, k);
    } else if e.Ctrl? {
      RunReadIsTheStep(p, s, side, e.m, k);
    } else if e.Timer? {
      RunTickIsTheStep(p, s, side, k);
    } else {
      RunTurnIsTheStep(p, s, side, e, k);
    }
  }

  /** The turn that a step of the model is: whose, on what, and how many messages a read takes. */
  function TurnOf(s: State, a: Action): (Side, Event, nat) {
    match a
    case ClientHello => (Client, Hello, 0)
    case ClientReply(k) => (Client, First(Head(s.s2c)), k)
    case ClientTick => (Client, Timer, 0)
    case ClientCtrl(k) => (Client, Ctrl(Head(s.s2c)), k)
    case ServerHello(k) => (Server, First(Head(s.c2s)), k)
    case ServerBind => (Server, Bind, 0)
    case ServerDatagram => (Server, Incoming, 0)
    case TimedOut(side) => (side, Expiry, 0)
    case RunPanics(side) => (side, Start, 0)
    case RunTick(side) => (side, Timer, 0)
    case RunCtrl(side, k) => (side, Ctrl(Head(StreamsOf(s).Inbound(side))), k)
    case RunRecv(side) => (side, Incoming, 0)
    case RelayOut(side) => (side, RelayRuns(Channel), 0)
    case RelayIn(side, d) => (side, RelayRuns(Arrival(d)), 0)
    case RelayPush(side) => (side, RelayRuns(Room), 0)
    case RelayStop(side) => (side, RelayRuns(StopSignal), 0)
    case StreamEnds(side) => (side, NoFirst, 0)
    case _ => (Client, Hello, 0)
  }

  function Head(q: seq<Message>): Message {
    if q == [] then Error else q[0]
  }

  lemma RelayStepIsATurn(p: Params, s: State, a: Action)
    requires RelayStep(s, a).Some?
    ensures var (side, e, k) := TurnOf(s, a); Joint(p, s, side, e, k).Some?
  {
    match a
    case RelayOut(_) =>
    case RelayIn(_, _) =>
    case RelayPush(_) =>
    case RelayStop(_) =>
  }

  lemma RunnerStepIsATurn(p: Params, s: State, a: Action)
    requires RunnerStep(s, a).Some?
    ensures var (side, e, k) := TurnOf(s, a); Joint(p, s, side, e, k).Some?
  {
    match a
    case TimedOut(_) =>
    case RunPanics(_) =>
    case RunTick(_) =>
    case RunCtrl(_, _) =>
    case RunRecv(_) =>
  }

  lemma OtherStepIsATurn(p: Params, s: State, a: Action)
    requires Do(p, s, a).Some? && (a.OfClient() || a.OfServer() || a.StreamEnds?)
    ensures var (side, e, k) := TurnOf(s, a); Joint(p, s, side, e, k).Some?
  {
  }

  /** The step of the turn of a step is that step. */
  lemma TurnOfIsInverse(s: State, a: Action)
    requires !OfEnvironment(a)
    requires match a
             case ClientTick => s.client.phase == InLoop
             case ClientCtrl(_) => s.client.phase == InLoop
             case ServerDatagram => s.server.phase == InLoop
             case RunTick(side) => s.Get(side).phase != InLoop
             case RunCtrl(side, _) => s.Get(side).phase != InLoop
             case RunRecv(side) => s.Get(side).phase != InLoop
             case _ => true
    ensures var (side, e, k) := TurnOf(s, a); ActionOf(s, side, e, k) == a
  {
  }

  /** And every step of the model, but those of the network and the hanging up, is such a turn. */
  lemma StepIsATurn(p: Params, s: State, a: Action)
    requires Do(p, s, a).Some? && !OfEnvironment(a)
    ensures var (side, e, k) := TurnOf(s, a); Joint(p, s, side, e, k) == Do(p, s, a)
  {
    if a.OfRelay() {
      RelayStepIsATurn(p, s, a);
    } else if a.OfRunner() {
      RunnerStepIsATurn(p, s, a);
    } else {
      OtherStepIsATurn(p, s, a);
    }
    var (side, e, k) := TurnOf(s, a);
    TurnOfIsInverse(s, a);
    TurnIsTheStep(p, s, side, e, k);
  }

  // ----- Whole runs -----

  /** What happens next: a side's turn, or a step of the network or the streams. */
  datatype Move = Side(side: Side, e: Event, k: nat) | Outside(a: Action)

  function PhaseFor(s: State, a: Action): Phase {
    if a.Hangup? then s.Get(a.side).phase else Begin
  }

  lemma EnvironmentIsTheStep(p: Params, s: State, a: Action)
    requires OfEnvironment(a)
    ensures Do(p, s, a) == Advance(p, s, Outside(a))
  {
  }

  function Advance(p: Params, s: State, m: Move): Option<State> {
    match m
    case Side(side, e, k) => Joint(p, s, side, e, k)
    case Outside(a) =>
      var phase := PhaseFor(s, a);
      if !OfEnvironment(a) || !StreamsOf(s).Allows(phase, a) then None
      else Some(Whole(s.client, s.server, StreamsOf(s).After(phase, a)))
  }

  /** Whether a move is possible, and the state after it if it is. */
  function Tried(p: Params, s: State, m: Move): (bool, State) {
    OrElse(Advance(p, s, m), s)
  }

  function TriedSide(p: Params, s: State, side: Side, e: Event, k: nat): (bool, State) {
    OrElse(Joint(p, s, side, e, k), s)
  }

  function OrElse(r: Option<State>, s: State): (bool, State) {
    (r.Some?, if r.Some? then r.value else s)
  }

  lemma SideIsTried(p: Params, s: State, side: Side, e: Event, k: nat)
    ensures Tried(p, s, Side(side, e, k)) == TriedSide(p, s, side, e, k)
  {
  }

  /** The moves one after the other; `None` when one of them is not possible. */
  function Iterate<S, M>(step: (S, M) -> Option<S>, s: S, moves: seq<M>): Option<S> {
    if moves == [] then Some(s)
    else
      var r := Iterate(step, s, moves[..|moves| - 1]);
      if r.None? then None else step(r.value, moves[|moves| - 1])
  }

  /** How many of the moves are possible one after the other, given that the first `i` are. */
  function Possible<S, M>(step: (S, M) -> Option<S>, s: S, moves: seq<M>, i: nat): (n: nat)
    requires i <= |moves| && Iterate(step, s, moves[..i]).Some?
    ensures n <= |moves| && Iterate(step, s, moves[..n]).Some?
    ensures n < |moves| ==> Iterate(step, s, moves[..n + 1]).None?
    decreases |moves| - i
  {
    if i == |moves| || Iterate(step, s, moves[..i + 1]).None? then i else Possible(step, s, moves, i + 1)
  }

  function Advancing(p: Params): (State, Move) -> Option<State> {
    (s, m) => Advance(p, s, m)
  }

  function Play(p: Params, moves: seq<Move>): Option<State> {
    Iterate(Advancing(p), Init(p), moves)
  }

  lemma PlayGoesOn(p: Params, moves: seq<Move>, i: nat, s: State)
    requires i < |moves| && Play(p, moves[..i]) == Some(s)
    ensures Play(p, moves[..i + 1]) == Advance(p, s, moves[i])
  {
    assert moves[..i + 1][..i] == moves[..i];
  }

  /** The step of the handshake model behind a move. */
  function StepOf(s: State, m: Move): Action {
    match m
    case Side(side, e, k) => ActionOf(s, side, e, k)
    case Outside(a) => a
  }

  lemma MoveIsAStep(p: Params, s: State, m: Move)
    requires Advance(p, s, m).Some?
    ensures Do(p, s, StepOf(s, m)) == Advance(p, s, m)
  {
    match m
    case Side(side, e, k) => TurnIsTheStep(p, s, side, e, k);
    case Outside(a) => EnvironmentIsTheStep(p, s, a);
  }

  /** The move behind a step. */
  function MoveOf(s: State, a: Action): Move {
    if OfEnvironment(a) then Outside(a) else (var (side, e, k) := TurnOf(s, a); Side(side, e, k))
  }

  lemma StepIsAMove(p: Params, s: State, a: Action)
    requires Do(p, s, a).Some?
    ensures Advance(p, s, MoveOf(s, a)) == Do(p, s, a)
  {
    if OfEnvironment(a) {
      EnvironmentIsTheStep(p, s, a);
    } else {
      StepIsATurn(p, s, a);
    }
  }

  function Doing(p: Params): (State, Action) -> Option<State> {
    (s, a) => Do(p, s, a)
  }

  lemma {:induction false} RunIterates(p: Params, acts: seq<Action>)
    ensures Run(p, Init(p), acts) == Iterate(Doing(p), Init(p), acts)
  {
    if acts != [] {
      RunIterates(p, acts[..|acts| - 1]);
    }
  }

  /** Two machines that make each other's steps make each other's runs. */
  lemma {:induction false} Simulates<S, M, N>(f: (S, M) -> Option<S>, g: (S, N) -> Option<S>, back: (S, M) -> N,
                                              s: S, ms: seq<M>)
    returns (ns: seq<N>)
    requires forall t, m :: f(t, m).Some? ==> g(t, back(t, m)) == f(t, m)
    requires Iterate(f, s, ms).Some?
    ensures Iterate(g, s, ns) == Iterate(f, s, ms)
  {
    ns := [];
    if ms != [] {
      var before := Simulates(f, g, back, s, ms[..|ms| - 1]);
      var t := Iterate(f, s, ms[..|ms| - 1]).value;
      ns := before + [back(t, ms[|ms| - 1])];
      assert ns[..|ns| - 1] == before;
    }
  }

  lemma PlayIsARun(p: Params, moves: seq<Move>) returns (acts: seq<Action>)
    requires Play(p, moves).Some?
    ensures Run(p, Init(p), acts) == Play(p, moves)
  {
    forall s, m | Advancing(p)(s, m).Some? ensures Doing(p)(s, StepOf(s, m)) == Advancing(p)(s, m) {
      MoveIsAStep(p, s, m);
    }
    acts := Simulates(Advancing(p), Doing(p), StepOf, Init(p), moves);
    RunIterates(p, acts);
  }

  lemma RunIsAPlay(p: Params, acts: seq<Action>) returns (moves: seq<Move>)
    requires Run(p, Init(p), acts).Some?
    ensures Play(p, moves) == Run(p, Init(p), acts)
  {
    forall s, a | Doing(p)(s, a).Some? ensures Advancing(p)(s, MoveOf(s, a)) == Doing(p)(s, a) {
      StepIsAMove(p, s, a);
    }
    RunIterates(p, acts);
    moves := Simulates(Doing(p), Advancing(p), MoveOf, Init(p), acts);
  }

  lemma PlaysReach(p: Params, moves: seq<Move>, s: State)
    requires Play(p, moves) == Some(s)
    ensures Reachable(p, s)
  {
    var acts := PlayIsARun(p, moves);
  }

  /** The states that two runners can get into, taking turns between the streams and the network, are
      exactly the reachable states of the handshake model. */
  lemma PlaysReachTheSameStates(p: Params, s: State)
    ensures Reachable(p, s) <==> exists moves :: Play(p, moves) == Some(s)
  {
    if Reachable(p, s) {
      var acts :| Run(p, Init(p), acts) == Some(s);
      var moves := RunIsAPlay(p, acts);
    }
    if moves :| Play(p, moves) == Some(s) {
      var acts := PlayIsARun(p, moves);
    }
  }
}
