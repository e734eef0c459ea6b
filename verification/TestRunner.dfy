/** The runner object of `latency/src/test_runner.rs`: `setup`, whose steps fill in its fields, its
    two handshake loops, and the loop of `run`. Every method is proved to take the turn of the runner
    that it stands for; what the environment does is given as a script. */
module TestRunnerObject {
  import opened Prelude
  import opened Relay
  import opened ConnTypes
  import opened Handshake
  import opened RunnerTurns

  class TestRunner {
    const side: Side
    const id: Option<nat>
    var phase: Phase
    var testCfg: Option<Config>
    var ctx: Option<ConnCtx>

    ghost predicate Valid()
      reads this, Objects()
    {
      ctx.Some? ==> ctx.value.Valid()
    }

    /** The objects of the connection, once there is one. */
    ghost function Objects(): set<object>
      reads this
    {
      if ctx.None? then {}
      else var r := ctx.value.runner; {ctx.value, r, r.tx, r.rx, r.socket}
    }

    ghost function View(): Node
      reads this, Objects()
    {
      Node(phase, id, testCfg, if ctx.None? then None else Some(ctx.value.runner.model))
    }

    constructor (side: Side, id: Option<nat>, testCfg: Option<Config>)
      ensures Valid() && this.side == side && View() == Node(Begin, id, testCfg, None) && Objects() == {}
    {
      this.side, this.id, this.testCfg := side, id, testCfg;
      phase, ctx := Begin, None;
    }

    /** Channels, socket, relay task and context of one connection. */
    method Connect(cap: nat, local: Addr, peer: Option<Addr>)
      modifies this
      ensures Valid() && ctx.Some? && fresh(Objects())
      ensures View() == old(View()).(ctx := Some(NewLink(cap, local, peer)))
    {
      var tx := new BroadcastChannel(cap);
      var rx := new MpscChannel();
      var socket := new UdpLatency(local, peer);
      var runner := new ConnRunner(tx, rx, socket);
      var c := new ConnCtx(tx, rx, runner);
      ctx := Some(c);
    }

    /** `setup` on the client begins. */
    method Greet(hungUp: bool) returns (wrote: seq<Message>)
      requires Valid() && id.Some? && testCfg.Some?
      modifies this, Objects()
      ensures Valid() && ctx == old(ctx) && (View(), wrote) == ClientOnStart(old(View()), hungUp)
    {
      if hungUp {
        Abandon(StreamClosed);
        return [];
      }
      wrote := [NewTest(id.value, testCfg.value)];
      phase := Exchanged;
    }

    /** First half of `setup` on the client, once the server's first message is read. */
    method ConnectClient(reply: Message, cap: nat, local: Addr)
      requires Valid()
      modifies this, Objects()
      ensures Valid() && (Objects() == old(Objects()) || fresh(Objects()))
      ensures View() == ClientOnReply(old(View()), reply, cap, local)
    {
      match reply {
        case NewTest(_, cfg) =>
          if cfg.proto.Udp? {
            Connect(cap, local, Some(cfg.proto.dst));
            phase := InLoop;
          } else {
            Abandon(NotImplemented);
          }
        case Handshake(_) => Abandon(UnexpectedHandshake);
        case Error => Abandon(ErrorMessage);
      }
    }

    /** First half of `setup` on the server, up to its reply. */
    method AcceptTest(first: Message, hungUp: bool) returns (wrote: seq<Message>)
      requires Valid()
      modifies this, Objects()
      ensures Valid() && ctx == old(ctx) && (View(), wrote) == ServerOnTest(old(View()), first, hungUp)
    {
      wrote := [];
      match first {
        case NewTest(id, cfg) =>
          testCfg := Some(cfg);
          if hungUp {
            Abandon(StreamClosed);
          } else {
            wrote := [NewTest(id, cfg)];
            phase := Exchanged;
          }
        case Handshake(_) => Abandon(NotImplemented);
        case Error => Abandon(ErrorMessage);
      }
    }

    /** The rest of it: the socket is bound only after the reply has gone out. */
    method BindSocket(cap: nat)
      requires Valid() && testCfg.Some?
      modifies this, Objects()
      ensures Valid() && (Objects() == old(Objects()) || fresh(Objects()))
      ensures View() == ServerOnBind(old(View()), cap)
    {
      var proto := testCfg.value.proto;
      if proto.Udp? {
        Connect(cap, proto.dst, None);
        phase := InLoop;
      } else {
        Abandon(NotImplemented);
      }
    }

    /** `setup` or `run` panics, or `setup` returns an error: the runner and its context are dropped. */
    method Abandon(why: Error)
      requires Valid()
      modifies this, Objects()
      ensures Valid() && ctx == old(ctx) && View() == Fail(old(View()), why)
    {
      if ctx.Some? {
        ctx.value.Drop();
      }
      phase := Failed(why);
    }

    /** After the loops: both asserts, then the ready runner. */
    method MakeReady()
      requires Valid()
      modifies this, Objects()
      ensures Valid() && ctx == old(ctx) && View() == Finish(old(View()))
    {
      if testCfg.None? || ctx.None? {
        Abandon(AssertPanic);
      } else {
        phase := Ready;
      }
    }

    /** `self.ctx.as_ref().unwrap().send(..).unwrap()`. */
    method GiveToRelay(p: Payload)
      requires Valid() && ctx.Some?
      modifies this, Objects()
      ensures Valid() && ctx == old(ctx) && View() == SendOrFail(old(View()), p)
    {
      var ok := ctx.value.Send(p);
      if !ok {
        Abandon(SendFailed);
      }
    }

    /** A control message, in the client's handshake loop and in `run`. */
    method OnCtrl(m: Message)
      requires Valid() && (phase == InLoop ==> id.Some?)
      modifies this, Objects()
      ensures Valid() && ctx == old(ctx)
      ensures View() == if old(phase) == InLoop then ClientOnCtrl(old(View()), m) else OnRunCtrl(side, old(View()), m)
    {
      if phase == InLoop {
        if !m.Handshake? {
          Abandon(UnexpectedMessage);
        } else if m.id == id.value {
          MakeReady();
        }
      } else if side == Server || m.NewTest? {
        Abandon(NotImplemented);
      }
    }

    /** The server's handshake loop takes a message from the relay. */
    method OnDatagram(hungUp: bool) returns (wrote: seq<Message>)
      requires Valid() && ctx.Some? && ctx.value.runner.model.inbox != []
      modifies this, Objects()
      ensures Valid() && ctx == old(ctx) && (View(), wrote) == ServerOnDatagram(old(View()), hungUp)
    {
      wrote := [];
      var msg := ctx.value.Recv();
      var m := Decode(msg.buf);
      if m.None? {
        Abandon(DecodePanic);
      } else if !m.value.Handshake? {
        Abandon(UnexpectedMessage);
      } else if hungUp {
        Abandon(StreamClosed);
      } else {
        wrote := [Message.Handshake(m.value.id)];
        MakeReady();
      }
    }

    /** Whether the runner stands where the event can happen to it. */
    function CanTake(e: Event, env: Env): (r: bool)
      requires Valid()
      reads this, Objects()
      ensures r <==> Polls(side, View(), e, env)
    {
      var looping := phase == InLoop;
      var running := phase == Ready && testCfg.Some? && Starts(testCfg.value);
      match e
      case Hello => side == Client && phase == Begin && id.Some? && testCfg.Some?
      case First(_) => phase == if side == Client then Exchanged else Begin
      case NoFirst => env.hungUp && phase == if side == Client then Exchanged else Begin
      case Bind => side == Server && phase == Exchanged && testCfg.Some?
      case Timer => ctx.Some? && (running || (looping && side == Client && id.Some?))
      case Expiry => looping
      case Ctrl(_) => running || (looping && side == Client && id.Some?)
      case Incoming => ctx.Some? && ctx.value.rx.inbox != [] && (running || (looping && side == Server))
      case Start => phase == Ready && !running
      case RelayRuns(w) => ctx.Some? && ctx.value.runner.Ready(w)
    }

    function Local(): (r: Option<Addr>)
      requires Valid()
      reads this, Objects()
      ensures r == LocalOf(View())
    {
      if ctx.None? then None else Some(ctx.value.runner.socket.local)
    }

    /** A turn in one of the loops, or of the relay task. */
    method Select(e: Event, env: Env) returns (wrote: seq<Message>, sent: Option<Datagram>)
      requires Valid() && Polls(side, View(), e, env)
      requires e.Timer? || e.Expiry? || e.Ctrl? || e.Incoming? || e.Start? || e.RelayRuns?
      modifies this, Objects()
      ensures Valid() && ctx == old(ctx)
      ensures Outcome(View(), wrote, sent) == Turn(side, old(View()), e, env)
    {
      wrote, sent := [], None;
      match e {
        case Timer =>
          GiveToRelay(if phase == InLoop then Encoded(Message.Handshake(id.value)) else Data(testCfg.value.len.value));
        case Expiry => Abandon(Timeout);
        case Ctrl(m) => OnCtrl(m);
        case Incoming =>
          if phase == InLoop {
            wrote := OnDatagram(env.hungUp);
          } else {
            var _ := ctx.value.Recv();
          }
        case Start => Abandon(ConfigPanic);
        case RelayRuns(w) => sent := ctx.value.runner.Turn(w);
      }
    }

    /** Any turn of the runner's life. */
    method Take(e: Event, env: Env) returns (wrote: seq<Message>, sent: Option<Datagram>)
      requires Valid() && Polls(side, View(), e, env)
      modifies this, Objects()
      ensures Valid() && (Objects() == old(Objects()) || fresh(Objects()))
      ensures Outcome(View(), wrote, sent) == Turn(side, old(View()), e, env)
    {
      wrote, sent := [], None;
      match e {
        case Hello => wrote := Greet(env.hungUp);
        case First(m) =>
          if side == Client {
            ConnectClient(m, env.cap, env.local);
          } else {
            wrote := AcceptTest(m, env.hungUp);
          }
        case NoFirst => Abandon(StreamClosed);
        case Bind => BindSocket(env.cap);
        case _ => wrote, sent := Select(e, env);
      }
    }

    /** A handshake loop, or the loop of `run`, over a script of outcomes, as long as the runner stays in
        the phase it begins in. */
    method RunLoop(script: seq<(Event, Env)>) returns (wrote: seq<Message>, sent: seq<Datagram>)
      requires Valid() && (phase == InLoop || phase == Ready)
      modifies this, Objects()
      ensures Valid() && ctx == old(ctx) && (View(), wrote, sent) == Loop(side, old(View()), script)
    {
      wrote, sent := [], [];
      var began := phase;
      ghost var n := View();
      for i := 0 to |script|
        invariant Valid() && ctx == old(ctx) && (View(), wrote, sent) == Loop(side, n, script[..i])
      {
        LoopGoesOn(side, n, script, i);
        var (e, env) := script[i];
        var ready := CanTake(e, env);
        if phase == began && ready {
          var more, d := Select(e, env);
          wrote := wrote + more;
          sent := sent + (if d.Some? then [d.value] else []);
        }
      }
      assert script[..|script|] == script;
    }
  }

  // ----- The two runners between the control streams and the network -----

  /** Two runners that share nothing. */
  ghost predicate Apart(a: TestRunner, b: TestRunner)
    reads a, a.Objects(), b, b.Objects()
  {
    && a.Valid() && b.Valid() && a != b && a.Objects() !! b.Objects()
    && a !in b.Objects() && b !in a.Objects()
  }

  /** A side takes its turn; the other does not notice. */
  method TakeApart(runner: TestRunner, other: TestRunner, e: Event, env: Env)
    returns (wrote: seq<Message>, sent: Option<Datagram>)
    requires Apart(runner, other) && Polls(runner.side, runner.View(), e, env)
    modifies runner, runner.Objects()
    ensures Apart(runner, other) && fresh(runner.Objects() - old(runner.Objects()))
    ensures Outcome(runner.View(), wrote, sent) == Turn(runner.side, old(runner.View()), e, env)
    ensures other.View() == old(other.View()) && other.Objects() == old(other.Objects())
  {
    ghost var near, far := runner.Objects(), other.Objects();
    wrote, sent := runner.Take(e, env);
    assert other.Objects() == far;
    if other.ctx.Some? {
      assert other.ctx.value.runner in far && other.ctx.value.runner.model == old(other.ctx.value.runner.model);
    }
    assert runner.Objects() !! far by {
      assert runner.Objects() == near || fresh(runner.Objects());
    }
  }

  /** One turn of a side, if it is possible. */
  method TurnOfSide(p: Params, runner: TestRunner, other: TestRunner, w: Streams, e: Event, k: nat)
    returns (ok: bool, w': Streams)
    requires Apart(runner, other)
    modifies runner, runner.Objects()
    ensures Apart(runner, other) && fresh(runner.Objects() - old(runner.Objects()))
    ensures other.View() == old(other.View()) && other.Objects() == old(other.Objects())
    ensures var r := JointTurn(p, runner.side, old(runner.View()), w, e, k);
            && (ok <==> r.Some?)
            && (runner.View(), w') == if ok then r.value else (old(runner.View()), w)
  {
    w' := w;
    var env := w.EnvFor(p, runner.side);
    ok := runner.CanTake(e, env) && w.Offers(runner.side, runner.Local(), e, k);
    if ok {
      var wrote, sent := TakeApart(runner, other, e, env);
      w' := w.Taken(runner.side, e, k).Published(runner.side, wrote, sent);
    }
  }

  /** The network or the streams take a step, if it is possible. */
  method StepOutside(p: Params, client: TestRunner, server: TestRunner, w: Streams, a: Action)
    returns (ok: bool, w': Streams)
    requires client.Valid() && server.Valid()
    ensures (ok, Whole(client.View(), server.View(), w'))
         == Tried(p, Whole(client.View(), server.View(), w), Outside(a))
  {
    var phase := if !a.Hangup? then Begin else if a.side == Client then client.phase else server.phase;
    ok := OfEnvironment(a) && w.Allows(phase, a);
    w' := if ok then w.After(phase, a) else w;
  }

  method TrySide(p: Params, client: TestRunner, server: TestRunner, w: Streams, side: Side, e: Event, k: nat)
    returns (ok: bool, w': Streams)
    requires Apart(client, server) && client.side == Client && server.side == Server
    modifies client, client.Objects(), server, server.Objects()
    ensures Apart(client, server)
    ensures fresh(client.Objects() - old(client.Objects())) && fresh(server.Objects() - old(server.Objects()))
    ensures (ok, Whole(client.View(), server.View(), w'))
         == TriedSide(p, Whole(old(client.View()), old(server.View()), w), side, e, k)
  {
    if side == Client {
      ok, w' := TurnOfSide(p, client, server, w, e, k);
    } else {
      ok, w' := TurnOfSide(p, server, client, w, e, k);
    }
  }

  /** One move, if it is possible. */
  method TryMove(p: Params, client: TestRunner, server: TestRunner, w: Streams, m: Move)
    returns (ok: bool, w': Streams)
    requires Apart(client, server) && client.side == Client && server.side == Server
    modifies client, client.Objects(), server, server.Objects()
    ensures Apart(client, server)
    ensures fresh(client.Objects() - old(client.Objects())) && fresh(server.Objects() - old(server.Objects()))
    ensures (ok, Whole(client.View(), server.View(), w'))
         == Tried(p, Whole(old(client.View()), old(server.View()), w), m)
  {
    match m {
      case Side(side, e, k) =>
        SideIsTried(p, Whole(client.View(), server.View(), w), side, e, k);
        ok, w' := TrySide(p, client, server, w, side, e, k);
      case Outside(a) => ok, w' := StepOutside(p, client, server, w, a);
    }
  }

  /** The rest of a script of moves, up to the first that is not possible. */
  method GoOn(p: Params, client: TestRunner, server: TestRunner, w: Streams, moves: seq<Move>, i: nat)
    returns (w': Streams, done: nat)
    requires Apart(client, server) && client.side == Client && server.side == Server && i <= |moves|
    requires Play(p, moves[..i]) == Some(Whole(client.View(), server.View(), w))
    modifies client, client.Objects(), server, server.Objects()
    ensures Apart(client, server) && done == Possible(Advancing(p), Init(p), moves, i)
    ensures Play(p, moves[..done]) == Some(Whole(client.View(), server.View(), w'))
    decreases |moves| - i
  {
    w', done := w, i;
    if i < |moves| {
      PlayGoesOn(p, moves, i, Whole(client.View(), server.View(), w));
      var ok;
      ok, w' := TryMove(p, client, server, w, moves[i]);
      if ok {
        w', done := GoOn(p, client, server, w', moves, i + 1);
      }
    }
  }

  /** Both runners over a script of moves, as long as they are possible. Whatever they do, they are then
      in a reachable state of the handshake model, so what is proved of those states holds of the
      objects. */
  method Run(p: Params, moves: seq<Move>)
    returns (client: TestRunner, server: TestRunner, w: Streams, done: nat)
    ensures Apart(client, server) && done == Possible(Advancing(p), Init(p), moves, 0)
    ensures Play(p, moves[..done]) == Some(Whole(client.View(), server.View(), w))
    ensures Reachable(p, Whole(client.View(), server.View(), w))
  {
    client := new TestRunner(Client, Some(p.id), Some(p.cfg));
    server := new TestRunner(Server, None, None);
    w, done := GoOn(p, client, server, StreamsOf(Init(p)), moves, 0);
    PlaysReach(p, moves[..done], Whole(client.View(), server.View(), w));
  }
}
