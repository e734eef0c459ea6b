/** Can the handshake still complete? Exactly when it is not stuck: a broadcast channel that
    overflowed silences the client's relay until a datagram arrives, and none ever will while the
    server has no peer. */
module HandshakeLiveness {
  import opened Prelude
  import opened Relay
  import opened Handshake
  import opened HandshakeInvariant
  import opened HandshakeRuns
  import opened HandshakeSafety

  predicate Complete(s: State) {
    s.client.phase == Ready && s.server.phase == Ready
  }

  ghost predicate CanComplete(p: Params, s: State) {
    exists acts :: Run(p, s, acts).Some? && Complete(Run(p, s, acts).value)
  }

  /** The relay sends nothing more before it receives something. */
  predicate Muted(l: Link) {
    l.lagged || l.task == Deaf || l.task.Dead?
  }

  /** A handshake has left the client and can still reach a server that is not ready. */
  predicate EnRoute(s: State) {
    || s.net != multiset{}
    || (s.server.ctx.Some? && (s.server.ctx.value.inbox != [] || s.server.ctx.value.task.Pushing?))
  }

  /** Both sides are in their handshake, the client's relay is muted and nothing is en route. */
  predicate Stuck(s: State) {
    && s.client.phase == InLoop && (s.server.phase == Exchanged || s.server.phase == InLoop)
    && s.client.ctx.Some? && Muted(s.client.ctx.value)
    && !EnRoute(s)
  }

  // ----- Stuck for good -----

  /** `Stuck`, also after one side has given up. */
  predicate Silent(s: State) {
    && (s.client.phase == InLoop || s.client.phase.Failed?)
    && (s.server.phase == Exchanged || s.server.phase == InLoop || s.server.phase == Failed(Timeout))
    && s.client.ctx.Some? && Muted(s.client.ctx.value)
    && !EnRoute(s)
  }

  lemma SilenceOutlastsSends(p: Params, s: State, side: Side)
    requires p.Valid() && Inv(p, s) && Silent(s) && RelayStep(s, RelayOut(side)).Some?
    ensures Silent(RelayStep(s, RelayOut(side)).value)
  {
  }

  lemma SilenceOutlastsRelays(p: Params, s: State, a: Action)
    requires p.Valid() && Inv(p, s) && Silent(s) && RelayStep(s, a).Some?
    ensures Silent(RelayStep(s, a).value)
  {
    if a.RelayOut? {
      SilenceOutlastsSends(p, s, a.side);
    }
  }

  lemma SilenceOutlastsHandshakes(p: Params, s: State, a: Action)
    requires p.Valid() && Inv(p, s) && Silent(s) && Do(p, s, a).Some? && (a.OfClient() || a.OfServer())
    ensures Silent(Do(p, s, a).value)
  {
  }

  lemma SilenceOutlastsRunners(p: Params, s: State, a: Action)
    requires p.Valid() && Inv(p, s) && Silent(s) && RunnerStep(s, a).Some?
    ensures Silent(RunnerStep(s, a).value)
  {
  }

  lemma SilenceOutlastsStreams(p: Params, s: State, a: Action)
    requires p.Valid() && Inv(p, s) && Silent(s) && StreamStep(s, a).Some?
    ensures Silent(StreamStep(s, a).value)
  {
  }

  lemma SilenceLasts(p: Params, s: State, a: Action)
    requires p.Valid() && Inv(p, s) && Silent(s) && Do(p, s, a).Some?
    ensures Silent(Do(p, s, a).value)
  {
    if a.OfRelay() {
      SilenceOutlastsRelays(p, s, a);
    } else if a.OfClient() || a.OfServer() {
      SilenceOutlastsHandshakes(p, s, a);
    } else if a.OfRunner() {
      SilenceOutlastsRunners(p, s, a);
    } else if a.OfStreams() {
      SilenceOutlastsStreams(p, s, a);
    }
  }

  lemma {:induction false} SilentForever(p: Params, s: State, acts: seq<Action>)
    requires p.Valid() && Inv(p, s) && Silent(s) && Run(p, s, acts).Some?
    ensures Inv(p, Run(p, s, acts).value) && Silent(Run(p, s, acts).value)
  {
    if acts != [] {
      SilentForever(p, s, acts[..|acts| - 1]);
      var t := Run(p, s, acts[..|acts| - 1]).value;
      SilenceLasts(p, t, acts[|acts| - 1]);
      DoKeeps(p, t, acts[|acts| - 1]);
    }
  }

  // ----- Otherwise eleven steps are enough -----

  /** How far the handshake is from completion. */
  function Rank(s: State): nat {
    if s.client.phase == Ready then 0
    else if s.client.phase == Begin then 11
    else if s.client.phase == Exchanged then
      if s.server.phase == Begin then 10 else if s.server.phase == Exchanged then 9 else 8
    else if s.server.phase == Ready then 1
    else if s.server.ctx.None? then 7
    else if s.server.ctx.value.inbox != [] then 2
    else if s.server.ctx.value.task.Pushing? then 3
    else if s.net != multiset{} then 4
    else if s.client.ctx.Some? && s.client.ctx.value.unread != [] then 5
    else 6
  }

  /** The step that brings it closer. */
  ghost function Next(s: State): Action {
    match Rank(s)
    case 11 => ClientHello
    case 10 => ServerHello(1)
    case 9 => ServerBind
    case 8 => ClientReply(1)
    case 7 => ServerBind
    case 6 => ClientTick
    case 5 => RelayOut(Client)
    case 4 => if s.net != multiset{} then (var d :| d in s.net; RelayIn(Server, d)) else ClientHello
    case 3 => RelayPush(Server)
    case 2 => ServerDatagram
    case _ => ClientCtrl(1)
  }

  ghost predicate Hopeful(p: Params, s: State)
    requires p.Valid()
  {
    Inv(p, s) && Alive(s) && !Stuck(s)
  }

  lemma ClientOpens(p: Params, s: State)
    requires p.Valid() && Hopeful(p, s) && (Rank(s) == 11 || Rank(s) == 8)
    ensures ClientStep(p, s, Next(s)).Some?
    ensures var t := ClientStep(p, s, Next(s)).value; Alive(t) && !Stuck(t) && Rank(t) < Rank(s)
  {
  }

  lemma ServerOpens(p: Params, s: State)
    requires p.Valid() && Hopeful(p, s) && (Rank(s) == 10 || Rank(s) == 9 || Rank(s) == 7)
    ensures ServerStep(p, s, Next(s)).Some?
    ensures var t := ServerStep(p, s, Next(s)).value; Alive(t) && !Stuck(t) && Rank(t) < Rank(s)
  {
  }

  lemma NextOpensSockets(p: Params, s: State)
    requires p.Valid() && Hopeful(p, s) && Rank(s) >= 7
    ensures Do(p, s, Next(s)).Some?
    ensures var t := Do(p, s, Next(s)).value; Alive(t) && !Stuck(t) && Rank(t) < Rank(s)
  {
    if Rank(s) == 11 || Rank(s) == 8 {
      ClientOpens(p, s);
    } else {
      ServerOpens(p, s);
    }
  }

  lemma NextArrives(p: Params, s: State)
    requires p.Valid() && Hopeful(p, s) && Rank(s) == 4
    ensures Do(p, s, Next(s)).Some?
    ensures var t := Do(p, s, Next(s)).value; Alive(t) && !Stuck(t) && Rank(t) == 3
  {
    assert DatagramInv(p, s, Next(s).d);
  }

  lemma NextIsGiven(p: Params, s: State)
    requires p.Valid() && Hopeful(p, s) && Rank(s) == 6
    ensures ClientStep(p, s, ClientTick).Some?
    ensures var t := ClientStep(p, s, ClientTick).value; Alive(t) && !Stuck(t) && Rank(t) < 6
  {
  }

  lemma NextIsSent(p: Params, s: State)
    requires p.Valid() && Hopeful(p, s) && Rank(s) == 5
    ensures RelayStep(s, RelayOut(Client)).Some?
    ensures var t := RelayStep(s, RelayOut(Client)).value; Alive(t) && !Stuck(t) && Rank(t) < 5
  {
  }

  lemma NextAnswers(p: Params, s: State)
    requires p.Valid() && Hopeful(p, s) && Rank(s) == 2
    ensures Do(p, s, ServerDatagram).Some?
    ensures var t := Do(p, s, ServerDatagram).value; Alive(t) && !Stuck(t) && Rank(t) == 1
  {
    assert Says(Out(p, s, Client), s.server.ctx.value.inbox[0]);
  }

  lemma NextFillsTheInbox(p: Params, s: State)
    requires p.Valid() && Hopeful(p, s) && Rank(s) == 3
    ensures Do(p, s, RelayPush(Server)).Some?
    ensures var t := Do(p, s, RelayPush(Server)).value; Alive(t) && !Stuck(t) && Rank(t) == 2
  {
    var l := s.server.ctx.value;
    assert l.open && |l.inbox| == 0;
    assert Push(l) == Some(l.(task := Selecting, inbox := l.inbox + [l.task.p]));
  }

  lemma NextIsRead(p: Params, s: State)
    requires p.Valid() && Hopeful(p, s) && Rank(s) == 1
    ensures Do(p, s, ClientCtrl(1)).Some? && Complete(Do(p, s, ClientCtrl(1)).value)
  {
    assert s.server.phase == Ready && s.client.phase == InLoop;
    assert s.s2c == [Message.Handshake(p.id)];
    assert ClientOnCtrl(s.client, s.s2c[0]).phase == Ready;
  }

  lemma NextTicks(p: Params, s: State)
    requires p.Valid() && Hopeful(p, s) && Rank(s) == 6
    ensures Do(p, s, Next(s)).Some?
    ensures var t := Do(p, s, Next(s)).value; Alive(t) && !Stuck(t) && Rank(t) < Rank(s)
  {
    NextIsGiven(p, s);
  }

  lemma NextLeaves(p: Params, s: State)
    requires p.Valid() && Hopeful(p, s) && Rank(s) == 5
    ensures Do(p, s, Next(s)).Some?
    ensures var t := Do(p, s, Next(s)).value; Alive(t) && !Stuck(t) && Rank(t) < Rank(s)
  {
    NextIsSent(p, s);
  }

  /** The server's side: the handshake arrives, is queued, and is answered. */
  lemma NextOfServer(p: Params, s: State)
    requires p.Valid() && Hopeful(p, s) && 2 <= Rank(s) <= 4
    ensures Do(p, s, Next(s)).Some?
    ensures var t := Do(p, s, Next(s)).value; Alive(t) && !Stuck(t) && Rank(t) < Rank(s)
  {
    if Rank(s) == 4 {
      NextArrives(p, s);
    } else if Rank(s) == 3 {
      NextFillsTheInbox(p, s);
    } else {
      NextAnswers(p, s);
    }
  }

  lemma NextCompletes(p: Params, s: State)
    requires p.Valid() && Hopeful(p, s) && !Complete(s) && Rank(s) <= 1
    ensures Do(p, s, Next(s)).Some?
    ensures var t := Do(p, s, Next(s)).value; Alive(t) && !Stuck(t) && Rank(t) < Rank(s)
  {
    NextIsRead(p, s);
  }

  lemma NextIsCloser(p: Params, s: State)
    requires p.Valid() && Hopeful(p, s) && !Complete(s)
    ensures Do(p, s, Next(s)).Some?
    ensures var t := Do(p, s, Next(s)).value; Alive(t) && !Stuck(t) && Rank(t) < Rank(s)
  {
    if Rank(s) >= 7 {
      NextOpensSockets(p, s);
    } else if 2 <= Rank(s) <= 4 {
      NextOfServer(p, s);
    } else if Rank(s) == 6 {
      NextTicks(p, s);
    } else if Rank(s) == 5 {
      NextLeaves(p, s);
    } else {
      NextCompletes(p, s);
    }
  }

  lemma NextGetsCloser(p: Params, s: State)
    requires p.Valid() && Hopeful(p, s) && !Complete(s)
    ensures Do(p, s, Next(s)).Some?
    ensures var t := Do(p, s, Next(s)).value; Hopeful(p, t) && Rank(t) < Rank(s)
  {
    NextIsCloser(p, s);
    DoKeeps(p, s, Next(s));
  }

  /** Two runs to the same state go on alike. */
  lemma RunsGoOnAlike(p: Params, s: State, xs: seq<Action>, t: State, ys: seq<Action>, a: Action)
    requires Run(p, s, xs) == Run(p, t, ys)
    ensures Run(p, s, xs + [a]) == Run(p, t, ys + [a])
  {
    assert (xs + [a])[..|xs|] == xs && (ys + [a])[..|ys|] == ys;
  }

  lemma OneStepRun(p: Params, s: State, a: Action)
    ensures Run(p, s, [a]) == Do(p, s, a)
  {
    assert [a][..0] == [];
  }

  lemma {:induction false} RunFromNext(p: Params, s: State, a: Action, t: State, acts: seq<Action>)
    requires Do(p, s, a) == Some(t)
    ensures Run(p, s, [a] + acts) == Run(p, t, acts)
  {
    if acts == [] {
      assert [a] + acts == [a];
      OneStepRun(p, s, a);
    } else {
      var init, last := acts[..|acts| - 1], acts[|acts| - 1];
      RunFromNext(p, s, a, t, init);
      RunsGoOnAlike(p, s, [a] + init, t, init, last);
      assert acts == init + [last] && [a] + acts == [a] + init + [last];
    }
  }

  lemma {:induction false} HopefulCompletes(p: Params, s: State) returns (acts: seq<Action>)
    requires p.Valid() && Hopeful(p, s)
    ensures |acts| <= Rank(s) && Run(p, s, acts).Some? && Complete(Run(p, s, acts).value)
    decreases Rank(s)
  {
    acts := [];
    if !Complete(s) {
      NextGetsCloser(p, s);
      var rest := HopefulCompletes(p, Do(p, s, Next(s)).value);
      RunFromNext(p, s, Next(s), Do(p, s, Next(s)).value, rest);
      acts := [Next(s)] + rest;
    }
  }

  /** From a reachable state in which no side has timed out the handshake can still complete if and
      only if it is not stuck, and then within eleven steps. */
  lemma CompletesUnlessStuck(p: Params, s: State)
    requires p.Valid() && Reachable(p, s) && Alive(s)
    ensures CanComplete(p, s) <==> !Stuck(s)
    ensures !Stuck(s) ==> exists acts :: |acts| <= 11 && Run(p, s, acts).Some? && Complete(Run(p, s, acts).value)
  {
    ReachableInv(p, s);
    if Stuck(s) {
      forall acts | Run(p, s, acts).Some? ensures !Complete(Run(p, s, acts).value) {
        SilentForever(p, s, acts);
      }
    } else {
      var acts := HopefulCompletes(p, s);
    }
  }

  // ----- When it gets stuck -----

  /** The client's channel has room for one more handshake. */
  predicate Room(s: State) {
    s.client.ctx.Some? ==> |s.client.ctx.value.unread| < s.client.ctx.value.cap
  }

  /** A run in which the client's timer never fires on a full channel. */
  predicate Prompt(p: Params, s: State, acts: seq<Action>) {
    if acts == [] then true
    else
      && Prompt(p, s, acts[..|acts| - 1])
      && (acts[|acts| - 1] == ClientTick && Run(p, s, acts[..|acts| - 1]).Some? ==>
            Room(Run(p, s, acts[..|acts| - 1]).value))
  }

  predicate Listening(s: State) {
    s.client.phase == InLoop && s.client.ctx.Some? ==> !Muted(s.client.ctx.value)
  }

  lemma RelayKeepsListening(p: Params, s: State, a: Action)
    requires p.Valid() && Inv(p, s) && Listening(s) && RelayStep(s, a).Some?
    ensures Listening(RelayStep(s, a).value)
  {
    if a.side == Client && s.client.phase == InLoop && s.client.ctx.Some? {
      match a
      case RelayOut(_) => LoopRelaySends(p, s);
      case RelayIn(_, d) => LoopRelayReceives(p, s, d);
      case RelayPush(_) =>
      case RelayStop(_) =>
    }
  }

  lemma LoopRelaySends(p: Params, s: State)
    requires p.Valid() && Inv(p, s) && s.client.phase == InLoop && s.client.ctx.Some? && !Muted(s.client.ctx.value)
    requires PollBroadcast(s.client.ctx.value).Some?
    ensures !Muted(PollBroadcast(s.client.ctx.value).value.0)
  {
  }

  lemma LoopRelayReceives(p: Params, s: State, d: Datagram)
    requires p.Valid() && Inv(p, s) && s.client.phase == InLoop && s.client.ctx.Some? && !Muted(s.client.ctx.value)
    requires RelayStep(s, RelayIn(Client, d)).Some?
    ensures !Muted(PollSocket(s.client.ctx.value, d).value)
  {
    assert DatagramInv(p, s, d);
  }

  lemma ClientKeepsListening(p: Params, s: State, a: Action)
    requires p.Valid() && Inv(p, s) && Listening(s) && ClientStep(p, s, a).Some?
    requires a == ClientTick ==> Room(s)
    ensures Listening(ClientStep(p, s, a).value)
  {
  }

  lemma RunnersKeepListening(s: State, a: Action)
    requires Listening(s) && RunnerStep(s, a).Some?
    ensures Listening(RunnerStep(s, a).value)
  {
  }

  lemma OthersKeepListening(p: Params, s: State, a: Action)
    requires Listening(s) && Do(p, s, a).Some? && !a.OfClient() && !a.OfRunner() && !a.OfRelay()
    ensures Listening(Do(p, s, a).value)
  {
  }

  lemma PromptStepListens(p: Params, s: State, a: Action)
    requires p.Valid() && Inv(p, s) && Listening(s) && Do(p, s, a).Some?
    requires a == ClientTick ==> Room(s)
    ensures Listening(Do(p, s, a).value)
  {
    if a.OfRelay() {
      RelayKeepsListening(p, s, a);
    } else if a.OfClient() {
      ClientKeepsListening(p, s, a);
    } else if a.OfRunner() {
      RunnersKeepListening(s, a);
    } else {
      OthersKeepListening(p, s, a);
    }
  }

  lemma {:induction false} PromptRunListens(p: Params, acts: seq<Action>)
    requires p.Valid() && Run(p, Init(p), acts).Some? && Prompt(p, Init(p), acts)
    ensures Inv(p, Run(p, Init(p), acts).value) && Listening(Run(p, Init(p), acts).value)
  {
    if acts != [] {
      PromptRunListens(p, acts[..|acts| - 1]);
      var s, a := Run(p, Init(p), acts[..|acts| - 1]).value, acts[|acts| - 1];
      PromptStepListens(p, s, a);
      DoKeeps(p, s, a);
    }
  }

  /** As long as no handshake is overwritten in the client's channel, the handshake can always
      complete: the one lost because the server answers before it binds, and a relay blocked on
      a full channel, leave no dead state. */
  lemma PromptRunsCanComplete(p: Params, acts: seq<Action>)
    requires p.Valid() && Run(p, Init(p), acts).Some? && Prompt(p, Init(p), acts)
    requires Alive(Run(p, Init(p), acts).value)
    ensures CanComplete(p, Run(p, Init(p), acts).value)
  {
    PromptRunListens(p, acts);
    assert Reachable(p, Run(p, Init(p), acts).value);
    CompletesUnlessStuck(p, Run(p, Init(p), acts).value);
  }

  /** `n` ticks that the relay does not get to see. */
  lemma {:induction false} UnreadTicks(p: Params, n: nat) returns (acts: seq<Action>, s: State)
    requires p.Valid()
    ensures Run(p, Init(p), acts) == Some(s)
    ensures s.client.phase == InLoop && s.server.phase == InLoop && s.net == multiset{} && s.client.id.Some?
    ensures s.client.ctx.Some? && s.server.ctx == Some(NewLink(p.cap, p.ServerAddr(), None))
    ensures var l := s.client.ctx.value;
            && l.task == Selecting && l.cap == p.cap
            && |l.unread| == (if n <= p.cap then n else p.cap) && (l.lagged <==> n > p.cap)
  {
    if n == 0 {
      acts := Opened(p);
      s := BothLooping(p);
    } else {
      var init, t := UnreadTicks(p, n - 1);
      acts := init + [ClientTick];
      assert acts[..|acts| - 1] == init;
      s := Do(p, t, ClientTick).value;
    }
  }

  /** A stuck state is reachable: one tick more than the channel holds while the relay is not
      scheduled, before any handshake has gone out. */
  lemma StuckIsReachable(p: Params)
    requires p.Valid()
    ensures exists s :: Reachable(p, s) && Alive(s) && Stuck(s) && !CanComplete(p, s)
  {
    var acts, s := UnreadTicks(p, p.cap + 1);
    assert Reachable(p, s) && Alive(s) && Stuck(s);
    CompletesUnlessStuck(p, s);
  }
}
