/** Some runs of the handshake, built step by step. */
module HandshakeRuns {
  import opened Prelude
  import opened Relay
  import opened Handshake

  /** No timer of a handshake loop expires in the run. */
  predicate WithoutTimeouts(acts: seq<Action>) {
    forall a :: a in acts ==> !a.TimedOut?
  }

  lemma RunExtends(p: Params, acts: seq<Action>, s: State, a: Action, t: State)
    requires Run(p, Init(p), acts) == Some(s) && Do(p, s, a) == Some(t)
    ensures Run(p, Init(p), acts + [a]) == Some(t)
  {
    assert (acts + [a])[..|acts|] == acts;
  }

  // ----- How every run that gets anywhere begins -----

  /** The client has written its test. */
  function Greeted(p: Params): State {
    State(Node(Exchanged, Some(p.id), Some(p.cfg), None), Node(Begin, None, None, None),
          [NewTest(p.id, p.cfg)], [], multiset{}, {}, [])
  }

  /** The server has answered, but has no socket yet. */
  function Answered(p: Params): State {
    State(Node(Exchanged, Some(p.id), Some(p.cfg), None), Node(Exchanged, None, Some(p.cfg), None),
          [], [NewTest(p.id, p.cfg)], multiset{}, {}, [NewTest(p.id, p.cfg)])
  }

  function BoundServer(p: Params): Node
    requires p.Valid()
  {
    Node(InLoop, None, Some(p.cfg), Some(NewLink(p.cap, p.ServerAddr(), None)))
  }

  function ConnectedClient(p: Params): Node
    requires p.Valid()
  {
    Node(InLoop, Some(p.id), Some(p.cfg), Some(NewLink(p.cap, p.clientAddr, Some(p.ServerAddr()))))
  }

  /** Both sides are in their loops. */
  function BothLooping(p: Params): State
    requires p.Valid()
  {
    Answered(p).(client := ConnectedClient(p), server := BoundServer(p), s2c := [])
  }

  lemma Greets(p: Params)
    ensures Do(p, Init(p), ClientHello) == Some(Greeted(p))
  {
    assert [] + [NewTest(p.id, p.cfg)] == [NewTest(p.id, p.cfg)];
  }

  lemma Answers(p: Params)
    ensures Do(p, Greeted(p), ServerHello(1)) == Some(Answered(p))
  {
    var test := NewTest(p.id, p.cfg);
    assert [] + [test] == [test] && [test][1..] == [];
  }

  lemma BindsAndConnects(p: Params)
    requires p.Valid()
    ensures Do(p, Answered(p), ServerBind) == Some(Answered(p).(server := BoundServer(p)))
    ensures Do(p, Answered(p).(server := BoundServer(p)), ClientReply(1)) == Some(BothLooping(p))
  {
    assert [NewTest(p.id, p.cfg)][1..] == [];
  }

  /** The server is in its loop, the client has its reply to read. */
  lemma ReplyIsWritten(p: Params) returns (acts: seq<Action>)
    requires p.Valid()
    ensures Run(p, Init(p), acts) == Some(Answered(p).(server := BoundServer(p))) && WithoutTimeouts(acts)
  {
    Greets(p);
    RunExtends(p, [], Init(p), ClientHello, Greeted(p));
    Answers(p);
    RunExtends(p, [] + [ClientHello], Greeted(p), ServerHello(1), Answered(p));
    BindsAndConnects(p);
    acts := [] + [ClientHello] + [ServerHello(1)];
    RunExtends(p, acts, Answered(p), ServerBind, Answered(p).(server := BoundServer(p)));
    acts := acts + [ServerBind];
  }

  lemma Opened(p: Params) returns (acts: seq<Action>)
    requires p.Valid()
    ensures Run(p, Init(p), acts) == Some(BothLooping(p)) && WithoutTimeouts(acts)
  {
    acts := ReplyIsWritten(p);
    BindsAndConnects(p);
    RunExtends(p, acts, Answered(p).(server := BoundServer(p)), ClientReply(1), BothLooping(p));
    acts := acts + [ClientReply(1)];
  }

  /** The client's first handshake gets as far as the channel of the server's relay. */
  lemma FirstHandshake(p: Params) returns (acts: seq<Action>, s: State)
    requires p.Valid()
    ensures Run(p, Init(p), acts) == Some(s) && WithoutTimeouts(acts)
    ensures ClientHasSent(p, s.client) && s.gone == {} && s.net == multiset{} && s.s2c == []
    ensures ServerHolds(p, s.server, Encoded(Message.Handshake(p.id)))
  {
    var hello := Encoded(Message.Handshake(p.id));
    var d := Datagram(p.clientAddr, p.ServerAddr(), hello);
    var init := Opened(p);
    var s0 := BothLooping(p);
    var s1 := Do(p, s0, ClientTick).value;
    RunExtends(p, init, s0, ClientTick, s1);
    var s2 := Do(p, s1, RelayOut(Client)).value;
    RunExtends(p, init + [ClientTick], s1, RelayOut(Client), s2);
    assert s2.net == multiset{d};
    acts, s := HandshakeArrives(p, init + [ClientTick] + [RelayOut(Client)], s2, d);
  }

  /** The client is in its loop, and its relay has sent all it was given. */
  predicate ClientHasSent(p: Params, n: Node) {
    && n.phase == InLoop && n.id == Some(p.id) && n.testCfg == Some(p.cfg) && n.ctx.Some?
    && var l := n.ctx.value; l.task == Selecting && l.cap == p.cap && l.unread == [] && !l.lagged
  }

  lemma HandshakeArrives(p: Params, init: seq<Action>, s0: State, d: Datagram) returns (acts: seq<Action>, s: State)
    requires p.Valid() && Run(p, Init(p), init) == Some(s0) && WithoutTimeouts(init)
    requires s0.server == BoundServer(p)
    requires s0.net == multiset{d} && d.dst == p.ServerAddr()
    ensures Run(p, Init(p), acts) == Some(s) && WithoutTimeouts(acts)
    ensures s.client == s0.client && s.gone == s0.gone && s.s2c == s0.s2c && s.net == multiset{}
    ensures ServerHolds(p, s.server, d.payload)
  {
    var s1 := Do(p, s0, RelayIn(Server, d)).value;
    RunExtends(p, init, s0, RelayIn(Server, d), s1);
    s := Do(p, s1, RelayPush(Server)).value;
    RunExtends(p, init + [RelayIn(Server, d)], s1, RelayPush(Server), s);
    acts := init + [RelayIn(Server, d)] + [RelayPush(Server)];
  }

  /** The server is in its loop with one message to read. */
  predicate ServerHolds(p: Params, n: Node, x: Payload) {
    && n.phase == InLoop && n.testCfg == Some(p.cfg) && n.ctx.Some?
    && var l := n.ctx.value;
       && l.inbox == [x] && l.unread == [] && !l.lagged && l.task == Selecting && l.open
       && l.peer.Some? && l.cap == p.cap
  }
}
