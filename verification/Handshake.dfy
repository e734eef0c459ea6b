/** The latency test's handshake (`latency/src/test_runner.rs`): a client and a server that talk
    over one ordered control stream in each direction and over UDP, each through its own relay.
    Every interleaving of the two runners, the two relays and the network is a run. */
module Handshake {
  import opened Prelude
  import opened Relay

  // ----- One runner -----

  datatype Side = Client | Server

  /** `Begin`: the client has not written anything, the server waits for the first message.
      `Exchanged`: the client waits for the reply to its `NewTest`, the server has written that
      reply but has no socket yet. `InLoop`: the second half of `setup`. */
  datatype Phase = Begin | Exchanged | InLoop | Ready | Failed(why: Error)

  datatype Error =
    | Timeout
    | UnexpectedMessage
    | DecodePanic
    | AssertPanic
    | UnexpectedHandshake
    | ErrorMessage
    | NotImplemented
    | SendFailed
    | StreamClosed
    | ConfigPanic

  datatype Node = Node(phase: Phase, id: Option<nat>, testCfg: Option<Config>, ctx: Option<Link>)

  function Fail(n: Node, why: Error): Node {
    n.(phase := Failed(why), ctx := if n.ctx.Some? then Some(Close(n.ctx.value)) else None)
  }

  /** The two asserts after the loops, and the construction of the ready runner. */
  function Finish(n: Node): Node {
    if n.testCfg.None? || n.ctx.None? then Fail(n, AssertPanic) else n.(phase := Ready)
  }

  /** The client handles the first message of the server: it takes the address from the
      configuration that came back. */
  function ClientOnReply(n: Node, m: Message, cap: nat, local: Addr): Node {
    match m
    case NewTest(_, cfg) =>
      if cfg.proto.Udp? then n.(phase := InLoop, ctx := Some(NewLink(cap, local, Some(cfg.proto.dst))))
      else Fail(n, NotImplemented)
    case Handshake(_) => Fail(n, UnexpectedHandshake)
    case Error => Fail(n, ErrorMessage)
  }

  /** The client begins; the second result goes to the control stream. `hungUp` says that the other
      side's ends of the two control streams are known to be closed: then a write fails. */
  function ClientOnStart(n: Node, hungUp: bool): (Node, seq<Message>)
    requires n.id.Some? && n.testCfg.Some?
  {
    if hungUp then (Fail(n, StreamClosed), [])
    else (n.(phase := Exchanged), [NewTest(n.id.value, n.testCfg.value)])
  }

  /** The server handles the first message of the client; the second result is its answer. */
  function ServerOnTest(n: Node, m: Message, hungUp: bool): (Node, seq<Message>) {
    match m
    case NewTest(id, cfg) =>
      var n' := n.(testCfg := Some(cfg));
      if hungUp then (Fail(n', StreamClosed), []) else (n'.(phase := Exchanged), [NewTest(id, cfg)])
    case Handshake(_) => (Fail(n, NotImplemented), [])
    case Error => (Fail(n, ErrorMessage), [])
  }

  function ServerOnBind(n: Node, cap: nat): Node
    requires n.testCfg.Some?
  {
    var proto := n.testCfg.value.proto;
    if proto.Udp? then n.(phase := InLoop, ctx := Some(NewLink(cap, proto.dst, None)))
    else Fail(n, NotImplemented)
  }

  /** `ctx.send(..).unwrap()`. */
  function SendOrFail(n: Node, p: Payload): Node
    requires n.ctx.Some?
  {
    var l := CtxSend(n.ctx.value, p);
    if l.None? then Fail(n, SendFailed) else n.(ctx := l)
  }

  function ClientOnTick(n: Node): Node
    requires n.ctx.Some? && n.id.Some?
  {
    SendOrFail(n, Encoded(Handshake(n.id.value)))
  }

  function ClientOnCtrl(n: Node, m: Message): Node
    requires n.id.Some?
  {
    match m
    case Handshake(id) => if id == n.id.value then Finish(n) else n
    case _ => Fail(n, UnexpectedMessage)
  }

  function Decode(p: Payload): Option<Message> {
    match p
    case Encoded(m) => Some(m)
    case Data(_) => None
  }

  /** The server takes a message from its relay; the second result goes to the control stream. */
  function ServerOnDatagram(n: Node, hungUp: bool): (Node, seq<Message>)
    requires n.ctx.Some? && n.ctx.value.inbox != []
  {
    var (l, p) := CtxRecv(n.ctx.value);
    var n' := n.(ctx := Some(l));
    var m := Decode(p);
    if m.None? then (Fail(n', DecodePanic), [])
    else if m.value.Handshake? then
      if hungUp then (Fail(n', StreamClosed), []) else (Finish(n'), [Handshake(m.value.id)])
    else (Fail(n', UnexpectedMessage), [])
  }

  /** `handle_msg` of a ready runner. */
  function OnRunCtrl(side: Side, n: Node, m: Message): Node {
    if side == Server || m.NewTest? then Fail(n, NotImplemented) else n
  }

  // ----- The two runners, the streams and the network -----

  datatype Params = Params(id: nat, cfg: Config, clientAddr: Addr, cap: nat) {
    /** A UDP test between two different addresses. */
    predicate Valid() {
      cfg.proto.Udp? && clientAddr != cfg.proto.dst && cap > 0
    }

    function ServerAddr(): Addr
      requires cfg.proto.Udp?
    {
      cfg.proto.dst
    }
  }

  /** `gone` are the sides whose ends of the control streams the other side knows to be closed;
      `answers` is a history, of all that the server has written to its control stream. */
  datatype State = State(client: Node, server: Node, c2s: seq<Message>, s2c: seq<Message>, net: multiset<Datagram>,
                         gone: set<Side>, answers: seq<Message>) {
    function Get(side: Side): Node {
      if side == Client then client else server
    }

    function Put(side: Side, n: Node): State {
      if side == Client then this.(client := n) else this.(server := n)
    }
  }

  function Other(side: Side): Side {
    if side == Client then Server else Client
  }

  function Init(p: Params): State {
    State(Node(Begin, Some(p.id), Some(p.cfg), None), Node(Begin, None, None, None), [], [], multiset{}, {}, [])
  }

  /** The `k` of a step that reads a control stream is the number of queued messages the one
      unframed `read` returns; `bincode` decodes the first and the rest are lost. `Hangup` is the moment
      when the other side learns that `side` has dropped its streams, having failed: of what it wrote and
      the other has not read, only the first `kept` messages remain. `StreamEnds` is the first
      `read` of `setup` on a stream that has ended. */
  datatype Action =
    | ClientHello
    | ClientReply(k: nat)
    | ClientTick
    | ClientCtrl(k: nat)
    | ServerHello(k: nat)
    | ServerBind
    | ServerDatagram
    | TimedOut(side: Side)
    | RunPanics(side: Side)
    | RunTick(side: Side)
    | RunCtrl(side: Side, k: nat)
    | RunRecv(side: Side)
    | RelayOut(side: Side)
    | RelayIn(side: Side, d: Datagram)
    | RelayPush(side: Side)
    | RelayStop(side: Side)
    | StreamEnds(side: Side)
    | Hangup(side: Side, kept: nat)
    | Lose(d: Datagram)
    | Copy(d: Datagram)
  {
    predicate OfClient() {
      ClientHello? || ClientReply? || ClientTick? || ClientCtrl?
    }

    predicate OfServer() {
      ServerHello? || ServerBind? || ServerDatagram?
    }

    predicate OfRunner() {
      TimedOut? || RunPanics? || RunTick? || RunCtrl? || RunRecv?
    }

    predicate OfRelay() {
      RelayOut? || RelayIn? || RelayPush? || RelayStop?
    }

    predicate OfStreams() {
      StreamEnds? || Hangup?
    }
  }

  /** Configurations with which `run` reaches its loop: both options given, a timer period above
      zero, and no more than 65535 bytes. */
  predicate Starts(cfg: Config) {
    && cfg.interval.Some? && cfg.interval.value > 0
    && cfg.len.Some? && cfg.len.value <= 65535
  }

  /** Configurations whose packets a datagram can also hold. */
  predicate Usable(cfg: Config) {
    Starts(cfg) && cfg.len.value <= MAX_DATAGRAM
  }

  /** The runner is in the loop of `run`. */
  predicate Running(n: Node) {
    n.phase == Ready && n.testCfg.Some? && Starts(n.testCfg.value)
  }

  function ClientStep(p: Params, s: State, a: Action): Option<State> {
    match a
    case ClientHello =>
      if s.client.phase != Begin || s.client.id.None? || s.client.testCfg.None? then None
      else
        var (n, out) := ClientOnStart(s.client, Server in s.gone);
        Some(s.(client := n, c2s := s.c2s + out))
    case ClientReply(k) =>
      if s.client.phase != Exchanged || !(0 < k <= |s.s2c|) then None
      else Some(s.(client := ClientOnReply(s.client, s.s2c[0], p.cap, p.clientAddr), s2c := s.s2c[k..]))
    case ClientTick =>
      if s.client.phase != InLoop || s.client.ctx.None? || s.client.id.None? then None
      else Some(s.(client := ClientOnTick(s.client)))
    case ClientCtrl(k) =>
      if s.client.phase != InLoop || !(0 < k <= |s.s2c|) || s.client.id.None? then None
      else Some(s.(client := ClientOnCtrl(s.client, s.s2c[0]), s2c := s.s2c[k..]))
    case _ => None
  }

  function ServerStep(p: Params, s: State, a: Action): Option<State> {
    match a
    case ServerHello(k) =>
      if s.server.phase != Begin || !(0 < k <= |s.c2s|) then None
      else
        var (n, out) := ServerOnTest(s.server, s.c2s[0], Client in s.gone);
        Some(s.(server := n, c2s := s.c2s[k..], s2c := s.s2c + out, answers := s.answers + out))
    case ServerBind =>
      if s.server.phase != Exchanged || s.server.testCfg.None? then None
      else Some(s.(server := ServerOnBind(s.server, p.cap)))
    case ServerDatagram =>
      if s.server.phase != InLoop || s.server.ctx.None? || s.server.ctx.value.inbox == [] then None
      else
        var (n, out) := ServerOnDatagram(s.server, Client in s.gone);
        Some(s.(server := n, s2c := s.s2c + out, answers := s.answers + out))
    case _ => None
  }

  /** A handshake loop that times out, and `run`: the panics before its loop, and the branches of its
      `select!`. */
  function RunnerStep(s: State, a: Action): Option<State> {
    match a
    case TimedOut(side) =>
      if s.Get(side).phase != InLoop then None else Some(s.Put(side, Fail(s.Get(side), Timeout)))
    case RunPanics(side) =>
      if s.Get(side).phase != Ready || Running(s.Get(side)) then None
      else Some(s.Put(side, Fail(s.Get(side), ConfigPanic)))
    case RunTick(side) =>
      var n := s.Get(side);
      if !Running(n) || n.ctx.None? then None
      else Some(s.Put(side, SendOrFail(n, Data(n.testCfg.value.len.value))))
    case RunCtrl(side, k) =>
      var n := s.Get(side);
      var q := if side == Client then s.s2c else s.c2s;
      if !Running(n) || !(0 < k <= |q|) then None
      else
        var t := s.Put(side, OnRunCtrl(side, n, q[0]));
        Some(if side == Client then t.(s2c := q[k..]) else t.(c2s := q[k..]))
    case RunRecv(side) =>
      var n := s.Get(side);
      if !Running(n) || n.ctx.None? || n.ctx.value.inbox == [] then None
      else Some(s.Put(side, n.(ctx := Some(CtxRecv(n.ctx.value).0))))
    case _ => None
  }

  function RelayStep(s: State, a: Action): Option<State> {
    match a
    case RelayOut(side) =>
      var n := s.Get(side);
      if n.ctx.None? then None
      else
        var r := PollBroadcast(n.ctx.value);
        if r.None? then None
        else
          var t := s.Put(side, n.(ctx := Some(r.value.0)));
          Some(if r.value.1.Some? then t.(net := s.net + multiset{r.value.1.value}) else t)
    case RelayIn(side, d) =>
      var n := s.Get(side);
      if n.ctx.None? || d !in s.net || d.dst != n.ctx.value.local then None
      else
        var l := PollSocket(n.ctx.value, d);
        if l.None? then None else Some(s.Put(side, n.(ctx := l)).(net := s.net - multiset{d}))
    case RelayPush(side) =>
      var n := s.Get(side);
      if n.ctx.None? then None
      else
        var l := Push(n.ctx.value);
        if l.None? then None else Some(s.Put(side, n.(ctx := l)))
    case RelayStop(side) =>
      var n := s.Get(side);
      if n.ctx.None? then None
      else
        var l := PollStop(n.ctx.value);
        if l.None? then None else Some(s.Put(side, n.(ctx := l)))
    case _ => None
  }

  /** A side that failed drops its streams. The handshake loops and `run` only disable the
      branch that reads a stream which has ended; the first `read` of `setup` panics. */
  function StreamStep(s: State, a: Action): Option<State> {
    match a
    case StreamEnds(side) =>
      var n := s.Get(side);
      var q := if side == Client then s.s2c else s.c2s;
      if n.phase != (if side == Client then Exchanged else Begin) || q != [] || Other(side) !in s.gone then None
      else Some(s.Put(side, Fail(n, StreamClosed)))
    case Hangup(side, kept) =>
      if !s.Get(side).phase.Failed? || side in s.gone then None
      else if side == Client then
        if kept > |s.c2s| then None else Some(s.(gone := s.gone + {side}, c2s := s.c2s[..kept]))
      else
        if kept > |s.s2c| then None else Some(s.(gone := s.gone + {side}, s2c := s.s2c[..kept]))
    case _ => None
  }

  function NetworkStep(s: State, a: Action): Option<State> {
    match a
    case Lose(d) => if d in s.net then Some(s.(net := s.net - multiset{d})) else None
    case Copy(d) => if d in s.net then Some(s.(net := s.net + multiset{d})) else None
    case _ => None
  }

  function Do(p: Params, s: State, a: Action): Option<State> {
    if a.OfClient() then ClientStep(p, s, a)
    else if a.OfServer() then ServerStep(p, s, a)
    else if a.OfRunner() then RunnerStep(s, a)
    else if a.OfRelay() then RelayStep(s, a)
    else if a.OfStreams() then StreamStep(s, a)
    else NetworkStep(s, a)
  }

  function Run(p: Params, s: State, acts: seq<Action>): Option<State> {
    if acts == [] then Some(s)
    else
      var r := Run(p, s, acts[..|acts| - 1]);
      if r.None? then None else Do(p, r.value, acts[|acts| - 1])
  }

  ghost predicate Reachable(p: Params, s: State) {
    exists acts :: Run(p, Init(p), acts) == Some(s)
  }
}
