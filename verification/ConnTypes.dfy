/** The objects of `latency/src/conn_types.rs`, updated in place as the source updates them, and
    each method proved to take the step of the same name in the model of the relay. */
module ConnTypes {
  import opened Prelude
  import opened Relay

  /** The receiver's view of the broadcast channel. */
  class BroadcastChannel {
    const cap: nat
    var unread: seq<Payload>
    var lagged: bool
    var senderOpen: bool
    var receiverOpen: bool

    constructor (cap: nat)
      ensures this.cap == cap && unread == [] && !lagged && senderOpen && receiverOpen
    {
      this.cap := cap;
      unread, lagged, senderOpen, receiverOpen := [], false, true, true;
    }
  }

  class MpscChannel {
    var inbox: seq<Payload>
    var senderOpen: bool

    constructor ()
      ensures inbox == [] && senderOpen
    {
      inbox, senderOpen := [], true;
    }
  }

  class UdpLatency {
    const local: Addr
    var peer: Option<Addr>

    constructor (local: Addr, peer: Option<Addr>)
      ensures this.local == local && this.peer == peer
    {
      this.local, this.peer := local, peer;
    }

    /** `None` is the failed `unwrap` of an unset peer, or the socket's error over too much data. */
    method Send(buf: Payload) returns (d: Option<Datagram>)
      ensures d.Some? <==> peer.Some? && Fits(buf)
      ensures d.Some? ==> d.value.src == local && peer == Some(d.value.dst) && d.value.payload == buf
    {
      if peer.None? || !Fits(buf) {
        return None;
      }
      d := Some(Datagram(local, peer.value, buf));
    }

    /** Takes the first sender as the peer; later datagrams must come from it. */
    method Recv(d: Datagram) returns (ok: bool)
      modifies this
      ensures ok <==> old(peer).None? || old(peer) == Some(d.src)
      ensures peer == if old(peer).None? then Some(d.src) else old(peer)
    {
      if peer.Some? {
        if d.src != peer.value {
          return false;
        }
      } else {
        peer := Some(d.src);
      }
      ok := true;
    }
  }

  /** Wake-ups offered one after the other, with what is sent; one whose branch is not ready
      changes nothing. */
  function Offered(l: Link, ws: seq<Wakeup>): (Link, seq<Datagram>) {
    if ws == [] then (l, [])
    else
      var (m, sent) := Offered(l, ws[..|ws| - 1]);
      match Woken(m, ws[|ws| - 1])
      case None => (m, sent)
      case Some((m', out)) => (m', if out.Some? then sent + [out.value] else sent)
  }

  /** The relay task. `model` is its state in the model of the relay, histories included. */
  class ConnRunner {
    const tx: BroadcastChannel
    const rx: MpscChannel
    const socket: UdpLatency
    var task: Task
    ghost var model: Link

    ghost predicate Valid()
      reads this, tx, rx, socket
    {
      && model.cap == tx.cap && model.open == tx.senderOpen
      && model.unread == tx.unread && model.lagged == tx.lagged
      && model.inbox == rx.inbox && (rx.senderOpen <==> !task.Dead?)
      && model.local == socket.local && model.peer == socket.peer
      && model.task == task && (tx.receiverOpen <==> !task.Dead?)
    }

    constructor (tx: BroadcastChannel, rx: MpscChannel, socket: UdpLatency)
      requires tx.unread == [] && !tx.lagged && tx.senderOpen && tx.receiverOpen
      requires rx.inbox == [] && rx.senderOpen
      ensures this.tx == tx && this.rx == rx && this.socket == socket
      ensures Valid() && model == NewLink(tx.cap, socket.local, socket.peer)
    {
      this.tx, this.rx, this.socket := tx, rx, socket;
      task := Selecting;
      model := NewLink(tx.cap, socket.local, socket.peer);
    }

    /** The relay ends, and with it its ends of the two channels. */
    method Die(why: End)
      modifies this`task, tx`receiverOpen, rx`senderOpen
      ensures task == Dead(why) && !tx.receiverOpen && !rx.senderOpen
    {
      task := Dead(why);
      tx.receiverOpen, rx.senderOpen := false, false;
    }

    /** The branch `Ok(msg) = self.tx.recv()`: a pattern that does not match disables it. */
    method OnBroadcast() returns (out: Option<Datagram>)
      requires Valid() && PollBroadcast(model).Some?
      modifies this, tx, rx
      ensures Valid() && (model, out) == PollBroadcast(old(model)).value
    {
      out := None;
      ghost var next := PollBroadcast(model).value.0;
      if tx.lagged {
        tx.lagged := false;
        task := Deaf;
      } else if tx.unread != [] {
        var msg := tx.unread[0];
        out := socket.Send(msg);
        if out.None? {
          Die(if socket.peer.None? then PeerUnset else SendError);
        } else {
          tx.unread := tx.unread[1..];
        }
      } else {
        task := Deaf;
      }
      model := next;
    }

    /** The branch `len = self.socket.recv(..)`, up to the push. */
    method OnSocket(d: Datagram)
      requires Valid() && PollSocket(model, d).Some?
      modifies this, tx, rx, socket
      ensures Valid() && model == PollSocket(old(model), d).value
    {
      ghost var next := PollSocket(model, d).value;
      var ok := socket.Recv(d);
      if ok {
        task := Pushing(d.payload);
      } else {
        Die(WrongAddress);
      }
      model := next;
    }

    /** `self.rx.send(recvbuf).await`, once it can proceed. */
    method OnRoom()
      requires Valid() && Push(model).Some?
      modifies this, tx, rx
      ensures Valid() && model == Push(old(model)).value
    {
      ghost var next := Push(model).value;
      if !tx.senderOpen {
        Die(ReceiverGone);
      } else {
        rx.inbox := rx.inbox + [task.p];
        task := Selecting;
      }
      model := next;
    }

    /** The branch `_ = &mut self.stop`, once the context is dropped. */
    method OnStop()
      requires Valid() && PollStop(model).Some?
      modifies this, tx, rx
      ensures Valid() && model == PollStop(old(model)).value
    {
      Die(Stopped);
      model := model.(task := Dead(Stopped));
    }

    /** One turn of the relay. */
    method Turn(w: Wakeup) returns (out: Option<Datagram>)
      requires Valid() && Woken(model, w).Some?
      modifies this, tx, rx, socket
      ensures Valid() && Some((model, out)) == Woken(old(model), w)
    {
      out := None;
      match w {
        case Channel => out := OnBroadcast();
        case Arrival(d) => OnSocket(d);
        case Room => OnRoom();
        case StopSignal => OnStop();
      }
    }

    /** The loop of the relay. `wakeups` is what the scheduler offers it: a wake-up for a branch that
        is not ready changes nothing. `steps` are the ones that took effect, `sent` what went to
        the network. */
    method Run(wakeups: seq<Wakeup>) returns (sent: seq<Datagram>, ghost steps: seq<Op>)
      requires Valid()
      modifies this, tx, rx, socket
      ensures Valid() && (model, sent) == Offered(old(model), wakeups) && LinkRun(old(model), steps) == Some(model)
      ensures |sent| + |old(model.emitted)| == |model.emitted|
      ensures forall i :: 0 <= i < |sent| ==>
                && sent[i].src == socket.local && socket.peer == Some(sent[i].dst)
                && sent[i].payload == model.emitted[|old(model.emitted)| + i]
    {
      sent, steps := [], [];
      for i := 0 to |wakeups|
        invariant Valid() && (model, sent) == Offered(old(model), wakeups[..i])
        invariant LinkRun(old(model), steps) == Some(model)
        invariant |sent| + |old(model.emitted)| == |model.emitted|
        invariant forall i :: 0 <= i < |sent| ==>
                    && sent[i].src == socket.local && socket.peer == Some(sent[i].dst)
                    && sent[i].payload == model.emitted[|old(model.emitted)| + i]
      {
        var w := wakeups[i];
        var ready := Ready(w);
        assert wakeups[..i + 1][..i] == wakeups[..i];
        if ready {
          ghost var before := model;
          var out := Turn(w);
          TurnEmits(before, w);
          if out.Some? {
            sent := sent + [out.value];
          }
          assert (steps + [w.AsOp()])[..|steps|] == steps;
          steps := steps + [w.AsOp()];
        }
      }
      assert wakeups[..|wakeups|] == wakeups;
    }

    /** Whether the branch a wake-up is for can run now. */
    function Ready(w: Wakeup): (r: bool)
      requires Valid()
      reads this, tx, rx, socket
      ensures r <==> Woken(model, w).Some?
    {
      match w
      case Channel => task == Selecting && (tx.lagged || tx.unread != [] || !tx.senderOpen)
      case Arrival(_) => task == Selecting || task == Deaf
      case Room => task.Pushing? && (!tx.senderOpen || |rx.inbox| < MPSC_SIZE)
      case StopSignal => (task == Selecting || task == Deaf) && !tx.senderOpen
    }
  }

  /** A turn sends at most the next message, to the relay's peer. */
  lemma TurnEmits(l: Link, w: Wakeup)
    requires Woken(l, w).Some?
    ensures var (m, out) := Woken(l, w).value;
            && LinkStep(l, w.AsOp()) == Some(m)
            && m.local == l.local && (l.peer.Some? ==> m.peer == l.peer)
            && m.emitted == l.emitted + (if out.Some? then [out.value.payload] else [])
            && (out.Some? ==> out.value.src == l.local && l.peer == Some(out.value.dst))
  {
  }

  datatype Received = Got(buf: Payload) | Closed | Waits

  /** The application's ends of the two channels. */
  class ConnCtx {
    const tx: BroadcastChannel
    const rx: MpscChannel
    const runner: ConnRunner

    ghost predicate Valid()
      reads this, runner, runner.tx, runner.rx, runner.socket
    {
      tx == runner.tx && rx == runner.rx && runner.Valid()
    }

    constructor (tx: BroadcastChannel, rx: MpscChannel, runner: ConnRunner)
      requires tx == runner.tx && rx == runner.rx && runner.Valid()
      ensures Valid() && this.runner == runner
    {
      this.tx, this.rx, this.runner := tx, rx, runner;
    }

    /** `false` is the error of a channel without receiver; a full channel overwrites its
        oldest message. */
    method Send(buf: Payload) returns (ok: bool)
      requires Valid()
      modifies tx, runner
      ensures Valid() && (ok <==> CtxSend(old(runner.model), buf).Some?)
      ensures runner.model == if ok then CtxSend(old(runner.model), buf).value else old(runner.model)
    {
      if !tx.receiverOpen {
        return false;
      }
      ghost var next := CtxSend(runner.model, buf).value;
      tx.unread := tx.unread + [buf];
      if |tx.unread| > tx.cap {
        tx.unread := tx.unread[1..];
        tx.lagged := true;
      }
      runner.model := next;
      ok := true;
    }

    /** The oldest message; without one the caller waits, or learns that the relay has ended. */
    method Recv() returns (r: Received)
      requires Valid()
      modifies rx`inbox, runner`model
      ensures Valid()
      ensures match r
              case Got(buf) => old(runner.model.inbox) != [] && (runner.model, buf) == CtxRecv(old(runner.model))
              case Closed => old(runner.model.inbox) == [] && old(runner.model.task.Dead?)
              case Waits => old(runner.model.inbox) == [] && !old(runner.model.task.Dead?)
      ensures !r.Got? ==> runner.model == old(runner.model)
    {
      if rx.inbox == [] {
        return if rx.senderOpen then Waits else Closed;
      }
      ghost var next := CtxRecv(runner.model).0;
      r := Got(rx.inbox[0]);
      rx.inbox := rx.inbox[1..];
      runner.model := next;
    }

    /** The context is dropped with its runner. */
    method Drop()
      requires Valid()
      modifies tx, runner
      ensures Valid() && runner.model == Close(old(runner.model))
    {
      tx.senderOpen := false;
      runner.model := Close(runner.model);
    }
  }
}
