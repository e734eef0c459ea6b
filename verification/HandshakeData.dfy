/** What the two runners give to their relays and take from them: handshakes until the client is ready, and then
    the test's data, nothing else. */
module HandshakeData {
  import opened Prelude
  import opened Relay
  import opened Handshake
  import opened HandshakeInvariant
  import opened HandshakePhases
  import opened HandshakeRelays
  import opened HandshakeSafety

  // ----- One tick, one message -----

  /** In every reachable state a tick of the timer of `run` gives the test's data to the relay, as long
      as the relay lives; over a relay that has ended the runner fails. */
  lemma RunTickGivesData(p: Params, s: State, side: Side)
    requires p.Valid() && Reachable(p, s) && s.Get(side).phase == Ready && Starts(p.cfg)
    ensures s.Get(side).ctx.Some? && Do(p, s, RunTick(side)).Some?
    ensures var n, t := s.Get(side), Do(p, s, RunTick(side)).value;
            if n.ctx.value.task.Dead? then t.Get(side).phase == Failed(SendFailed)
            else t.Get(side).phase == Ready && t.Get(side).ctx.Some?
                 && t.Get(side).ctx.value.given == n.ctx.value.given + [Data(p.cfg.len.value)]
  {
    ReachableInv(p, s);
  }

  /** And a tick in the client's handshake loop gives its handshake. */
  lemma LoopTickGivesHandshake(p: Params, s: State)
    requires p.Valid() && Reachable(p, s) && s.client.phase == InLoop
    ensures s.client.ctx.Some? && Do(p, s, ClientTick).Some?
    ensures var t := Do(p, s, ClientTick).value;
            && t.client.phase == InLoop && t.client.ctx.Some?
            && t.client.ctx.value.given == s.client.ctx.value.given + [Encoded(Message.Handshake(p.id))]
  {
    ReachableInv(p, s);
    GiveKeepsLink(s.client.ctx.value, Encoded(Message.Handshake(p.id)), WireOf(p, s, Client));
  }

  /** A ready runner can always take what its relay has queued, the oldest first. */
  lemma RunTakesFromRelay(p: Params, s: State, side: Side)
    requires p.Valid() && Reachable(p, s) && s.Get(side).phase == Ready && Starts(p.cfg)
    ensures s.Get(side).ctx.Some?
    ensures Do(p, s, RunRecv(side)).Some? <==> s.Get(side).ctx.value.inbox != []
    ensures Do(p, s, RunRecv(side)).Some? ==>
              Took(s.Get(side).ctx.value, Do(p, s, RunRecv(side)).value.Get(side).ctx)
  {
    ReachableInv(p, s);
    if s.Get(side).ctx.value.inbox != [] {
      RunRecvTakes(s, side);
    }
  }

  /** The oldest message has gone from the channel to the runner. */
  predicate Took(l: Link, m: Option<Link>) {
    && m.Some? && l.inbox != []
    && m.value.returned == l.returned + [l.inbox[0]] && m.value.inbox == l.inbox[1..]
  }

  lemma RunRecvTakes(s: State, side: Side)
    requires Running(s.Get(side)) && s.Get(side).ctx.Some? && s.Get(side).ctx.value.inbox != []
    ensures RunnerStep(s, RunRecv(side)).Some?
    ensures Took(s.Get(side).ctx.value, RunnerStep(s, RunRecv(side)).value.Get(side).ctx)
  {
  }

  // ----- Everything ever given -----

  /** First `k` handshakes, then test data. */
  predicate HandshakesThenData(p: Params, given: seq<Payload>, k: nat) {
    && k <= |given|
    && AllAre(given[..k], Encoded(Message.Handshake(p.id)))
    && (k < |given| ==> Starts(p.cfg) && AllAre(given[k..], Data(p.cfg.len.value)))
  }

  /** The server gives no handshake, and neither side data before it is ready. */
  ghost predicate GivenInv(p: Params, s: State, side: Side) {
    s.Get(side).ctx.Some? ==>
      exists k :: HandshakesThenData(p, s.Get(side).ctx.value.given, k) && (side == Server ==> k == 0)
                  && (!BeenReady(s.Get(side)) ==> k == |s.Get(side).ctx.value.given|)
  }

  /** What a step adds to what a side has given. */
  function Gives(p: Params, s: State, a: Action, side: Side): seq<Payload> {
    if OpsOf(p, s, a, side) != [] && OpsOf(p, s, a, side)[0].Give? then [OpsOf(p, s, a, side)[0].p] else []
  }

  lemma OpGives(l: Link, op: Op)
    requires LinkStep(l, op).Some?
    ensures LinkStep(l, op).value.given == l.given + (if op.Give? then [op.p] else [])
  {
  }

  lemma OpsGive(l: Link, ops: seq<Op>, m: Link)
    requires LinkRun(l, ops) == Some(m) && (|ops| <= 1 || ops == [Take, Drop])
    ensures m.given == l.given + (if ops != [] && ops[0].Give? then [ops[0].p] else [])
  {
    if |ops| == 0 {
      assert l.given + [] == l.given;
    } else if |ops| == 1 {
      assert ops == [ops[0]];
      OneOp(l, ops[0]);
      OpGives(l, ops[0]);
    } else {
      TakeThenDropGivesNothing(l);
    }
  }

  lemma MoveGives(l: Link, ops: seq<Op>, after: Option<Link>)
    requires LinkMoves(Some(l), after, ops) && after.Some? && (|ops| <= 1 || ops == [Take, Drop])
    ensures after.value.given == l.given + (if ops != [] && ops[0].Give? then [ops[0].p] else [])
  {
    OpsGive(l, ops, after.value);
  }

  lemma StepGives(p: Params, s: State, a: Action, side: Side)
    requires p.Valid() && Inv(p, s) && Do(p, s, a).Some? && s.Get(side).ctx.Some?
    ensures Do(p, s, a).value.Get(side).ctx.Some?
    ensures Do(p, s, a).value.Get(side).ctx.value.given == s.Get(side).ctx.value.given + Gives(p, s, a, side)
  {
    StepMovesLinks(p, s, a, side);
    StepKeepsConnection(p, s, a, side);
    MoveGives(s.Get(side).ctx.value, OpsOf(p, s, a, side), Do(p, s, a).value.Get(side).ctx);
  }

  lemma TakeThenDropGivesNothing(l: Link)
    requires LinkRun(l, [Take, Drop]).Some?
    ensures LinkRun(l, [Take, Drop]).value.given == l.given
  {
    assert [Take, Drop][..1] == [Take];
    OneOp(l, Take);
  }

  lemma DataJoins(p: Params, given: seq<Payload>, k: nat)
    requires HandshakesThenData(p, given, k) && Starts(p.cfg)
    ensures HandshakesThenData(p, given + [Data(p.cfg.len.value)], k)
  {
    var more := given + [Data(p.cfg.len.value)];
    assert more[..k] == given[..k] && more[k..] == given[k..] + [Data(p.cfg.len.value)];
  }

  lemma HandshakeJoins(p: Params, given: seq<Payload>)
    requires HandshakesThenData(p, given, |given|)
    ensures HandshakesThenData(p, given + [Encoded(Message.Handshake(p.id))], |given| + 1)
  {
    var more := given + [Encoded(Message.Handshake(p.id))];
    assert given[..|given|] == given && more[..|more|] == more;
  }

  /** Handshakes are given before the client is ready only, and data after. */
  lemma WhoGives(p: Params, s: State, a: Action, side: Side)
    requires p.Valid() && Inv(p, s) && Do(p, s, a).Some?
    ensures Gives(p, s, a, side) == []
         || (Gives(p, s, a, side) == [Encoded(Message.Handshake(p.id))] && side == Client && s.client.phase == InLoop)
         || (Starts(p.cfg) && Gives(p, s, a, side) == [Data(p.cfg.len.value)] && s.Get(side).phase == Ready)
    ensures Gives(p, s, a, side) != [] ==> Do(p, s, a).value.Get(side).phase == s.Get(side).phase
  {
    if a == ClientTick && side == Client {
      GiveKeepsLink(s.client.ctx.value, Encoded(Message.Handshake(p.id)), WireOf(p, s, Client));
    }
  }

  lemma NothingGivenYet(p: Params)
    ensures HandshakesThenData(p, [], 0)
  {
  }

  lemma FreshLink(p: Params, s: State, a: Action, side: Side)
    requires p.Valid() && Inv(p, s) && Do(p, s, a).Some? && s.Get(side).ctx.None?
    ensures Do(p, s, a).value.Get(side).ctx.Some? ==> Do(p, s, a).value.Get(side).ctx.value.given == []
  {
    StepMovesLinks(p, s, a, side);
  }

  lemma ReadyAgain(p: Params, s: State, a: Action, side: Side)
    requires p.Valid() && Inv(p, s) && Do(p, s, a).Some? && BeenReady(s.Get(side))
    ensures BeenReady(Do(p, s, a).value.Get(side))
  {
    BeenReadyStays(p, s, a, side);
  }

  lemma StepKeepsGiven(p: Params, s: State, a: Action, side: Side)
    requires p.Valid() && Inv(p, s) && Do(p, s, a).Some? && GivenInv(p, s, side)
    ensures GivenInv(p, Do(p, s, a).value, side)
  {
    var t := Do(p, s, a).value;
    if s.Get(side).ctx.None? {
      FreshLink(p, s, a, side);
      NothingGivenYet(p);
    } else {
      StepGives(p, s, a, side);
      WhoGives(p, s, a, side);
      if BeenReady(s.Get(side)) {
        ReadyAgain(p, s, a, side);
      }
      GivenGrows(p, s, t, Gives(p, s, a, side), side);
    }
  }

  lemma GivenGrows(p: Params, s: State, t: State, more: seq<Payload>, side: Side)
    requires s.Get(side).ctx.Some? && t.Get(side).ctx.Some? && GivenInv(p, s, side)
    requires t.Get(side).ctx.value.given == s.Get(side).ctx.value.given + more
    requires BeenReady(s.Get(side)) ==> BeenReady(t.Get(side))
    requires more != [] ==> t.Get(side).phase == s.Get(side).phase
    requires || more == []
             || (more == [Encoded(Message.Handshake(p.id))] && side == Client && s.client.phase == InLoop)
             || (Starts(p.cfg) && more == [Data(p.cfg.len.value)] && s.Get(side).phase == Ready)
    ensures GivenInv(p, t, side)
  {
    var given := s.Get(side).ctx.value.given;
    var k :| HandshakesThenData(p, given, k) && (side == Server ==> k == 0)
             && (!BeenReady(s.Get(side)) ==> k == |given|);
    if more == [] {
      assert given + more == given;
      assert HandshakesThenData(p, t.Get(side).ctx.value.given, k);
    } else if s.Get(side).phase == Ready {
      DataJoins(p, given, k);
    } else {
      HandshakeJoins(p, given);
    }
  }

  lemma {:induction false} RunKeepsGiven(p: Params, acts: seq<Action>, side: Side)
    requires p.Valid() && Run(p, Init(p), acts).Some?
    ensures Inv(p, Run(p, Init(p), acts).value) && GivenInv(p, Run(p, Init(p), acts).value, side)
  {
    if acts != [] {
      var init, a := acts[..|acts| - 1], acts[|acts| - 1];
      RunKeepsGiven(p, init, side);
      StepKeepsGiven(p, Run(p, Init(p), init).value, a, side);
      DoKeeps(p, Run(p, Init(p), init).value, a);
    }
  }

  /** In every reachable state everything a side has ever given to its relay is some number of the client's
      handshakes, none on the server's side, followed by data of the configured length, none before the side
      was ready. */
  lemma GivenIsHandshakesThenData(p: Params, s: State, side: Side)
    requires p.Valid() && Reachable(p, s) && s.Get(side).ctx.Some?
    ensures exists k :: HandshakesThenData(p, s.Get(side).ctx.value.given, k) && (side == Server ==> k == 0)
                        && (!BeenReady(s.Get(side)) ==> k == |s.Get(side).ctx.value.given|)
  {
    var acts :| Run(p, Init(p), acts) == Some(s);
    RunKeepsGiven(p, acts, side);
  }

  lemma OneStepOfData(p: Params, s: State, a: Action, side: Side) returns (more: seq<Payload>)
    requires p.Valid() && Inv(p, s) && BeenReady(s.Get(side)) && Do(p, s, a).Some?
    ensures s.Get(side).ctx.Some? && Do(p, s, a).value.Get(side).ctx.Some?
    ensures Inv(p, Do(p, s, a).value) && BeenReady(Do(p, s, a).value.Get(side))
    ensures Do(p, s, a).value.Get(side).ctx.value.given == s.Get(side).ctx.value.given + more
    ensures more == [] || (Starts(p.cfg) && more == [Data(p.cfg.len.value)])
  {
    StepGives(p, s, a, side);
    WhoGives(p, s, a, side);
    ReadyAgain(p, s, a, side);
    DoKeeps(p, s, a);
    more := Gives(p, s, a, side);
  }

  /** `after` is `before` and then only data of the configured length. */
  predicate OnlyDataMore(p: Params, before: seq<Payload>, after: seq<Payload>) {
    before <= after && (after != before ==> Starts(p.cfg) && AllAre(after[|before|..], Data(p.cfg.len.value)))
  }

  lemma TailGrows(p: Params, before: seq<Payload>, after: seq<Payload>, more: seq<Payload>)
    requires OnlyDataMore(p, before, after) && (more == [] || (Starts(p.cfg) && more == [Data(p.cfg.len.value)]))
    ensures OnlyDataMore(p, before, after + more)
  {
    assert (after + more)[|before|..] == after[|before|..] + more;
  }

  /** Once a side is ready, it gives data of the configured length, whatever happens, and nothing else. */
  lemma {:induction false} OnlyDataOnceReady(p: Params, s: State, acts: seq<Action>, side: Side)
    requires p.Valid() && Inv(p, s) && BeenReady(s.Get(side)) && Run(p, s, acts).Some?
    ensures s.Get(side).ctx.Some? && Run(p, s, acts).value.Get(side).ctx.Some?
    ensures Inv(p, Run(p, s, acts).value) && BeenReady(Run(p, s, acts).value.Get(side))
    ensures OnlyDataMore(p, s.Get(side).ctx.value.given, Run(p, s, acts).value.Get(side).ctx.value.given)
  {
    if acts != [] {
      OnlyDataOnceReady(p, s, acts[..|acts| - 1], side);
      var t := Run(p, s, acts[..|acts| - 1]).value;
      var more := OneStepOfData(p, t, acts[|acts| - 1], side);
      TailGrows(p, s.Get(side).ctx.value.given, t.Get(side).ctx.value.given, more);
    }
  }
}
