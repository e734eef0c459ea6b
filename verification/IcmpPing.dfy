/** The ICMP ping client (`ping/src/icmp.rs`): the payload written in place, the receive
    filter and decoder, and what reaches the log. */
module IcmpPing {
  import opened Prelude
  import opened Statistics
  import opened LogTask
  import opened IcmpWire

  // ----- Sending -----

  /** How `run` starts for a configured length `len`: the payload is `len - 8` zero bytes. */
  datatype Start = LengthUnderflow | TooSmall | Started(payloadLen: nat)

  function StartFor(len: nat): Start {
    if len < 8 then LengthUnderflow
    else if len - 8 < 16 then TooSmall
    else Started(len - 8)
  }

  /** What the two in-place writes leave in a payload of at least 32 bytes. */
  function Filled(payload: seq<byte>, ts: nat, counter: nat): seq<byte>
    requires |payload| >= 32
  {
    ToBe(16, ts) + ToBe(16, counter) + payload[32..]
  }

  function Ping(identifier: nat, payload: seq<byte>, ts: nat, counter: nat): seq<byte>
    requires |payload| >= 32
  {
    Request(identifier, counter % U16, Filled(payload, ts, counter))
  }

  /** `payload[at..at + |bs|].copy_from_slice(bs)`; `false` is the out-of-range panic. */
  method CopyInto(payload: array<byte>, at: nat, bs: seq<byte>) returns (ok: bool)
    modifies payload
    ensures ok <==> at + |bs| <= payload.Length
    ensures payload[..] == if ok then old(payload[..at]) + bs + old(payload[at + |bs|..]) else old(payload[..])
  {
    if at + |bs| > payload.Length {
      return false;
    }
    ghost var was := payload[..];
    forall i | 0 <= i < |bs| {
      payload[at + i] := bs[i];
    }
    assert payload[..] == was[..at] + bs + was[at + |bs|..];
    ok := true;
  }

  /** Both writes of one ping; `false` is the panic over a payload without room for the second. */
  method FillPayload(payload: array<byte>, ts: nat, counter: nat) returns (ok: bool)
    modifies payload
    ensures ok <==> payload.Length >= 32
    ensures ok ==> payload[..] == Filled(old(payload[..]), ts, counter)
  {
    ghost var before := payload[..];
    ok := CopyInto(payload, 0, ToBe(16, ts));
    if ok {
      ok := CopyInto(payload, 16, ToBe(16, counter));
      if ok {
        TwoWrites(before, ToBe(16, ts), ToBe(16, counter));
      }
    }
  }

  lemma TwoWrites(before: seq<byte>, a: seq<byte>, b: seq<byte>)
    requires |before| >= 32 && |a| == 16 == |b|
    ensures var once := before[..0] + a + before[16..];
            |once| == |before| && once[..16] + b + once[32..] == a + b + before[32..]
  {
    var once := before[..0] + a + before[16..];
    assert once[..16] == a && once[32..] == before[32..];
  }

  /** Filling depends on the tail only, which it keeps: the buffer can be reused. */
  lemma FilledAgain(payload: seq<byte>, ts: nat, counter: nat, ts': nat, counter': nat)
    requires |payload| >= 32
    ensures |Filled(payload, ts, counter)| == |payload|
    ensures Filled(Filled(payload, ts, counter), ts', counter') == Filled(payload, ts', counter')
  {
    assert Filled(payload, ts, counter)[32..] == payload[32..];
  }

  /** The send task for the clock readings it makes, up to the configured count. It panics at
      the first ping exactly when the payload lacks the second field, and otherwise sends ping
      after ping, reusing the one payload buffer. */
  method SendTask(payload: array<byte>, identifier: nat, count: Option<nat>, clock: seq<nat>)
    returns (panicked: bool, packets: seq<seq<byte>>)
    modifies payload
    ensures var n := if count.Some? && count.value < |clock| then count.value else |clock|;
            && (panicked <==> n > 0 && payload.Length < 32)
            && |packets| == (if panicked then 0 else n)
            && forall i :: 0 <= i < |packets| ==> packets[i] == Ping(identifier, old(payload[..]), clock[i], i)
  {
    var sendCounter := 0;
    panicked, packets := false, [];
    ghost var before := payload[..];
    while sendCounter < |clock| && (count.None? || sendCounter < count.value)
      invariant sendCounter == |packets| <= |clock| && (count.Some? ==> sendCounter <= count.value)
      invariant sendCounter == 0 ==> payload[..] == before
      invariant sendCounter > 0 ==>
                  |before| >= 32 && payload[..] == Filled(before, clock[sendCounter - 1], sendCounter - 1)
      invariant forall i :: 0 <= i < |packets| ==> packets[i] == Ping(identifier, before, clock[i], i)
    {
      if sendCounter > 0 {
        FilledAgain(before, clock[sendCounter - 1], sendCounter - 1, clock[sendCounter], sendCounter);
      }
      var ok := FillPayload(payload, clock[sendCounter], sendCounter);
      if !ok {
        panicked := true;
        return;
      }
      var packet := Request(identifier, sendCounter % U16, payload[..]);
      assert packet == Ping(identifier, before, clock[sendCounter], sendCounter);
      packets := packets + [packet];
      sendCounter := sendCounter + 1;
    }
  }

  /** `run` up to the end of its send task. The length check admits payloads without room for the second
      field: the send task then panics, exactly for lengths from 24 to 39, at the first ping due. */
  method Run(len: nat, identifier: nat, count: Option<nat>, clock: seq<nat>)
    returns (start: Start, panicked: bool, packets: seq<seq<byte>>)
    ensures start == if len < 8 then LengthUnderflow else if len < 24 then TooSmall else Started(len - 8)
    ensures var n := if count.Some? && count.value < |clock| then count.value else |clock|;
            && (panicked <==> 24 <= len < 40 && n > 0)
            && |packets| == (if len < 40 then 0 else n)
            && forall i :: 0 <= i < |packets| ==> packets[i] == Ping(identifier, Zeros(len - 8), clock[i], i)
  {
    start, panicked, packets := StartFor(len), false, [];
    if start.Started? {
      var payload := new byte[start.payloadLen](_ => 0);
      assert payload[..] == Zeros(len - 8);
      panicked, packets := SendTask(payload, identifier, count, clock);
    }
  }

  function Zeros(n: nat): (bs: seq<byte>)
    ensures |bs| == n && forall i :: 0 <= i < n ==> bs[i] == 0
  {
    seq(n, _ => 0)
  }

  // ----- Receiving -----

  datatype PingResult =
    PingResult(seqNo: nat, uniqueSeq: nat, ttl: byte, rtt: real, size: nat, sendTs: nat, recvTs: nat)

  /** What the receive task does with one buffer read from the raw socket. */
  datatype Outcome = Logged(result: PingResult) | Skipped | HeaderError | Panicked

  /** `buf` is what was read, starting with a 20-byte IPv4 header; `now` is read just after. The
      task never stores `now` in the result, so `recvTs` keeps its initial zero. */
  function ReceiveOne(identifier: nat, buf: seq<byte>, now: nat): Outcome {
    if |buf| < 20 then Panicked
    else if |buf| < 28 then HeaderError
    else
      var icmp := buf[20..];
      if icmp[0] != ECHO_REPLY || icmp[1] != 0 then Skipped
      else if FromBe(icmp[4..6]) != identifier then Skipped
      else
        var data := icmp[8..];
        if |data| < 16 then Panicked
        else
          var sendTs := FromBe(data[..16]);
          if now < sendTs || |data| < 32 then Panicked
          else
            Logged(PingResult(FromBe(icmp[6..8]), FromBe(data[16..32]), buf[8],
                              (now - sendTs) as real / 1000000.0, |buf|, sendTs, 0))
  }

  /** A message is skipped exactly when its type and code are not those of an echo reply, or its identifier is
      another's; a short read and a payload without both fields, or from the future, end the task; and
      everything else is logged. */
  lemma ReceiveVerdict(identifier: nat, buf: seq<byte>, now: nat)
    ensures var o := ReceiveOne(identifier, buf, now);
            && (|buf| < 28 ==> o == if |buf| < 20 then Panicked else HeaderError)
            && (|buf| >= 28 ==>
                  && (o.Skipped? <==>
                        buf[20] != 0 || buf[21] != 0 || 256 * buf[24] as nat + buf[25] as nat != identifier)
                  && (o.Panicked? <==> !o.Skipped? && (|buf| < 60 || now < FromBe(buf[28..44])))
                  && !o.HeaderError?)
  {
    if |buf| >= 28 {
      FieldsAreSlices(buf);
    }
  }

  /** Where the fields are, counted from the start of the IP header. */
  lemma FieldsAreSlices(buf: seq<byte>)
    requires |buf| >= 28
    ensures FromBe(buf[20..][4..6]) == 256 * buf[24] as nat + buf[25] as nat
    ensures FromBe(buf[20..][6..8]) == 256 * buf[26] as nat + buf[27] as nat
    ensures buf[20..][8..] == buf[28..]
    ensures |buf| >= 44 ==> buf[20..][8..][..16] == buf[28..44]
    ensures |buf| >= 60 ==> buf[20..][8..][16..32] == buf[44..60]
  {
    assert buf[20..][4..6] == [buf[24], buf[25]] && buf[20..][6..8] == [buf[26], buf[27]];
    TwoBytes(buf[24], buf[25]);
    TwoBytes(buf[26], buf[27]);
  }

  lemma TwoBytes(hi: byte, lo: byte)
    ensures FromBe([hi, lo]) == 256 * hi as nat + lo as nat
  {
    var both: seq<byte>, one: seq<byte> := [hi, lo], [hi];
    assert both[..1] == one && one[..0] == [];
    assert FromBe(one) == 256 * FromBe(one[..0]) + hi as nat;
  }

  /** What is logged: header number, both 128-bit fields, the IP header's time to live, and the
      round trip in milliseconds. */
  lemma LoggedFields(identifier: nat, buf: seq<byte>, now: nat)
    requires ReceiveOne(identifier, buf, now).Logged?
    ensures |buf| >= 60
    ensures var r := ReceiveOne(identifier, buf, now).result;
            && r.seqNo == 256 * buf[26] as nat + buf[27] as nat
            && r.sendTs == FromBe(buf[28..44]) <= now && r.uniqueSeq == FromBe(buf[44..60])
            && r.rtt == (now - r.sendTs) as real / 1000000.0
            && r.ttl == buf[8] && r.size == |buf| && r.recvTs == 0
  {
    FieldsAreSlices(buf);
  }

  /** A client that reads its own request, of type 8, skips it. */
  lemma OwnRequestIsSkipped(ip: seq<byte>, identifier: nat, payload: seq<byte>, ts: nat, counter: nat, now: nat)
    requires |ip| == 20 && |payload| >= 32
    ensures var buf := ip + Ping(identifier, payload, ts, counter);
            buf[20] == 8 && ReceiveOne(identifier, buf, now) == Skipped
  {
    var buf := ip + Ping(identifier, payload, ts, counter);
    assert buf[20] == Ping(identifier, payload, ts, counter)[0];
    ReceiveVerdict(identifier, buf, now);
  }

  /** The layout of a ping: type 8, code 0, checksum, identifier, sequence number, the stamp and the counter
      in big-endian order, and the rest of the payload. */
  lemma PingLayout(identifier: nat, payload: seq<byte>, ts: nat, counter: nat)
    requires |payload| >= 32 && identifier < U16
    ensures var packet := Ping(identifier, payload, ts, counter);
            && |packet| == 8 + |payload|
            && packet[0] == 8 && packet[1] == 0
            && 256 * packet[4] as nat + packet[5] as nat == identifier
            && 256 * packet[6] as nat + packet[7] as nat == counter % 65536
            && (ts < U128 ==> FromBe(packet[8..24]) == ts)
            && (counter < U128 ==> FromBe(packet[24..40]) == counter)
            && packet[40..] == payload[32..]
  {
    var packet, filled := Ping(identifier, payload, ts, counter), Filled(payload, ts, counter);
    var body := ToBe(2, identifier) + ToBe(2, counter % U16) + filled;
    assert packet[4..] == body;
    assert packet[4] == body[0] && packet[5] == body[1] && packet[6] == body[2] && packet[7] == body[3];
    assert packet[8..24] == body[4..20] == ToBe(16, ts);
    assert packet[24..40] == body[20..36] == ToBe(16, counter);
    assert packet[40..] == body[36..] == payload[32..];
    WidthOf16Bytes();
    BigEndianRoundTrip(16, ts);
    BigEndianRoundTrip(16, counter);
    TwoBytesOf(identifier);
    TwoBytesOf(counter % U16);
  }

  lemma TwoBytesOf(v: nat)
    requires v < U16
    ensures 256 * ToBe(2, v)[0] as nat + ToBe(2, v)[1] as nat == v
  {
    assert ToBe(1, v / 256) == [(v / 256 % 256) as byte];
  }

  /** The read ends the receive task: with a panic, or with the error of a header that is too
      short. */
  predicate Ends(o: Outcome) {
    o.HeaderError? || o.Panicked?
  }

  /** The receive loop over the reads it makes: it keeps the logged results in order and stops
      at the first read that ends the receive task. */
  method ReceiveTask(identifier: nat, inputs: seq<(seq<byte>, nat)>) returns (results: seq<PingResult>, used: nat)
    ensures used <= |inputs|
    ensures results == LoggedOf(identifier, inputs[..used])
    ensures forall i :: 0 <= i < used ==>
              var o := ReceiveOne(identifier, inputs[i].0, inputs[i].1); o.Skipped? || o.Logged?
    ensures used < |inputs| ==>
              var o := ReceiveOne(identifier, inputs[used].0, inputs[used].1); o.HeaderError? || o.Panicked?
  {
    results, used := [], 0;
    while used < |inputs|
      invariant used <= |inputs|
      invariant results == LoggedOf(identifier, inputs[..used])
      invariant forall i :: 0 <= i < used ==> !Ends(ReceiveOne(identifier, inputs[i].0, inputs[i].1))
    {
      var outcome := ReceiveOne(identifier, inputs[used].0, inputs[used].1);
      if Ends(outcome) {
        return;
      }
      assert inputs[..used + 1][..used] == inputs[..used];
      if outcome.Logged? {
        results := results + [outcome.result];
      }
      used := used + 1;
    }
  }

  /** The results of the logged reads, in order. */
  function LoggedOf(identifier: nat, inputs: seq<(seq<byte>, nat)>): (rs: seq<PingResult>)
    ensures forall r :: r in rs ==> r.recvTs == 0
    ensures |rs| <= |inputs|
  {
    if inputs == [] then []
    else
      var o := ReceiveOne(identifier, inputs[|inputs| - 1].0, inputs[|inputs| - 1].1);
      LoggedOf(identifier, inputs[..|inputs| - 1]) + (if o.Logged? then [o.result] else [])
  }

  /** Every read adds its result behind those of the earlier reads if it is logged, and nothing if it
      is not. */
  lemma {:induction false} LastReadIsLogged(identifier: nat, inputs: seq<(seq<byte>, nat)>, buf: seq<byte>, now: nat)
    ensures var o := ReceiveOne(identifier, buf, now);
            LoggedOf(identifier, inputs + [(buf, now)])
            == LoggedOf(identifier, inputs) + (if o.Logged? then [o.result] else [])
    ensures LoggedOf(identifier, []) == []
  {
    assert (inputs + [(buf, now)])[..|inputs|] == inputs;
  }

  // ----- Round trip -----

  /** The reply to a ping, behind any 20-byte IP header. */
  function Answer(ip: seq<byte>, identifier: nat, payload: seq<byte>, ts: nat, counter: nat): seq<byte>
    requires |payload| >= 32
  {
    ip + ReplyTo(Ping(identifier, payload, ts, counter))
  }

  lemma FieldsOfAnswer(ip: seq<byte>, identifier: nat, payload: seq<byte>, ts: nat, counter: nat)
    requires |ip| == 20 && |payload| >= 32
    ensures var buf := Answer(ip, identifier, payload, ts, counter);
            && |buf| == 28 + |payload| && buf[8] == ip[8]
            && buf[20] == ECHO_REPLY && buf[21] == 0
            && buf[20..][4..6] == ToBe(2, identifier)
            && buf[20..][6..8] == ToBe(2, counter % U16)
            && buf[20..][8..][..16] == ToBe(16, ts)
            && buf[20..][8..][16..32] == ToBe(16, counter)
  {
    var body := ToBe(2, identifier) + ToBe(2, counter % U16) + Filled(payload, ts, counter);
    var reply := Message(ECHO_REPLY, body);
    assert Ping(identifier, payload, ts, counter)[4..] == body;
    var buf := Answer(ip, identifier, payload, ts, counter);
    assert buf == ip + reply;
    assert buf[20..] == reply;
    assert reply[4..6] == body[..2] && reply[6..8] == body[2..4] && reply[8..] == body[4..];
    assert body[4..] == Filled(payload, ts, counter);
  }

  /** Decoding the answer to any ping, for all 128-bit stamps and counters and every payload the
      sender can fill, gives back exactly what was written, beside the wrapped header number. */
  lemma PingRoundTrip(ip: seq<byte>, identifier: nat, other: nat, payload: seq<byte>, ts: nat, counter: nat, now: nat)
    requires |ip| == 20 && |payload| >= 32
    requires identifier < U16 && ts < U128 && counter < U128 && ts <= now
    ensures ReceiveOne(other, Answer(ip, identifier, payload, ts, counter), now)
         == if other != identifier then Skipped
            else
              var rtt := (now - ts) as real / 1000000.0;
              Logged(PingResult(counter % U16, counter, ip[8], rtt, 28 + |payload|, ts, 0))
    ensures Fold(WordSum(Ping(identifier, payload, ts, counter))) == 0xFFFF
  {
    FieldsOfAnswer(ip, identifier, payload, ts, counter);
    WidthOf16Bytes();
    BigEndianRoundTrip(2, identifier);
    BigEndianRoundTrip(2, counter % U16);
    BigEndianRoundTrip(16, ts);
    BigEndianRoundTrip(16, counter);
    MessageVerifies(ECHO_REQUEST, ToBe(2, identifier) + ToBe(2, counter % U16) + Filled(payload, ts, counter));
  }

  /** The header number distinguishes two pings exactly when they are not a multiple of 65536
      apart, so any window of 65536 consecutive pings; the payload counter always does. */
  lemma HeaderNumberWraps(i: nat, j: nat)
    requires i < j
    ensures i % U16 == j % U16 <==> (j - i) % U16 == 0
    ensures j - i < U16 ==> i % U16 != j % U16
  {
  }

  // ----- What the log makes of it -----

  function EntriesOf(rs: seq<PingResult>): (es: seq<Entry>)
    ensures |es| == |rs| && forall i :: 0 <= i < |rs| ==> es[i] == Entry(rs[i].rtt, rs[i].recvTs)
  {
    if rs == [] then [] else EntriesOf(rs[..|rs| - 1]) + [Entry(rs[|rs| - 1].rtt, rs[|rs| - 1].recvTs)]
  }

  /** Whatever arrives and whenever: the log task never fails, and from two results on its
      inter-arrival statistic is zero in every field. */
  lemma IcmpInterArrivalIsZero(identifier: nat, inputs: seq<(seq<byte>, nat)>, st: Stats)
    requires st.samples == 0
    ensures var es := EntriesOf(LoggedOf(identifier, inputs));
            && LogRun(es).Some?
            && (|es| >= 2 ==>
                  var s := After(st, LogRun(es).value.piats);
                  s.samples == |es| - 1 && s.mean == 0.0 && s.variance == 0.0 && s.min == 0.0 && s.max == 0.0)
  {
    var es := EntriesOf(LoggedOf(identifier, inputs));
    assert forall i :: 0 <= i < |es| ==> es[i].recvTs == 0;
    ArrivedIsSorted(es);
    LogRunLogs(es);
    EqualStampsGiveZeroGaps(es);
    if |es| >= 2 {
      ZerosDescribeZero(After(st, Gaps(es)), Gaps(es), st);
    }
  }

  lemma ZerosDescribeZero(s: Stats, xs: seq<real>, st: Stats)
    requires xs != [] && st.samples == 0 && s == After(st, xs) && forall x :: x in xs ==> x == 0.0
    ensures s.samples == |xs| && s.mean == 0.0 && s.variance == 0.0 && s.min == 0.0 && s.max == 0.0
  {
    RefinesTwoPass(st, xs);
    ExtremesBound(xs);
    MeanWithinExtremes(s, xs);
    SqDevIsNonnegative(xs, 0.0);
  }

  /** Every arrival comes less than a millisecond after the one before it. */
  predicate AllClose(es: seq<Entry>) {
    |es| >= 2 ==> AllClose(es[..|es| - 1]) && es[|es| - 1].recvTs - es[|es| - 2].recvTs < NANOS_PER_MILLI
  }

  /** The real arrivals behind the logged results: for each, the clock reading of its read. */
  function ArrivalsOf(identifier: nat, inputs: seq<(seq<byte>, nat)>): (es: seq<Entry>)
    ensures |es| == |LoggedOf(identifier, inputs)|
  {
    if inputs == [] then []
    else
      var (buf, now) := inputs[|inputs| - 1];
      var o := ReceiveOne(identifier, buf, now);
      ArrivalsOf(identifier, inputs[..|inputs| - 1]) + (if o.Logged? then [Entry(o.result.rtt, now)] else [])
  }

  /** Every read adds its clock reading if it is logged, and nothing if it is not. */
  lemma {:induction false} LastReadArrives(identifier: nat, inputs: seq<(seq<byte>, nat)>, buf: seq<byte>, now: nat)
    ensures var o := ReceiveOne(identifier, buf, now);
            ArrivalsOf(identifier, inputs + [(buf, now)])
            == ArrivalsOf(identifier, inputs) + (if o.Logged? then [Entry(o.result.rtt, now)] else [])
    ensures ArrivalsOf(identifier, []) == []
  {
    assert (inputs + [(buf, now)])[..|inputs|] == inputs;
  }

  /** No read is earlier than the one before it. */
  predicate Monotone(inputs: seq<(seq<byte>, nat)>) {
    forall i, j :: 0 <= i < j < |inputs| ==> inputs[i].1 <= inputs[j].1
  }

  lemma {:induction false} ArrivalsComeInOrder(identifier: nat, inputs: seq<(seq<byte>, nat)>)
    requires Monotone(inputs)
    ensures var es := ArrivalsOf(identifier, inputs);
            Arrived(es) && (es != [] ==> inputs != [] && es[|es| - 1].recvTs <= inputs[|inputs| - 1].1)
  {
    if inputs != [] {
      var init := inputs[..|inputs| - 1];
      var (buf, now) := inputs[|inputs| - 1];
      ArrivalsComeInOrder(identifier, init);
      LastReadArrives(identifier, init, buf, now);
      assert inputs == init + [(buf, now)];
      var fs := ArrivalsOf(identifier, init);
      assert fs != [] ==> fs[|fs| - 1].recvTs <= init[|init| - 1].1 <= now;
      var o := ReceiveOne(identifier, buf, now);
      if o.Logged? {
        ArrivesLater(fs, Entry(o.result.rtt, now));
      } else {
        assert fs + [] == fs;
      }
    }
  }

  lemma ArrivesLater(es: seq<Entry>, e: Entry)
    requires Arrived(es) && (es != [] ==> es[|es| - 1].recvTs <= e.recvTs)
    ensures Arrived(es + [e])
  {
    assert (es + [e])[..|es|] == es;
  }

  /** So the gaps in the log are those of the real arrivals exactly when every real gap is under a
      millisecond. */
  lemma WhenInterArrivalIsRight(identifier: nat, inputs: seq<(seq<byte>, nat)>)
    requires Monotone(inputs)
    ensures var arrivals := ArrivalsOf(identifier, inputs);
            Gaps(EntriesOf(LoggedOf(identifier, inputs))) == Gaps(arrivals) <==> AllClose(arrivals)
  {
    ArrivalsComeInOrder(identifier, inputs);
    GapsAgreeIff(LoggedOf(identifier, inputs), ArrivalsOf(identifier, inputs));
  }

  lemma {:induction false} GapsAgreeIff(rs: seq<PingResult>, arrivals: seq<Entry>)
    requires |arrivals| == |rs| && Arrived(arrivals)
    requires forall r :: r in rs ==> r.recvTs == 0
    ensures Gaps(EntriesOf(rs)) == Gaps(arrivals) <==> AllClose(arrivals)
  {
    var n := |rs|;
    if n >= 2 {
      GapsAgreeIff(rs[..n - 1], arrivals[..n - 1]);
      assert rs[n - 1] in rs && rs[n - 2] in rs;
      ZeroGap(rs);
      LastGap(arrivals);
      LastDecides(Gaps(EntriesOf(rs[..n - 1])), Gaps(arrivals[..n - 1]), 0.0, TruncatedGap(arrivals));
    }
  }

  /** The last gap in whole milliseconds. */
  function TruncatedGap(es: seq<Entry>): real
    requires Arrived(es) && |es| >= 2
  {
    ((es[|es| - 1].recvTs - es[|es| - 2].recvTs) / NANOS_PER_MILLI) as real
  }

  lemma LastGap(es: seq<Entry>)
    requires Arrived(es) && |es| >= 2
    ensures Gaps(es) == Gaps(es[..|es| - 1]) + [TruncatedGap(es)]
    ensures TruncatedGap(es) == 0.0 <==> es[|es| - 1].recvTs - es[|es| - 2].recvTs < NANOS_PER_MILLI
  {
  }

  lemma {:induction false} ZeroGap(rs: seq<PingResult>)
    requires |rs| >= 2 && rs[|rs| - 1].recvTs == 0 == rs[|rs| - 2].recvTs
    ensures Gaps(EntriesOf(rs)) == Gaps(EntriesOf(rs[..|rs| - 1])) + [0.0]
  {
    var init := EntriesOf(rs[..|rs| - 1]);
    assert EntriesOf(rs)[..|rs| - 1] == init;
  }

  lemma LastDecides(xs: seq<real>, ys: seq<real>, x: real, y: real)
    requires |xs| == |ys|
    ensures xs + [x] == ys + [y] <==> xs == ys && x == y
  {
    if xs + [x] == ys + [y] {
      assert (xs + [x])[..|xs|] == xs && (ys + [y])[..|xs|] == ys;
      assert (xs + [x])[|xs|] == (ys + [y])[|xs|];
    }
  }
}
