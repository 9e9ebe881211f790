/** The RDT connection object: a stop-and-wait protocol over a datagram
    channel. The channel is a script of receive outcomes (`inbox`) that the
    methods consume from the front; what the object sends and which receive
    timeouts it applies are logged in `sent` and `timeouts`. */
module Rdt {
  import opened Wire
  import opened Segments
  import opened Estimator
  import opened Rounds

  /** The connection states, in the order a connection goes through them. */
  datatype State = Init | Established | Fin | Closed

  /** How an entry point ends. `Fatal` stands for `exit(EXIT_FAILURE)`;
      `Blocked` means the script ran out while the object was waiting in a
      receive, where the real object would go on waiting. */
  datatype Outcome = Done | Refused | Fatal | Blocked

  datatype Option<T> = None | Some(value: T)

  /** Strictly increasing numbers, each below `bound`. */
  ghost predicate Ascending(ns: seq<nat>, bound: nat)
  {
    ns == [] || (ns[|ns| - 1] < bound && Ascending(ns[..|ns| - 1], ns[|ns| - 1]))
  }

  /** No number at or above the bound is among them. */
  lemma {:induction false} AscendingExcludes(ns: seq<nat>, bound: nat, n: nat)
    requires Ascending(ns, bound) && bound <= n
    ensures n !in ns
  {
    if ns != [] {
      AscendingExcludes(ns[..|ns| - 1], ns[|ns| - 1], n);
      assert ns == ns[..|ns| - 1] + [ns[|ns| - 1]];
    }
  }

  /** The acknowledgment `receive_data` sends for a segment: an ACK that
      carries the segment's own sequence number in both number fields
      (lines 401-405; the misspelt field of line 404 is the header's
      sequence number). */
  function AckFor(s: Segment): (a: Segment)
    ensures a.kind == Ack && a.seqNum == s.seqNum && a.ack == s.seqNum && a.payload == []
  {
    Segment(Ack, s.seqNum, s.seqNum, [])
  }

  /** A segment `receive_data` answers with an acknowledgment: any type but
      ACK and CLOSE. */
  predicate Acknowledged(s: Segment)
  {
    s.kind != Ack && s.kind != Close
  }

  /** An outcome `receive_data` waiting for segment `n` passes over: an ACK,
      or a segment it acknowledges whose number is not `n`. */
  predicate PassedOver(n: nat, ev: Event)
  {
    ev.Seg? && (ev.seg.kind == Ack || (Acknowledged(ev.seg) && ev.seg.seqNum != n))
  }

  ghost predicate AllPassedOver(n: nat, events: seq<Event>)
  {
    forall i :: 0 <= i < |events| ==> PassedOver(n, events[i])
  }

  /** The acknowledgments sent while `events` arrive, in order. */
  function AcksFor(events: seq<Event>): (acks: seq<Segment>)
    ensures |acks| <= |events|
  {
    if events == [] then []
    else
      var last := events[|events| - 1];
      AcksFor(events[..|events| - 1]) + if last.Seg? && Acknowledged(last.seg) then [AckFor(last.seg)] else []
  }

  /** One more outcome adds at most its own acknowledgment. */
  lemma AcksForSnoc(events: seq<Event>, ev: Event)
    ensures AcksFor(events + [ev]) == AcksFor(events) + if ev.Seg? && Acknowledged(ev.seg) then [AckFor(ev.seg)] else []
  {
    assert (events + [ev])[..|events|] == events;
  }

  /** The acknowledgments logged for a script are exactly the ACKs, each
      with the segment's own number in both number fields and no payload,
      of the segments in it that are neither an ACK nor a CLOSE. */
  lemma {:induction false} AcksForAnswers(events: seq<Event>)
    ensures forall a :: a in AcksFor(events) ==>
              a.kind == Ack && a.payload == [] && a.ack == a.seqNum
              && exists e :: e in events && e.Seg? && Acknowledged(e.seg) && e.seg.seqNum == a.seqNum
    ensures forall e :: e in events && e.Seg? && Acknowledged(e.seg) ==> AckFor(e.seg) in AcksFor(events)
  {
    if events != [] {
      var front, last := events[..|events| - 1], events[|events| - 1];
      assert events == front + [last];
      AcksForAnswers(front);
      AcksForSnoc(front, last);
    }
  }

  /** The test of line 336 of `send_data` as written: `=` stores the ACK's
      number in the counter, and the loop ends when that number is not
      zero. The result is whether the loop ends and the counter after the
      test. Any other reply leaves the loop going and the counter as it was. */
  function AckTestAsWritten(counter: nat, reply: Segment): (r: (bool, nat))
    ensures r.0 ==> reply.kind == Ack && reply.ack != 0
    ensures reply.kind == Ack ==> r.1 == reply.ack
    ensures reply.kind != Ack ==> !r.0 && r.1 == counter
  {
    if reply.kind == Ack then (reply.ack != 0, reply.ack) else (false, counter)
  }

  /** As written, an ACK of an earlier segment ends `send_data` and moves
      the counter back: with segment 5 in flight, a late ACK of segment 3
      ends the loop, and the increment then leaves the counter at 4. The
      intended test, `Awaits(AckOf(5), _)`, refuses that ACK. */
  lemma StaleAckEndsSendData()
    ensures var stale := Segment(Ack, 3, 3, []);
            AckTestAsWritten(5, stale).0 && AckTestAsWritten(5, stale).1 + 1 == 4
            && !Awaits(AckOf(5), stale)
  {
  }

  /** As written, the awaited ACK of segment 0 never ends the loop: its
      number is zero, so the assignment's value is false. */
  lemma FirstAckNeverEndsSendData(reply: Segment)
    requires Awaits(AckOf(0), reply)
    ensures !AckTestAsWritten(0, reply).0
  {
  }

  class ReliableSocket {
    var state: State
    var sequenceNumber: nat
    var expectedSequenceNumber: nat
    var estimatedRtt: real
    var devRtt: real
    /** The last measured round trip, in milliseconds. */
    var currentRtt: nat
    /** The `TIME_WAIT` constant of the header, in milliseconds. */
    const timeWait: real

    /** The receive outcomes the channel has still to deliver. */
    var inbox: seq<Event>
    /** Every segment sent, in order. */
    var sent: seq<Segment>
    /** Every receive timeout applied, in order. */
    var timeouts: seq<real>
    /** How many times the socket was closed. */
    var closes: nat
    /** The sequence numbers of the data segments handed to the caller. */
    ghost var delivered: seq<nat>

    function Estimate(): Rtt
      reads this`estimatedRtt, this`devRtt
    {
      Rtt(estimatedRtt, devRtt)
    }

    ghost predicate Valid()
      reads this`estimatedRtt, this`devRtt, this`closes, this`state, this`delivered, this`sequenceNumber
    {
      estimatedRtt >= 0.0 && devRtt >= 0.0
      && (closes > 0 <==> state == Closed)
      && Ascending(delivered, sequenceNumber)
    }

    /** A new connection (lines 33-49): both counters at zero, the
        conservative estimator defaults, state INIT. */
    constructor (script: seq<Event>, timeWait: real)
      ensures Valid()
      ensures state == Init && sequenceNumber == 0 && expectedSequenceNumber == 0
      ensures Estimate() == Initial && this.timeWait == timeWait
      ensures inbox == script && sent == [] && timeouts == [] && closes == 0 && delivered == []
    {
      sequenceNumber := 0;
      expectedSequenceNumber := 0;
      estimatedRtt := 100.0;
      devRtt := 10.0;
      currentRtt := 0;
      this.timeWait := timeWait;
      inbox := script;
      sent := [];
      timeouts := [];
      closes := 0;
      delivered := [];
      state := Init;
    }

    /** `send`: the segment goes out on the channel. */
    method Send(seg: Segment)
      modifies this`sent
      ensures sent == old(sent) + [seg]
    {
      sent := sent + [seg];
    }

    /** `recv`: the next outcome of the script, or nothing when it has run out. */
    method Recv() returns (ev: Option<Event>)
      modifies this`inbox
      ensures old(inbox) == [] ==> ev == None && inbox == []
      ensures old(inbox) != [] ==> ev == Some(old(inbox)[0]) && inbox == old(inbox)[1..]
    {
      if inbox == [] {
        ev := None;
      } else {
        ev := Some(inbox[0]);
        inbox := inbox[1..];
      }
    }

    /** `set_timeout_length` (lines 284-295): the receive timeout applied
        from now on. */
    method SetTimeoutLength(ms: real)
      modifies this`timeouts
      ensures timeouts == old(timeouts) + [ms]
    {
      timeouts := timeouts + [ms];
    }

    /** `set_estimated_rtt` (lines 269-282): the field updates of one RTT
        sample, in the source's order, then the derived timeout applied. */
    method SetEstimatedRtt()
      requires Valid()
      modifies this`estimatedRtt, this`devRtt, this`timeouts
      ensures Valid()
      ensures Estimate() == Sample(old(Estimate()), currentRtt)
      ensures timeouts == old(timeouts) + [Rto(Estimate())]
    {
      estimatedRtt := estimatedRtt * (1.0 - 0.125);
      estimatedRtt := estimatedRtt + currentRtt as real * 0.125;
      devRtt := devRtt * (1.0 - 0.25);
      var absDev := TruncToInt(currentRtt as real - estimatedRtt);
      if absDev < 0 {
        absDev := absDev * -1;
      }
      devRtt := devRtt + absDev as real * 0.25;
      SetTimeoutLength(estimatedRtt + 4.0 * devRtt);
    }

    /** `reliable_send` (lines 189-235): send `seg` and wait for any reply,
        resending it after each receive timeout with the timeout doubled;
        the reply's round trip then feeds the estimator once. */
    method ReliableSend(seg: Segment) returns (reply: Option<Segment>, ghost round: seq<Event>)
      requires Valid()
      modifies this`inbox, this`sent, this`timeouts, this`estimatedRtt, this`devRtt, this`currentRtt
      ensures Valid()
      ensures old(inbox) == round + inbox
      ensures reply.Some? ==>
                OneRound(round) && reply.value == round[|round| - 1].seg
                && currentRtt == round[|round| - 1].elapsed
                && Estimate() == Sample(old(Estimate()), currentRtt)
                && sent == old(sent) + Copies(seg, |round|)
                && timeouts == old(timeouts) + RoundLog(old(Estimate()), |round| - 1, currentRtt, false)
      ensures reply.None? ==>
                AllTimeouts(round) && inbox == [] && Estimate() == old(Estimate())
                && sent == old(sent) + Copies(seg, |round| + 1)
                && timeouts == old(timeouts) + Waits(Rto(old(Estimate())), |round|)
    {
      var rto := Rto(Estimate());
      SetTimeoutLength(rto);
      reply, round := Retransmit(seg, rto);
      ghost var k := if reply.Some? then |round| - 1 else |round|;
      ConcatAssoc(old(timeouts), [rto], Backoff(rto, k));
      if reply.Some? {
        SetEstimatedRtt();
        RoundLogOfWaits(old(Estimate()), k, currentRtt);
        ConcatAssoc(old(timeouts), Waits(rto, k), [Rto(Estimate())]);
      }
    }

    /** The `do ... while` loop of `reliable_send` (lines 197-231), entered
        with timeout `rto` applied: the first timeout applies twice `rto`,
        each further one doubles `doubled_timeout` again. The buffer cleared
        at line 205 is the receive buffer `recv_data`, which the model does
        not hold. */
    method Retransmit(seg: Segment, rto: real) returns (reply: Option<Segment>, ghost round: seq<Event>)
      modifies this`inbox, this`sent, this`timeouts, this`currentRtt
      ensures old(inbox) == round + inbox
      ensures reply.Some? ==>
                OneRound(round) && reply.value == round[|round| - 1].seg
                && currentRtt == round[|round| - 1].elapsed
                && sent == old(sent) + Copies(seg, |round|)
                && timeouts == old(timeouts) + Backoff(rto, |round| - 1)
      ensures reply.None? ==>
                AllTimeouts(round) && inbox == []
                && sent == old(sent) + Copies(seg, |round| + 1)
                && timeouts == old(timeouts) + Backoff(rto, |round|)
    {
      var previousTimeout := false;
      var doubledTimeout := 0.0;
      round := [];
      while true
        invariant old(inbox) == round + inbox && AllTimeouts(round)
        invariant previousTimeout <==> round != []
        invariant previousTimeout ==> doubledTimeout == Doubled(rto, |round|)
        invariant sent == old(sent) + Copies(seg, |round|)
        invariant timeouts == old(timeouts) + Backoff(rto, |round|)
        decreases |inbox|
      {
        Send(seg);
        CopiesSnoc(old(sent), seg, |round|);
        if inbox != [] {
          ShiftOne(round, inbox);
        }
        var ev := Recv();
        if ev.None? {
          reply := None;
          return;
        }
        var e := ev.value;
        if e.Timeout? {
          if previousTimeout {
            DoubledTwice(rto, |round|);
            doubledTimeout := doubledTimeout * 2.0;
          } else {
            doubledTimeout := 2.0 * rto;
          }
          SetTimeoutLength(doubledTimeout);
          ConcatAssoc(old(timeouts), Backoff(rto, |round|), [doubledTimeout]);
          previousTimeout := true;
          TimeoutsSnoc(round);
          round := round + [e];
          continue;
        }
        currentRtt := e.elapsed;
        RoundEnds(round, e);
        round := round + [e];
        reply := Some(e.seg);
        return;
      }
    }

    /** `timeout_send` (lines 237-261), with `ms` the current timeout
        `estimated_rtt + 4 * dev_rtt`: send `seg`, apply `ms` and listen,
        again and again while segments keep arriving; the first receive
        timeout ends it. The third phase of `send_close_connection`
        (lines 505-530) is the same loop with `ms` the `TIME_WAIT`
        constant. */
    method TimeoutSend(seg: Segment, ms: real) returns (done: bool, ghost heard: seq<Event>)
      modifies this`inbox, this`sent, this`timeouts
      ensures old(inbox) == heard + inbox
      ensures done ==>
                EndsOnSilence(heard)
                && sent == old(sent) + Copies(seg, |heard|)
                && timeouts == old(timeouts) + Copies(ms, |heard|)
      ensures !done ==>
                AllSegs(heard) && inbox == []
                && sent == old(sent) + Copies(seg, |heard| + 1)
                && timeouts == old(timeouts) + Copies(ms, |heard| + 1)
    {
      heard := [];
      while true
        invariant old(inbox) == heard + inbox && AllSegs(heard)
        invariant sent == old(sent) + Copies(seg, |heard|)
        invariant timeouts == old(timeouts) + Copies(ms, |heard|)
        decreases |inbox|
      {
        Send(seg);
        SetTimeoutLength(ms);
        CopiesSnoc(old(sent), seg, |heard|);
        CopiesSnoc(old(timeouts), ms, |heard|);
        if inbox != [] {
          ShiftOne(heard, inbox);
        }
        var ev := Recv();
        if ev.None? {
          done := false;
          return;
        }
        var e := ev.value;
        if e.Timeout? {
          assert (heard + [e])[..|heard|] == heard;
          heard := heard + [e];
          done := true;
          return;
        }
        heard := heard + [e];
      }
    }

    /** The retransmission loop around `reliable_send` shared by
        `accept_connection` (lines 113-124, awaiting any ACK, applying the
        current timeout again after each round), `send_data` (lines
        330-343, awaiting the ACK of its own number),
        `send_close_connection` (lines 472-485, awaiting an ACK or a CLOSE)
        and `receive_close_connection` (lines 544-553, awaiting any ACK):
        whole rounds until a reply of the awaited kind. */
    method SendUntil(seg: Segment, w: Awaited, echo: bool) returns (reply: Option<Segment>, ghost rounds: seq<Event>)
      requires Valid()
      modifies this`inbox, this`sent, this`timeouts, this`estimatedRtt, this`devRtt, this`currentRtt
      ensures Valid()
      ensures old(inbox) == rounds + inbox
      ensures Estimate() == Smooth(old(Estimate()), Replies(rounds))
      ensures reply.Some? ==>
                RetransmittedUntil(w, rounds) && reply.value == rounds[|rounds| - 1].seg
                && sent == old(sent) + Copies(seg, |rounds|)
                && timeouts == old(timeouts) + TimeoutLog(old(Estimate()), 0, rounds, echo)
      ensures reply.None? ==>
                NoneAwaited(w, rounds) && inbox == []
                && sent == old(sent) + Copies(seg, |rounds| + 1)
                && timeouts == old(timeouts) + OpenLog(old(Estimate()), rounds, echo)
    {
      ghost var r0 := Estimate();
      rounds := [];
      while true
        invariant Valid()
        invariant old(inbox) == rounds + inbox
        invariant Pending(0, rounds) == 0 && NoneAwaited(w, rounds)
        invariant Estimate() == Smooth(r0, Replies(rounds))
        invariant sent == old(sent) + Copies(seg, |rounds|)
        invariant timeouts == old(timeouts) + TimeoutLog(r0, 0, rounds, echo)
        decreases |inbox|
      {
        var answer;
        ghost var round;
        answer, round := NextExchange(seg, w, echo, r0, rounds, old(inbox), old(sent), old(timeouts));
        rounds := rounds + round;
        if answer.None? || Awaits(w, answer.value) {
          reply := answer;
          return;
        }
      }
    }

    /** One pass of the loop of `SendUntil`, after the whole rounds
        `rounds`, stated in terms of the script, the sent log and the
        timeout log at the start of the loop: the rounds so far extended by
        one more round, or by the open round the script ran out in. */
    method NextExchange(seg: Segment, w: Awaited, echo: bool, ghost r0: Rtt, ghost rounds: seq<Event>,
                        ghost script: seq<Event>, ghost sent0: seq<Segment>, ghost log0: seq<real>)
      returns (answer: Option<Segment>, ghost round: seq<Event>)
      requires Valid()
      requires script == rounds + inbox
      requires Pending(0, rounds) == 0 && NoneAwaited(w, rounds)
      requires Estimate() == Smooth(r0, Replies(rounds))
      requires sent == sent0 + Copies(seg, |rounds|)
      requires timeouts == log0 + TimeoutLog(r0, 0, rounds, echo)
      modifies this`inbox, this`sent, this`timeouts, this`estimatedRtt, this`devRtt, this`currentRtt
      ensures Valid()
      ensures script == rounds + round + inbox
      ensures Estimate() == Smooth(r0, Replies(rounds + round))
      ensures answer.Some? ==>
                round != [] && Pending(0, rounds + round) == 0
                && (rounds + round)[|rounds + round| - 1].Seg?
                && answer.value == (rounds + round)[|rounds + round| - 1].seg
                && (Awaits(w, answer.value) ==> RetransmittedUntil(w, rounds + round))
                && (!Awaits(w, answer.value) ==> NoneAwaited(w, rounds + round))
                && sent == sent0 + Copies(seg, |rounds + round|)
                && timeouts == log0 + TimeoutLog(r0, 0, rounds + round, echo)
      ensures answer.None? ==>
                NoneAwaited(w, rounds + round) && inbox == []
                && sent == sent0 + Copies(seg, |rounds + round| + 1)
                && timeouts == log0 + OpenLog(r0, rounds + round, echo)
    {
      ghost var before := timeouts;
      ghost var sentBefore := sent;
      answer, round := Exchange(seg, echo);
      ConcatAssoc(rounds, round, inbox);
      AfterRound(w, rounds, round);
      if answer.None? {
        CopiesGrow(sent0, sentBefore, sent, seg, |rounds|, |round| + 1);
        LogOfOpenRound(r0, rounds, round, echo, log0, before, timeouts);
        return;
      }
      CopiesGrow(sent0, sentBefore, sent, seg, |rounds|, |round|);
      LogAfterRound(r0, rounds, round, echo, log0, before, timeouts);
    }

    /** One pass of those loops: `reliable_send`, then, in
        `accept_connection` only (`echo`), the current timeout applied
        once more (line 115). */
    method Exchange(seg: Segment, echo: bool) returns (reply: Option<Segment>, ghost round: seq<Event>)
      requires Valid()
      modifies this`inbox, this`sent, this`timeouts, this`estimatedRtt, this`devRtt, this`currentRtt
      ensures Valid()
      ensures old(inbox) == round + inbox
      ensures reply.Some? ==>
                OneRound(round) && reply.value == round[|round| - 1].seg
                && Estimate() == Sample(old(Estimate()), round[|round| - 1].elapsed)
                && sent == old(sent) + Copies(seg, |round|)
                && timeouts == old(timeouts) + RoundLog(old(Estimate()), |round| - 1, round[|round| - 1].elapsed, echo)
      ensures reply.None? ==>
                AllTimeouts(round) && inbox == [] && Estimate() == old(Estimate())
                && sent == old(sent) + Copies(seg, |round| + 1)
                && timeouts == old(timeouts) + Waits(Rto(old(Estimate())), |round|)
    {
      ghost var r := Estimate();
      reply, round := ReliableSend(seg);
      if reply.Some? && echo {
        ghost var once := timeouts;
        SetTimeoutLength(Rto(Estimate()));
        RoundLogEcho(r, |round| - 1, currentRtt, echo);
        ConcatAssoc(old(timeouts), RoundLog(r, |round| - 1, currentRtt, false), [Rto(Estimate())]);
      } else if reply.Some? {
        RoundLogEcho(r, |round| - 1, currentRtt, echo);
      }
    }

    /** `accept_connection` (lines 51-129): from INIT only, take the first
        segment, which must be a CONN, then send SYNACK by `reliable_send`
        until an ACK comes back, applying the current timeout again after
        each round (line 115); the connection is then ESTABLISHED. */
    method AcceptConnection() returns (outcome: Outcome, ghost handshake: seq<Event>)
      requires Valid()
      modifies this`state, this`inbox, this`sent, this`timeouts, this`estimatedRtt, this`devRtt, this`currentRtt
      ensures Valid()
      ensures old(state) != Init ==> outcome == Fatal && unchanged(this)
      ensures outcome != Refused
      ensures outcome != Done ==> state == old(state)
      ensures outcome == Done ==>
                old(state) == Init && state == Established
                && old(inbox) != [] && old(inbox)[0].Seg? && old(inbox)[0].seg.kind == Conn
                && old(inbox) == [old(inbox)[0]] + handshake + inbox
                && RetransmittedUntil(AnyAck, handshake)
                && Estimate() == Smooth(old(Estimate()), Replies(handshake))
                && sent == old(sent) + Copies(Control(SynAck), |handshake|)
                && timeouts == old(timeouts) + TimeoutLog(old(Estimate()), 0, handshake, true)
      ensures outcome == Fatal && old(state) == Init ==>
                old(inbox) != [] && (old(inbox)[0].Timeout? || old(inbox)[0].seg.kind != Conn)
                && inbox == old(inbox)[1..] && sent == old(sent) && timeouts == old(timeouts)
      ensures outcome == Blocked ==>
                inbox == []
                && (old(inbox) == []
                    || (old(inbox)[0].Seg? && old(inbox)[0].seg.kind == Conn
                        && old(inbox) == [old(inbox)[0]] + handshake
                        && NoneAwaited(AnyAck, handshake)
                        && sent == old(sent) + Copies(Control(SynAck), |handshake| + 1)
                        && timeouts == old(timeouts) + OpenLog(old(Estimate()), handshake, true)))
    {
      handshake := [];
      if state != Init {
        outcome := Fatal;
        return;
      }
      var first := Recv();
      if first.None? {
        outcome := Blocked;
        return;
      }
      var conn := first.value;
      if conn.Timeout? || conn.seg.kind != Conn {
        outcome := Fatal;
        return;
      }
      assert old(inbox) == [conn] + inbox;
      var reply;
      reply, handshake := SendUntil(Control(SynAck), AnyAck, true);
      ConcatAssoc([conn], handshake, inbox);
      if reply.None? {
        outcome := Blocked;
        return;
      }
      state := Established;
      outcome := Done;
    }

    /** `connect_to_remote` (lines 131-187): from INIT only (otherwise it
        returns having done nothing), send CONN once, then ACK by
        `timeout_send` until the line goes quiet; the connection is then
        ESTABLISHED. The SYNACK check of lines 171-175 inspects a buffer
        nothing was received into and has no effect. */
    method ConnectToRemote() returns (outcome: Outcome, ghost heard: seq<Event>)
      requires Valid()
      modifies this`state, this`inbox, this`sent, this`timeouts
      ensures Valid()
      ensures old(state) != Init ==> outcome == Refused && unchanged(this)
      ensures old(state) == Init ==> outcome in {Done, Blocked} && old(inbox) == heard + inbox
      ensures outcome == Done ==>
                state == Established && EndsOnSilence(heard)
                && sent == old(sent) + [Control(Conn)] + Copies(Control(Ack), |heard|)
                && timeouts == old(timeouts) + Copies(Rto(Estimate()), |heard|)
      ensures outcome == Blocked ==>
                state == old(state) && inbox == [] && AllSegs(heard)
                && sent == old(sent) + [Control(Conn)] + Copies(Control(Ack), |heard| + 1)
                && timeouts == old(timeouts) + Copies(Rto(Estimate()), |heard| + 1)
    {
      heard := [];
      if state != Init {
        outcome := Refused;
        return;
      }
      Send(Control(Conn));
      var done;
      done, heard := TimeoutSend(Control(Ack), estimatedRtt + devRtt * 4.0);
      if !done {
        outcome := Blocked;
        return;
      }
      state := Established;
      outcome := Done;
    }

    /** `send_data` (lines 298-346): on an ESTABLISHED connection only
        (otherwise it returns having done nothing), send a DATA segment
        carrying the current sequence number and the payload, retransmit it
        by `reliable_send` until the ACK of that number comes back, then
        advance the counter by one. The segment is the one built in
        `send_seg` (line 310 names it `segment`); line 336 compares (`==`)
        the ACK's number with the counter, and the increment at line 345
        follows the loop, whose braces line 342 leaves unbalanced. */
    method SendData(payload: seq<byte>) returns (outcome: Outcome, ghost exchange: seq<Event>)
      requires Valid()
      modifies this`sequenceNumber, this`inbox, this`sent, this`timeouts, this`estimatedRtt, this`devRtt, this`currentRtt
      ensures Valid()
      ensures old(state) != Established ==> outcome == Refused && unchanged(this)
      ensures old(state) == Established ==>
                outcome in {Done, Blocked} && old(inbox) == exchange + inbox
                && Estimate() == Smooth(old(Estimate()), Replies(exchange))
      ensures outcome == Done ==>
                var seg := Segment(Data, old(sequenceNumber), 0, payload);
                sequenceNumber == old(sequenceNumber) + 1
                && RetransmittedUntil(AckOf(old(sequenceNumber)), exchange)
                && sent == old(sent) + [seg] + Copies(seg, |exchange|)
                && timeouts == old(timeouts) + TimeoutLog(old(Estimate()), 0, exchange, false)
      ensures outcome == Blocked ==>
                var seg := Segment(Data, old(sequenceNumber), 0, payload);
                sequenceNumber == old(sequenceNumber) && inbox == []
                && NoneAwaited(AckOf(old(sequenceNumber)), exchange)
                && sent == old(sent) + [seg] + Copies(seg, |exchange| + 1)
                && timeouts == old(timeouts) + OpenLog(old(Estimate()), exchange, false)
    {
      exchange := [];
      if state != Established {
        outcome := Refused;
        return;
      }
      var seg := Segment(Data, sequenceNumber, 0, payload);
      Send(seg);
      var reply;
      reply, exchange := SendUntil(seg, AckOf(sequenceNumber), false);
      if reply.None? {
        outcome := Blocked;
        return;
      }
      sequenceNumber := sequenceNumber + 1;
      outcome := Done;
    }

    /** The receive loop of `receive_data` (lines 357-424) waiting for
        segment `n`: ACKs are passed over; every segment but an ACK or a
        CLOSE is acknowledged with its own number (lines 400-407) and
        dropped unless its number is `n` (line 409, where `nthol` is
        `ntohl`). It stops at the first outcome it does not pass over: a
        receive timeout, a CLOSE, or segment `n`. */
    method AwaitSegment(n: nat) returns (ev: Option<Event>, ghost skipped: seq<Event>)
      modifies this`inbox, this`sent
      ensures AllPassedOver(n, skipped)
      ensures ev.None? ==> old(inbox) == skipped && inbox == [] && sent == old(sent) + AcksFor(skipped)
      ensures ev.Some? ==>
                old(inbox) == skipped + [ev.value] + inbox && !PassedOver(n, ev.value)
                && sent == old(sent) + AcksFor(skipped + [ev.value])
    {
      skipped := [];
      while true
        invariant old(inbox) == skipped + inbox && AllPassedOver(n, skipped)
        invariant sent == old(sent) + AcksFor(skipped)
        decreases |inbox|
      {
        if inbox != [] {
          ShiftOne(skipped, inbox);
        }
        ev := Recv();
        if ev.None? {
          return;
        }
        var e := ev.value;
        AcksForSnoc(skipped, e);
        if e.Seg? && Acknowledged(e.seg) {
          Send(AckFor(e.seg));
        }
        if !PassedOver(n, e) {
          return;
        }
        skipped := skipped + [e];
      }
    }

    /** The answer of `receive_data` to a CLOSE (lines 384-397): an ACK
        sent by `timeout_send` until the line goes quiet, then state FIN. */
    method AnswerClose(ghost script: seq<Event>, ghost before: seq<Event>) returns (done: bool, ghost heard: seq<Event>)
      requires script == before + inbox
      modifies this`state, this`inbox, this`sent, this`timeouts
      ensures old(inbox) == heard + inbox && script == before + heard + inbox
      ensures done ==>
                state == Fin && EndsOnSilence(heard)
                && sent == old(sent) + Copies(Control(Ack), |heard|)
                && timeouts == old(timeouts) + Copies(Rto(Estimate()), |heard|)
      ensures !done ==>
                state == old(state) && inbox == [] && AllSegs(heard)
                && sent == old(sent) + Copies(Control(Ack), |heard| + 1)
                && timeouts == old(timeouts) + Copies(Rto(Estimate()), |heard| + 1)
    {
      done, heard := TimeoutSend(Control(Ack), Rto(Estimate()));
      ConcatAssoc(before, heard, inbox);
      if done {
        state := Fin;
      }
    }

    /** The awaited segment handed over (lines 414-418): its payload
        length is returned, the payload copied out and the counter
        advanced. The counter was never delivered before. */
    method Deliver(s: Segment) returns (count: nat, buffer: seq<byte>)
      requires Valid() && s.seqNum == sequenceNumber
      modifies this`sequenceNumber, this`delivered
      ensures Valid()
      ensures count == |s.payload| && buffer == s.payload
      ensures s.seqNum !in old(delivered)
      ensures sequenceNumber == old(sequenceNumber) + 1 && delivered == old(delivered) + [s.seqNum]
    {
      count := |s.payload|;
      sequenceNumber := sequenceNumber + 1;
      AscendingExcludes(delivered, s.seqNum, s.seqNum);
      delivered := delivered + [s.seqNum];
      assert delivered[..|delivered| - 1] == old(delivered);
      buffer := s.payload;
    }

    /** `receive_data` (lines 349-427): on an ESTABLISHED connection only
        (otherwise it returns 0 having done nothing), wait for segment
        `sequence_number` (line 409). A CLOSE is answered by `timeout_send`
        of an ACK, moves the connection to FIN and returns 0; the awaited
        segment's payload is handed over, its length returned and the
        counter advanced, so no segment is delivered twice. A receive
        error, a timeout included, is fatal. */
    method ReceiveData() returns (outcome: Outcome, count: nat, buffer: seq<byte>,
                                  ghost skipped: seq<Event>, ghost arrival: Event, ghost heard: seq<Event>)
      requires Valid()
      modifies this`state, this`sequenceNumber, this`delivered, this`inbox, this`sent, this`timeouts
      ensures Valid()
      ensures count == |buffer|
      ensures old(state) != Established ==> outcome == Refused && unchanged(this)
      ensures old(state) == Established ==>
                AllPassedOver(old(sequenceNumber), skipped) && outcome != Refused
                && (outcome == Blocked ==>
                      inbox == [] && state == old(state)
                      && ((old(inbox) == skipped && sent == old(sent) + AcksFor(skipped) && timeouts == old(timeouts))
                          || (old(inbox) == skipped + [arrival] + heard + inbox && arrival.Seg? && arrival.seg.kind == Close && AllSegs(heard)
                              && sent == old(sent) + AcksFor(skipped + [arrival]) + Copies(Control(Ack), |heard| + 1)
                              && timeouts == old(timeouts) + Copies(Rto(Estimate()), |heard| + 1))))
      ensures outcome == Done && state == Established ==>
                old(inbox) == skipped + [arrival] + inbox
                && arrival.Seg? && Acknowledged(arrival.seg) && arrival.seg.seqNum == old(sequenceNumber)
                && old(sequenceNumber) !in old(delivered)
                && buffer == arrival.seg.payload
                && sequenceNumber == old(sequenceNumber) + 1
                && delivered == old(delivered) + [old(sequenceNumber)]
                && sent == old(sent) + AcksFor(skipped) + [AckFor(arrival.seg)]
                && timeouts == old(timeouts)
      ensures outcome != Done || state != Established ==>
                count == 0 && sequenceNumber == old(sequenceNumber) && delivered == old(delivered)
      ensures outcome == Done && state != Established ==>
                old(inbox) == skipped + [arrival] + heard + inbox
                && state == Fin && arrival.Seg? && arrival.seg.kind == Close
                && EndsOnSilence(heard)
                && sent == old(sent) + AcksFor(skipped + [arrival]) + Copies(Control(Ack), |heard|)
                && timeouts == old(timeouts) + Copies(Rto(Estimate()), |heard|)
      ensures outcome == Fatal ==>
                old(inbox) == skipped + [Timeout] + inbox && state == old(state)
                && sent == old(sent) + AcksFor(skipped)
    {
      if state != Established {
        skipped, arrival, heard := [], Timeout, [];
        count, buffer := 0, [];
        outcome := Refused;
        return;
      }
      outcome, count, buffer, skipped, arrival, heard := ReceiveSegment();
    }

    /** The body of `receive_data` past its state guard (lines 356-426). */
    method ReceiveSegment() returns (outcome: Outcome, count: nat, buffer: seq<byte>,
                                     ghost skipped: seq<Event>, ghost arrival: Event, ghost heard: seq<Event>)
      requires Valid() && state == Established
      modifies this`state, this`sequenceNumber, this`delivered, this`inbox, this`sent, this`timeouts
      ensures Valid()
      ensures count == |buffer|
      ensures AllPassedOver(old(sequenceNumber), skipped) && outcome != Refused
      ensures outcome == Blocked ==>
                inbox == [] && state == old(state)
                && ((old(inbox) == skipped && sent == old(sent) + AcksFor(skipped) && timeouts == old(timeouts))
                    || (old(inbox) == skipped + [arrival] + heard + inbox && arrival.Seg? && arrival.seg.kind == Close && AllSegs(heard)
                        && sent == old(sent) + AcksFor(skipped + [arrival]) + Copies(Control(Ack), |heard| + 1)
                        && timeouts == old(timeouts) + Copies(Rto(Estimate()), |heard| + 1)))
      ensures outcome == Done && state == Established ==>
                old(inbox) == skipped + [arrival] + inbox
                && arrival.Seg? && Acknowledged(arrival.seg) && arrival.seg.seqNum == old(sequenceNumber)
                && old(sequenceNumber) !in old(delivered)
                && buffer == arrival.seg.payload
                && sequenceNumber == old(sequenceNumber) + 1
                && delivered == old(delivered) + [old(sequenceNumber)]
                && sent == old(sent) + AcksFor(skipped) + [AckFor(arrival.seg)]
                && timeouts == old(timeouts)
      ensures outcome != Done || state != Established ==>
                count == 0 && sequenceNumber == old(sequenceNumber) && delivered == old(delivered)
      ensures outcome == Done && state != Established ==>
                old(inbox) == skipped + [arrival] + heard + inbox
                && state == Fin && arrival.Seg? && arrival.seg.kind == Close
                && EndsOnSilence(heard)
                && sent == old(sent) + AcksFor(skipped + [arrival]) + Copies(Control(Ack), |heard|)
                && timeouts == old(timeouts) + Copies(Rto(Estimate()), |heard|)
      ensures outcome == Fatal ==>
                old(inbox) == skipped + [Timeout] + inbox && state == old(state)
                && sent == old(sent) + AcksFor(skipped)
    {
      skipped, arrival, heard := [], Timeout, [];
      count, buffer := 0, [];
      var ev;
      ev, skipped := AwaitSegment(sequenceNumber);
      if ev.None? {
        outcome := Blocked;
        return;
      }
      var e := ev.value;
      arrival := e;
      outcome, count, buffer, heard := Arrived(e, old(inbox), skipped, old(sent));
    }

    /** What `receive_data` does with the first outcome its loop does not
        pass over (lines 370-372, 384-398, 409-420): a timeout is fatal, a
        CLOSE is answered, and the awaited segment is delivered. `script`,
        `before` and `sent0` are the script, the outcomes passed over and
        the sent log at the start of the call. */
    method Arrived(e: Event, ghost script: seq<Event>, ghost before: seq<Event>, ghost sent0: seq<Segment>)
      returns (outcome: Outcome, count: nat, buffer: seq<byte>, ghost heard: seq<Event>)
      requires Valid() && state == Established && !PassedOver(sequenceNumber, e)
      requires script == before + [e] + inbox && sent == sent0 + AcksFor(before + [e])
      modifies this`state, this`sequenceNumber, this`delivered, this`inbox, this`sent, this`timeouts
      ensures Valid()
      ensures count == |buffer| && outcome != Refused
      ensures outcome == Blocked ==>
                inbox == [] && state == old(state)
                && script == before + [e] + heard + inbox && e.Seg? && e.seg.kind == Close && AllSegs(heard)
                && sent == sent0 + AcksFor(before + [e]) + Copies(Control(Ack), |heard| + 1)
                && timeouts == old(timeouts) + Copies(Rto(Estimate()), |heard| + 1)
      ensures outcome == Done && state == Established ==>
                script == before + [e] + inbox
                && e.Seg? && Acknowledged(e.seg) && e.seg.seqNum == old(sequenceNumber)
                && old(sequenceNumber) !in old(delivered)
                && buffer == e.seg.payload
                && sequenceNumber == old(sequenceNumber) + 1
                && delivered == old(delivered) + [old(sequenceNumber)]
                && sent == sent0 + AcksFor(before) + [AckFor(e.seg)]
                && timeouts == old(timeouts)
      ensures outcome != Done || state != Established ==>
                count == 0 && sequenceNumber == old(sequenceNumber) && delivered == old(delivered)
      ensures outcome == Done && state != Established ==>
                script == before + [e] + heard + inbox
                && state == Fin && e.Seg? && e.seg.kind == Close
                && EndsOnSilence(heard)
                && sent == sent0 + AcksFor(before + [e]) + Copies(Control(Ack), |heard|)
                && timeouts == old(timeouts) + Copies(Rto(Estimate()), |heard|)
      ensures outcome == Fatal ==>
                script == before + [Timeout] + inbox && state == old(state)
                && sent == sent0 + AcksFor(before)
    {
      count, buffer, heard := 0, [], [];
      AcksForSnoc(before, e);
      if e.Timeout? {
        outcome := Fatal;
        return;
      }
      if e.seg.kind == Close {
        var done;
        done, heard := AnswerClose(script, before + [e]);
        outcome := if done then Done else Blocked;
        return;
      }
      count, buffer := Deliver(e.seg);
      outcome := Done;
    }

    /** `close_connection` (lines 430-460): a CLOSE goes out; the side that
        has not yet seen the remote CLOSE runs `send_close_connection`, the
        side in FIN runs `receive_close_connection`; then the connection is
        CLOSED and the socket closed. No state is refused. */
    method CloseConnection() returns (outcome: Outcome, ghost rounds: seq<Event>,
                                      ghost waiting: seq<Event>, ghost lingering: seq<Event>)
      requires Valid()
      modifies this`state, this`closes, this`inbox, this`sent, this`timeouts,
               this`estimatedRtt, this`devRtt, this`currentRtt
      ensures Valid()
      ensures outcome == Done || outcome == Blocked
      ensures old(state) != Fin ==> old(inbox) == rounds + waiting + lingering + inbox
      ensures old(state) == Fin ==> old(inbox) == rounds + inbox && waiting == [] && lingering == []
      ensures Estimate() == Smooth(old(Estimate()), Replies(rounds))
      ensures outcome == Done ==> state == Closed && closes == old(closes) + 1
      ensures outcome == Blocked ==> state == old(state) && closes == old(closes) && inbox == []
      ensures outcome == Done && old(state) != Fin ==>
                RetransmittedUntil(AckOrClose, rounds) && WaitedFor(Close, waiting) && EndsOnSilence(lingering)
                && sent == old(sent) + [Control(Close)] + Copies(Control(Close), |rounds|) + Copies(Control(Ack), |lingering|)
                && timeouts == old(timeouts) + TimeoutLog(old(Estimate()), 0, rounds, false) + Copies(timeWait, |lingering|)
      ensures outcome == Blocked && old(state) != Fin ==>
                (NoneAwaited(AckOrClose, rounds) && waiting == [] && lingering == [])
                || (RetransmittedUntil(AckOrClose, rounds) && NoneOfKind(Close, waiting) && lingering == [])
                || (RetransmittedUntil(AckOrClose, rounds) && WaitedFor(Close, waiting) && AllSegs(lingering))
      ensures outcome == Blocked && old(state) == Fin ==> NoneAwaited(AnyAck, rounds)
      ensures outcome == Done && old(state) == Fin ==>
                RetransmittedUntil(AnyAck, rounds)
                && sent == old(sent) + [Control(Close)] + Copies(Control(Close), |rounds|)
                && timeouts == old(timeouts) + [Rto(old(Estimate()))] + TimeoutLog(old(Estimate()), 0, rounds, false)
    {
      Send(Control(Close));
      if state != Fin {
        outcome, rounds, waiting, lingering := SendClose();
      } else {
        waiting, lingering := [], [];
        outcome, rounds := ReceiveClose();
      }
      if outcome == Done {
        state := Closed;
        closes := closes + 1;
      }
    }

    /** `send_close_connection` (lines 462-531), in three phases: CLOSE is
        sent by `reliable_send` until an ACK or a CLOSE answers; then
        receive until the remote CLOSE arrives, ignoring timeouts and every
        other segment; then an ACK is sent, with the `TIME_WAIT` timeout,
        again after every segment heard, until the line stays quiet. */
    method SendClose() returns (outcome: Outcome, ghost rounds: seq<Event>,
                                ghost waiting: seq<Event>, ghost lingering: seq<Event>)
      requires Valid()
      modifies this`inbox, this`sent, this`timeouts, this`estimatedRtt, this`devRtt, this`currentRtt
      ensures Valid()
      ensures outcome == Done || outcome == Blocked
      ensures old(inbox) == rounds + waiting + lingering + inbox
      ensures Estimate() == Smooth(old(Estimate()), Replies(rounds))
      ensures outcome == Done ==>
                RetransmittedUntil(AckOrClose, rounds) && WaitedFor(Close, waiting) && EndsOnSilence(lingering)
                && sent == old(sent) + Copies(Control(Close), |rounds|) + Copies(Control(Ack), |lingering|)
                && timeouts == old(timeouts) + TimeoutLog(old(Estimate()), 0, rounds, false) + Copies(timeWait, |lingering|)
      ensures outcome == Blocked ==>
                inbox == []
                && ((NoneAwaited(AckOrClose, rounds) && waiting == [] && lingering == [])
                    || (RetransmittedUntil(AckOrClose, rounds) && NoneOfKind(Close, waiting) && lingering == [])
                    || (RetransmittedUntil(AckOrClose, rounds) && WaitedFor(Close, waiting) && AllSegs(lingering)))
    {
      waiting, lingering := [], [];
      var reply;
      reply, rounds := SendUntil(Control(Close), AckOrClose, false);
      if reply.None? {
        outcome := Blocked;
        return;
      }
      var found;
      found, waiting := AwaitClose();
      ConcatAssoc(rounds, waiting, inbox);
      if !found {
        outcome := Blocked;
        return;
      }
      var done;
      done, lingering := TimeoutSend(Control(Ack), timeWait);
      ConcatAssoc(rounds + waiting, lingering, inbox);
      outcome := if done then Done else Blocked;
    }

    /** The second phase of `send_close_connection` (lines 487-503):
        receive until a CLOSE arrives; a receive timeout and every other
        segment are ignored. */
    method AwaitClose() returns (found: bool, ghost waiting: seq<Event>)
      modifies this`inbox
      ensures old(inbox) == waiting + inbox
      ensures found ==> WaitedFor(Close, waiting)
      ensures !found ==> NoneOfKind(Close, waiting) && inbox == []
    {
      waiting := [];
      while true
        invariant old(inbox) == waiting + inbox && NoneOfKind(Close, waiting)
        decreases |inbox|
      {
        if inbox != [] {
          ShiftOne(waiting, inbox);
        }
        var ev := Recv();
        if ev.None? {
          found := false;
          return;
        }
        var e := ev.value;
        assert (waiting + [e])[..|waiting|] == waiting;
        waiting := waiting + [e];
        if e.Seg? && e.seg.kind == Close {
          found := true;
          return;
        }
      }
    }

    /** `receive_close_connection` (lines 533-554): the current timeout is
        applied, then CLOSE is sent by `reliable_send` until an ACK answers. */
    method ReceiveClose() returns (outcome: Outcome, ghost rounds: seq<Event>)
      requires Valid()
      modifies this`inbox, this`sent, this`timeouts, this`estimatedRtt, this`devRtt, this`currentRtt
      ensures Valid()
      ensures outcome == Done || outcome == Blocked
      ensures old(inbox) == rounds + inbox
      ensures Estimate() == Smooth(old(Estimate()), Replies(rounds))
      ensures outcome == Done ==>
                RetransmittedUntil(AnyAck, rounds)
                && sent == old(sent) + Copies(Control(Close), |rounds|)
                && timeouts == old(timeouts) + [Rto(old(Estimate()))] + TimeoutLog(old(Estimate()), 0, rounds, false)
      ensures outcome == Blocked ==> NoneAwaited(AnyAck, rounds) && inbox == []
    {
      SetTimeoutLength(Rto(Estimate()));
      var reply;
      reply, rounds := SendUntil(Control(Close), AnyAck, false);
      outcome := if reply.Some? then Done else Blocked;
    }
  }
}
