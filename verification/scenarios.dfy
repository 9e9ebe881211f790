/** The entry points on scripts where the awaited segments do arrive,
    reasoned through their contracts alone: each contract promises that
    the operation completes, and how the connection moves on. */
module Scenarios {
  import opened Segments
  import opened Rounds
  import opened Rdt

  /** A receive loop that passes over ACKs and other-numbered segments
      has passed over nothing when the script starts with a segment it
      stops at. */
  lemma NothingPassedOver(n: nat, script: seq<Event>, skipped: seq<Event>)
    requires script != [] && !PassedOver(n, script[0])
    ensures skipped <= script && AllPassedOver(n, skipped) ==> skipped == []
  {
    if skipped <= script && skipped != [] {
      assert skipped[0] == script[0];
    }
  }

  /** A "send until the line goes quiet" loop on a script that starts with
      a silence consumes exactly that silence. */
  lemma QuietAtOnce(script: seq<Event>, heard: seq<Event>)
    requires script != [] && script[0].Timeout?
    ensures heard <= script && EndsOnSilence(heard) ==> heard == [script[0]]
    ensures heard <= script && AllSegs(heard) ==> heard == []
  {
    if heard <= script && |heard| > 1 {
      assert heard[..|heard| - 1][0] == script[0];
    }
    if heard <= script && heard != [] {
      assert heard[0] == script[0];
    }
  }

  /** A retry loop on a script that starts with an awaited reply runs
      exactly one round. */
  lemma AnsweredAtOnce(w: Awaited, script: seq<Event>, rounds: seq<Event>)
    requires script != [] && script[0].Seg? && Awaits(w, script[0].seg)
    ensures rounds <= script && RetransmittedUntil(w, rounds) ==> rounds == [script[0]]
    ensures rounds <= script && NoneAwaited(w, rounds) ==> rounds == []
  {
    if rounds <= script && |rounds| > 1 {
      assert rounds[..|rounds| - 1][0] == script[0];
    }
    if rounds <= script && rounds != [] {
      assert rounds[0] == script[0];
    }
  }

  /** A wait for a segment of type `kind` on a script that starts with
      one stops there. */
  lemma FoundAtOnce(kind: SegType, script: seq<Event>, waiting: seq<Event>)
    requires script != [] && script[0].Seg? && script[0].seg.kind == kind
    ensures waiting <= script && WaitedFor(kind, waiting) ==> waiting == [script[0]]
    ensures waiting <= script && NoneOfKind(kind, waiting) ==> waiting == []
  {
    if waiting <= script && |waiting| > 1 {
      assert waiting[..|waiting| - 1][0] == script[0];
    }
    if waiting <= script && waiting != [] {
      assert waiting[0] == script[0];
    }
  }

  /** `accept_connection`: a CONN, then an ACK answering the SYNACK, give
      an ESTABLISHED connection. */
  method Accepted(sock: ReliableSocket) returns (outcome: Outcome)
    requires sock.Valid() && sock.state == Init && |sock.inbox| >= 2
    requires sock.inbox[0].Seg? && sock.inbox[0].seg.kind == Conn
    requires sock.inbox[1].Seg? && sock.inbox[1].seg.kind == Ack
    modifies sock
    ensures sock.Valid() && outcome == Done && sock.state == Established
    ensures sock.inbox == old(sock.inbox[2..])
  {
    ghost var script := sock.inbox;
    ghost var handshake;
    outcome, handshake := sock.AcceptConnection();
    AnsweredAtOnce(AnyAck, script[1..], handshake);
  }

  /** `connect_to_remote`: CONN, one ACK, and the first silence give an
      ESTABLISHED connection. */
  method Connected(sock: ReliableSocket) returns (outcome: Outcome)
    requires sock.Valid() && sock.state == Init && sock.inbox != [] && sock.inbox[0].Timeout?
    modifies sock
    ensures sock.Valid() && outcome == Done && sock.state == Established
    ensures sock.inbox == old(sock.inbox[1..]) && sock.sequenceNumber == old(sock.sequenceNumber)
  {
    ghost var script := sock.inbox;
    ghost var heard;
    outcome, heard := sock.ConnectToRemote();
    QuietAtOnce(script, heard);
  }

  /** `receive_data`: when the awaited segment is the next to arrive, its
      payload is delivered and the counter advances. */
  method Delivered(sock: ReliableSocket) returns (outcome: Outcome, data: seq<Wire.byte>)
    requires sock.Valid() && sock.state == Established && sock.inbox != []
    requires sock.inbox[0].Seg? && sock.inbox[0].seg.kind == Data && sock.inbox[0].seg.seqNum == sock.sequenceNumber
    modifies sock
    ensures sock.Valid() && outcome == Done && sock.state == Established
    ensures data == old(sock.inbox[0].seg.payload)
    ensures sock.inbox == old(sock.inbox[1..]) && sock.sequenceNumber == old(sock.sequenceNumber) + 1
  {
    ghost var script := sock.inbox;
    var count;
    ghost var skipped, arrival, heard;
    outcome, count, data, skipped, arrival, heard := sock.ReceiveData();
    NothingPassedOver(old(sock.sequenceNumber), script, skipped);
  }

  /** `receive_data`: a CLOSE, answered until the line goes quiet, moves
      the connection to FIN with nothing delivered. */
  method CloseAnswered(sock: ReliableSocket) returns (outcome: Outcome, count: nat)
    requires sock.Valid() && sock.state == Established && |sock.inbox| >= 2
    requires sock.inbox[0].Seg? && sock.inbox[0].seg.kind == Close && sock.inbox[1].Timeout?
    modifies sock
    ensures sock.Valid() && outcome == Done && count == 0 && sock.state == Fin
    ensures sock.inbox == old(sock.inbox[2..])
  {
    ghost var script := sock.inbox;
    var data;
    ghost var skipped, arrival, heard;
    outcome, count, data, skipped, arrival, heard := sock.ReceiveData();
    NothingPassedOver(old(sock.sequenceNumber), script, skipped);
    assert outcome != Fatal && arrival == script[0];
    assert script[1..] == heard + sock.inbox;
    QuietAtOnce(script[1..], heard);
  }

  /** `send_data`: the ACK of the segment's own number ends the loop and
      advances the counter. */
  method SentAndAcked(sock: ReliableSocket, payload: seq<Wire.byte>) returns (outcome: Outcome)
    requires sock.Valid() && sock.state == Established && sock.inbox != []
    requires sock.inbox[0].Seg? && sock.inbox[0].seg.kind == Ack && sock.inbox[0].seg.ack == sock.sequenceNumber
    modifies sock
    ensures sock.Valid() && outcome == Done && sock.state == Established
    ensures sock.inbox == old(sock.inbox[1..]) && sock.sequenceNumber == old(sock.sequenceNumber) + 1
  {
    ghost var script := sock.inbox;
    ghost var exchange;
    outcome, exchange := sock.SendData(payload);
    AnsweredAtOnce(AckOf(old(sock.sequenceNumber)), script, exchange);
  }

  /** `close_connection` from FIN: the ACK of the CLOSE closes the
      connection. */
  method ClosedFromFin(sock: ReliableSocket) returns (outcome: Outcome)
    requires sock.Valid() && sock.state == Fin && sock.inbox != []
    requires sock.inbox[0].Seg? && sock.inbox[0].seg.kind == Ack
    modifies sock
    ensures sock.Valid() && outcome == Done && sock.state == Closed
  {
    ghost var script := sock.inbox;
    ghost var rounds, waiting, lingering;
    outcome, rounds, waiting, lingering := sock.CloseConnection();
    AnsweredAtOnce(AnyAck, script, rounds);
  }

  /** `close_connection` from ESTABLISHED: the remote ACKs the CLOSE, sends
      its own, and the line stays quiet for `TIME_WAIT`. */
  method ClosedFromEstablished(sock: ReliableSocket) returns (outcome: Outcome)
    requires sock.Valid() && sock.state == Established && |sock.inbox| >= 3
    requires sock.inbox[0].Seg? && sock.inbox[0].seg.kind == Ack
    requires sock.inbox[1].Seg? && sock.inbox[1].seg.kind == Close && sock.inbox[2].Timeout?
    modifies sock
    ensures sock.Valid() && outcome == Done && sock.state == Closed
  {
    ghost var script := sock.inbox;
    ghost var rounds, waiting, lingering;
    outcome, rounds, waiting, lingering := sock.CloseConnection();
    AnsweredAtOnce(AckOrClose, script, rounds);
    FoundAtOnce(Close, script[1..], waiting);
    QuietAtOnce(script[2..], lingering);
  }

  /** A receiving side's whole life: connect, take segment 0, answer the
      remote CLOSE, and close from FIN. */
  method ReceiverLifetime() returns (data: seq<Wire.byte>, state: State)
    ensures data == [88] && state == Closed
  {
    var script := [Timeout, Seg(Segment(Data, 0, 0, [88]), 4), Seg(Control(Close), 5), Timeout, Seg(Control(Ack), 6)];
    var sock := new ReliableSocket(script, 30.0);
    var o := Connected(sock);
    o, data := Delivered(sock);
    var count;
    o, count := CloseAnswered(sock);
    o := ClosedFromFin(sock);
    state := sock.state;
  }

  /** A sending side's whole life: connect, send segment 0, and close. */
  method SenderLifetime() returns (next: nat, state: State)
    ensures next == 1 && state == Closed
  {
    var script := [Timeout, Seg(Segment(Ack, 0, 0, []), 3), Seg(Control(Ack), 4), Seg(Control(Close), 5), Timeout];
    var sock := new ReliableSocket(script, 30.0);
    var o := Connected(sock);
    o := SentAndAcked(sock, [88]);
    next := sock.sequenceNumber;
    o := ClosedFromEstablished(sock);
    state := sock.state;
  }
}
