/** Segments on the wire and the datagram channel seen as a script of
    receive outcomes. */
module Segments {
  import Wire

  /** The `type` field of an RDT header. */
  datatype SegType = Conn | SynAck | Ack | Data | Close

  /** One segment: the header fields in host order and the payload that
      follows the header. */
  datatype Segment = Segment(kind: SegType, seqNum: nat, ack: nat, payload: seq<Wire.byte>)

  /** What one blocking receive on the channel yields: the receive timeout
      elapsed (`EAGAIN`), or a segment arrived `elapsed` milliseconds after
      the most recent send. */
  datatype Event = Timeout | Seg(seg: Segment, elapsed: nat)

  /** A header-only segment of the given type with zero sequence and ack
      numbers: every CONN, SYNACK, CLOSE and handshake/close ACK is built so. */
  function Control(kind: SegType): (s: Segment)
    ensures s.kind == kind && s.seqNum == 0 && s.ack == 0 && s.payload == []
  {
    Segment(kind, 0, 0, [])
  }

  /** `n` copies of `x`: a segment sent `n` times, a timeout applied `n` times. */
  function Copies<T>(x: T, n: nat): (s: seq<T>)
    ensures |s| == n
    ensures forall i :: 0 <= i < n ==> s[i] == x
  {
    seq(n, _ => x)
  }

  lemma CopiesAppend<T>(x: T, m: nat, n: nat)
    ensures Copies(x, m) + Copies(x, n) == Copies(x, m + n)
  {
  }

  /** Moving the first outcome still to come to the end of those consumed
      leaves the whole script as it was. */
  lemma ShiftOne<T>(consumed: seq<T>, rest: seq<T>)
    requires rest != []
    ensures consumed + rest == (consumed + [rest[0]]) + rest[1..]
  {
    assert rest == [rest[0]] + rest[1..];
  }

  /** One more copy appended to a log of copies. */
  lemma CopiesSnoc<T>(s0: seq<T>, x: T, n: nat)
    ensures s0 + Copies(x, n) + [x] == s0 + Copies(x, n + 1)
  {
    assert Copies(x, n) + [x] == Copies(x, n + 1);
  }

  /** A log holding `m` copies of `x` after `s0` holds `m + n` once `n`
      more are appended. */
  lemma CopiesGrow<T>(s0: seq<T>, before: seq<T>, after: seq<T>, x: T, m: nat, n: nat)
    requires before == s0 + Copies(x, m) && after == before + Copies(x, n)
    ensures after == s0 + Copies(x, m + n)
  {
    CopiesAppend(x, m, n);
  }

  /** Every event is a receive timeout. */
  ghost predicate AllTimeouts(events: seq<Event>)
  {
    forall i :: 0 <= i < |events| ==> events[i].Timeout?
  }

  /** Every event is an arriving segment. */
  ghost predicate AllSegs(events: seq<Event>)
  {
    forall i :: 0 <= i < |events| ==> events[i].Seg?
  }

  /** `events` arrived segment after segment and ended with one silence:
      the shape a "send until the line goes quiet" loop consumes. */
  ghost predicate EndsOnSilence(events: seq<Event>)
  {
    |events| > 0 && events[|events| - 1].Timeout? && AllSegs(events[..|events| - 1])
  }

  /** The RTT samples `events` yield: one per arriving segment, none for a timeout. */
  function Replies(events: seq<Event>): (samples: seq<nat>)
    ensures |samples| <= |events|
  {
    if events == [] then []
    else (if events[0].Seg? then [events[0].elapsed] else []) + Replies(events[1..])
  }

  lemma {:induction false} RepliesAppend(a: seq<Event>, b: seq<Event>)
    ensures Replies(a + b) == Replies(a) + Replies(b)
  {
    if a == [] {
      assert a + b == b;
    } else {
      var head := if a[0].Seg? then [a[0].elapsed] else [];
      assert (a + b)[0] == a[0];
      assert (a + b)[1..] == a[1..] + b;
      assert Replies(a + b) == head + Replies(a[1..] + b);
      RepliesAppend(a[1..], b);
      assert Replies(a) == head + Replies(a[1..]);
    }
  }

  lemma {:induction false} RepliesOfTimeouts(events: seq<Event>)
    requires AllTimeouts(events)
    ensures Replies(events) == []
  {
    if events != [] {
      RepliesOfTimeouts(events[1..]);
    }
  }

  /** A timeout never yields an RTT sample: removing timeouts from a script
      leaves its samples as they were. */
  lemma TimeoutsYieldNoSample(a: seq<Event>, t: seq<Event>, b: seq<Event>)
    requires AllTimeouts(t)
    ensures Replies(a + t + b) == Replies(a + b)
  {
    RepliesAppend(a + t, b);
    RepliesAppend(a, t);
    RepliesOfTimeouts(t);
    RepliesAppend(a, b);
  }
}
