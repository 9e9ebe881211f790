/** Specification of the retry loops: what a sequence of `reliable_send`
    rounds consumes from the channel, which replies end a loop, and which
    receive timeouts the rounds apply. */
module Rounds {
  import opened Segments
  import opened Estimator

  /** The reply a retransmission loop is waiting for. */
  datatype Awaited =
    | AckOf(n: nat)   // `send_data`: an ACK whose ack number is the segment's own
    | AnyAck          // the SYNACK loop and `receive_close_connection`
    | AckOrClose      // the first phase of `send_close_connection`

  predicate Awaits(w: Awaited, s: Segment)
  {
    match w
    case AckOf(n) => s.kind == Ack && s.ack == n
    case AnyAck => s.kind == Ack
    case AckOrClose => s.kind == Ack || s.kind == Close
  }

  /** No reply among `events` ends the loop. */
  ghost predicate NoneAwaited(w: Awaited, events: seq<Event>)
  {
    forall i :: 0 <= i < |events| && events[i].Seg? ==> !Awaits(w, events[i].seg)
  }

  /** `events` are whole rounds of which only the last reply ends the loop. */
  ghost predicate RetransmittedUntil(w: Awaited, events: seq<Event>)
  {
    |events| > 0 && events[|events| - 1].Seg? && Awaits(w, events[|events| - 1].seg)
    && NoneAwaited(w, events[..|events| - 1])
  }

  /** No segment of type `kind` among `events`. */
  ghost predicate NoneOfKind(kind: SegType, events: seq<Event>)
  {
    forall i :: 0 <= i < |events| ==> events[i].Timeout? || events[i].seg.kind != kind
  }

  /** A plain receive loop that ignores timeouts and every segment but one
      of type `kind`, and stops at the first of those. */
  ghost predicate WaitedFor(kind: SegType, events: seq<Event>)
  {
    |events| > 0 && events[|events| - 1].Seg? && events[|events| - 1].seg.kind == kind
    && NoneOfKind(kind, events[..|events| - 1])
  }

  /** One `reliable_send` round: timeouts, then the reply that ends it. */
  ghost predicate OneRound(round: seq<Event>)
  {
    |round| > 0 && round[|round| - 1].Seg? && forall i :: 0 <= i < |round| - 1 ==> round[i].Timeout?
  }

  /** The estimate after one event: a reply feeds its round-trip sample,
      a timeout leaves the estimate alone. */
  function After(r: Rtt, ev: Event): Rtt
  {
    if ev.Seg? then Sample(r, ev.elapsed) else r
  }

  /** The consecutive-timeout count of the round in progress after one
      event: a reply ends the round. */
  function Count(k: nat, ev: Event): nat
  {
    if ev.Seg? then 0 else k + 1
  }

  lemma TimeoutsSnoc(t: seq<Event>)
    requires AllTimeouts(t)
    ensures AllTimeouts(t + [Timeout])
  {
  }

  lemma RoundEnds(t: seq<Event>, ev: Event)
    requires AllTimeouts(t) && ev.Seg?
    ensures OneRound(t + [ev]) && (t + [ev])[|t|] == ev
  {
  }

  /** The number of consecutive timeouts of the round still in progress
      after `events`, starting with `k` of them: 0 once a reply ends it. */
  function Pending(k: nat, events: seq<Event>): nat
    decreases |events|
  {
    if events == [] then k else Pending(Count(k, events[0]), events[1..])
  }

  /** The receive timeouts applied while one event is handled by a round
      that has seen `k` consecutive timeouts: a round applies the current
      timeout when it starts, doubles it on each timeout, and applies the
      timeout of the updated estimate once the reply has come; when `echo`
      holds the caller applies that timeout once more after the round. */
  function Applied(r: Rtt, k: nat, ev: Event, echo: bool): seq<real>
  {
    (if k == 0 then [Rto(r)] else [])
    + if ev.Timeout? then [Doubled(Rto(r), k + 1)]
      else [Rto(After(r, ev))] + (if echo then [Rto(After(r, ev))] else [])
  }

  /** The receive timeouts applied by back-to-back `reliable_send` rounds
      that start from estimate `r`, with `k` consecutive timeouts already
      seen in the current round, and consume `events`. */
  function TimeoutLog(r: Rtt, k: nat, events: seq<Event>, echo: bool): seq<real>
    decreases |events|
  {
    if events == [] then []
    else Applied(r, k, events[0], echo) + TimeoutLog(After(r, events[0]), Count(k, events[0]), events[1..], echo)
  }

  /** The timeouts a round sets while it waits: the timeout it starts
      with, then one doubled again for each of its `k` receive timeouts. */
  function Waits(rto: real, k: nat): seq<real>
  {
    [rto] + Backoff(rto, k)
  }

  /** One more timeout in a round applies the timeout doubled once more. */
  lemma WaitsSnoc(rto: real, k: nat)
    ensures Waits(rto, k + 1) == Waits(rto, k) + [Doubled(rto, k + 1)]
  {
    assert Backoff(rto, k + 1) == Backoff(rto, k) + [Doubled(rto, k + 1)];
  }

  /** A round's timeouts are the timeouts it set while it waited, then
      the timeout of the updated estimate. */
  lemma RoundLogOfWaits(r: Rtt, k: nat, e: nat)
    ensures RoundLog(r, k, e, false) == Waits(Rto(r), k) + [Rto(Sample(r, e))]
  {
    assert Waits(Rto(r), k) + [Rto(Sample(r, e))] + [] == Waits(Rto(r), k) + [Rto(Sample(r, e))];
  }

  /** The timeouts set by a whole round that started from estimate `r`,
      timed out `k` times and then got a reply `e` milliseconds after the
      last send: the waits, then the timeout of the updated estimate (set
      again by the caller when `echo` holds). */
  function RoundLog(r: Rtt, k: nat, e: nat, echo: bool): seq<real>
  {
    var rto := Rto(Sample(r, e));
    Waits(Rto(r), k) + [rto] + (if echo then [rto] else [])
  }

  /** Applying the updated estimate's timeout once more after a round is
      the echoing form of the round's log. */
  lemma RoundLogEcho(r: Rtt, k: nat, e: nat, echo: bool)
    ensures RoundLog(r, k, e, echo)
            == RoundLog(r, k, e, false) + (if echo then [Rto(Sample(r, e))] else [])
  {
    assert RoundLog(r, k, e, false) + [] == RoundLog(r, k, e, false);
  }

  /** The timeouts applied by rounds from `r` over `events` when the
      channel then runs dry: a round that had not yet received anything has
      still applied its starting timeout. */
  function OpenLog(r: Rtt, events: seq<Event>, echo: bool): seq<real>
  {
    TimeoutLog(r, 0, events, echo)
    + (if Pending(0, events) == 0 then [Rto(Smooth(r, Replies(events)))] else [])
  }

  /** The estimate reached over a script is the one reached from the first
      event's estimate over the rest. */
  lemma SmoothStep(r: Rtt, events: seq<Event>)
    requires events != []
    ensures Smooth(r, Replies(events)) == Smooth(After(r, events[0]), Replies(events[1..]))
  {
    if events[0].Seg? {
      var e := events[0].elapsed;
      assert Replies(events) == [e] + Replies(events[1..]);
      assert ([e] + Replies(events[1..]))[1..] == Replies(events[1..]);
    } else {
      assert Replies(events) == [] + Replies(events[1..]);
      assert [] + Replies(events[1..]) == Replies(events[1..]);
    }
  }

  lemma {:induction false} PendingAppend(k: nat, a: seq<Event>, b: seq<Event>)
    ensures Pending(k, a + b) == Pending(Pending(k, a), b)
    decreases |a|
  {
    if a == [] {
      assert a + b == b;
    } else {
      assert (a + b)[0] == a[0];
      assert (a + b)[1..] == a[1..] + b;
      PendingAppend(Count(k, a[0]), a[1..], b);
    }
  }

  lemma {:induction false} PendingOfTimeouts(k: nat, t: seq<Event>)
    requires AllTimeouts(t)
    ensures Pending(k, t) == k + |t|
    decreases |t|
  {
    if t != [] {
      assert t[0].Timeout?;
      PendingOfTimeouts(k + 1, t[1..]);
    }
  }

  /** The log of a script splits at any point; the rest starts from the
      estimate and the timeout count reached there. */
  lemma {:induction false} TimeoutLogAppend(r: Rtt, k: nat, a: seq<Event>, b: seq<Event>, echo: bool)
    ensures TimeoutLog(r, k, a + b, echo)
            == TimeoutLog(r, k, a, echo) + TimeoutLog(Smooth(r, Replies(a)), Pending(k, a), b, echo)
    decreases |a|
  {
    if a == [] {
      assert a + b == b;
    } else {
      var ev := a[0];
      assert (a + b)[0] == ev;
      assert (a + b)[1..] == a[1..] + b;
      TimeoutLogAppend(After(r, ev), Count(k, ev), a[1..], b, echo);
      SmoothStep(r, a);
      var head := Applied(r, k, ev, echo);
      var rest := TimeoutLog(Smooth(r, Replies(a)), Pending(k, a), b, echo);
      assert TimeoutLog(r, k, a + b, echo)
             == head + (TimeoutLog(After(r, ev), Count(k, ev), a[1..], echo) + rest);
      assert TimeoutLog(r, k, a, echo) == head + TimeoutLog(After(r, ev), Count(k, ev), a[1..], echo);
    }
  }

  /** `n` consecutive timeouts from the start of a round apply the round's
      timeout and then its backoff: 2, 4, ..., 2^n times it. */
  lemma {:induction false} TimeoutLogOfTimeouts(r: Rtt, t: seq<Event>, echo: bool)
    requires AllTimeouts(t) && t != []
    ensures TimeoutLog(r, 0, t, echo) == Waits(Rto(r), |t|)
    decreases |t|
  {
    var n := |t|;
    if n == 1 {
      assert t[1..] == [];
      assert TimeoutLog(r, 0, t, echo) == Applied(r, 0, t[0], echo) + [];
    } else {
      var t' := t[..n - 1];
      assert t == t' + [Timeout];
      TimeoutLogOfTimeouts(r, t', echo);
      TimeoutLogAppend(r, 0, t', [Timeout], echo);
      RepliesOfTimeouts(t');
      PendingOfTimeouts(0, t');
      assert Smooth(r, Replies(t')) == r;
      LogOfLaterTimeout(r, n - 1, echo);
      var p := Doubled(Rto(r), n);
      assert TimeoutLog(r, 0, t, echo) == ([Rto(r)] + Backoff(Rto(r), n - 1)) + [p];
      assert Backoff(Rto(r), n) == Backoff(Rto(r), n - 1) + [p];
    }
  }

  /** A timeout after the first of a round doubles the timeout once more. */
  lemma LogOfLaterTimeout(r: Rtt, k: nat, echo: bool)
    requires k > 0
    ensures TimeoutLog(r, k, [Timeout], echo) == [Doubled(Rto(r), k + 1)]
  {
    var events: seq<Event> := [Timeout];
    assert events[1..] == [];
    var step := Applied(r, k, Timeout, echo);
    assert |step| == 1 && step[0] == Doubled(Rto(r), k + 1);
    var log := TimeoutLog(r, k, events, echo);
    assert log == step + [];
    assert |log| == 1 && log[0] == step[0];
  }

  /** A whole round applies the round's timeout, its backoff, and the
      timeout of the estimate updated by the reply. */
  lemma TimeoutLogOfRound(r: Rtt, round: seq<Event>, echo: bool)
    requires OneRound(round)
    ensures var k := |round| - 1;
            TimeoutLog(r, 0, round, echo) == RoundLog(r, k, round[k].elapsed, echo)
            && Replies(round) == [round[k].elapsed]
            && Pending(0, round) == 0
  {
    var k := |round| - 1;
    var t := round[..k];
    var last := round[k];
    assert round == t + [last];
    assert [last][1..] == [];
    TimeoutLogAppend(r, 0, t, [last], echo);
    RepliesAppend(t, [last]);
    RepliesOfTimeouts(t);
    PendingAppend(0, t, [last]);
    PendingOfTimeouts(0, t);
    if k > 0 {
      TimeoutLogOfTimeouts(r, t, echo);
    }
  }

  /** One whole round after whole rounds feeds exactly its reply's sample
      to the estimator and leaves no round in progress. */
  lemma NextRound(r0: Rtt, rounds: seq<Event>, round: seq<Event>, echo: bool)
    requires Pending(0, rounds) == 0 && OneRound(round)
    ensures var k := |round| - 1;
            var r1 := Smooth(r0, Replies(rounds));
            var r2 := Sample(r1, round[k].elapsed);
            Pending(0, rounds + round) == 0
            && Smooth(r0, Replies(rounds + round)) == r2
            && TimeoutLog(r0, 0, rounds + round, echo)
               == TimeoutLog(r0, 0, rounds, echo) + RoundLog(r1, k, round[k].elapsed, echo)
  {
    var k := |round| - 1;
    var e := round[k].elapsed;
    var r1 := Smooth(r0, Replies(rounds));
    var r2 := Sample(r1, e);
    TimeoutLogOfRound(r1, round, echo);
    assert Pending(0, rounds + round) == 0 by {
      PendingAppend(0, rounds, round);
    }
    assert Smooth(r0, Replies(rounds + round)) == r2 by {
      RepliesAppend(rounds, round);
      SmoothSnoc(r0, Replies(rounds), e);
    }
    var before := TimeoutLog(r0, 0, rounds, echo);
    var tail := RoundLog(r1, k, e, echo);
    assert TimeoutLog(r0, 0, rounds + round, echo) == before + tail by {
      TimeoutLogAppend(r0, 0, rounds, round, echo);
    }
  }

  lemma ConcatAssoc<T>(a: seq<T>, b: seq<T>, c: seq<T>)
    ensures a + b + c == a + (b + c)
  {
  }

  /** The log of the timeouts applied so far grows by one whole round
      (applied once more when `echo` holds) to the log of the rounds so far
      and that round. */
  lemma LogAfterRound(r0: Rtt, rounds: seq<Event>, round: seq<Event>, echo: bool,
                      t0: seq<real>, before: seq<real>, after: seq<real>)
    requires Pending(0, rounds) == 0 && OneRound(round)
    requires before == t0 + TimeoutLog(r0, 0, rounds, echo)
    requires after == before + RoundLog(Smooth(r0, Replies(rounds)), |round| - 1, round[|round| - 1].elapsed, echo)
    ensures after == t0 + TimeoutLog(r0, 0, rounds + round, echo)
    ensures Pending(0, rounds + round) == 0
    ensures Smooth(r0, Replies(rounds + round)) == Sample(Smooth(r0, Replies(rounds)), round[|round| - 1].elapsed)
  {
    var r1 := Smooth(r0, Replies(rounds));
    var k := |round| - 1;
    var e := round[k].elapsed;
    NextRound(r0, rounds, round, echo);
    ConcatAssoc(t0, TimeoutLog(r0, 0, rounds, echo), RoundLog(r1, k, e, echo));
  }

  /** The log when the channel runs dry in a round that followed whole rounds. */
  lemma LogOfOpenRound(r0: Rtt, rounds: seq<Event>, round: seq<Event>, echo: bool,
                       t0: seq<real>, before: seq<real>, after: seq<real>)
    requires Pending(0, rounds) == 0 && AllTimeouts(round)
    requires before == t0 + TimeoutLog(r0, 0, rounds, echo)
    requires after == before + Waits(Rto(Smooth(r0, Replies(rounds))), |round|)
    ensures after == t0 + OpenLog(r0, rounds + round, echo)
    ensures Smooth(r0, Replies(rounds + round)) == Smooth(r0, Replies(rounds))
  {
    var w := Waits(Rto(Smooth(r0, Replies(rounds))), |round|);
    var log := TimeoutLog(r0, 0, rounds, echo);
    assert OpenLog(r0, rounds + round, echo) == log + w
        && Replies(rounds + round) == Replies(rounds) by {
      OpenRound(r0, rounds, round, echo);
    }
    ConcatAssoc(t0, log, w);
  }

  /** A round still waiting when the channel runs dry has applied the
      round's timeout and its backoff, and fed no sample. */
  lemma OpenRound(r0: Rtt, rounds: seq<Event>, round: seq<Event>, echo: bool)
    requires Pending(0, rounds) == 0 && AllTimeouts(round)
    ensures var r1 := Smooth(r0, Replies(rounds));
            Replies(rounds + round) == Replies(rounds)
            && OpenLog(r0, rounds + round, echo)
               == TimeoutLog(r0, 0, rounds, echo) + Waits(Rto(r1), |round|)
  {
    var r1 := Smooth(r0, Replies(rounds));
    PendingAppend(0, rounds, round);
    PendingOfTimeouts(0, round);
    RepliesAppend(rounds, round);
    RepliesOfTimeouts(round);
    assert Replies(rounds) + [] == Replies(rounds);
    var before := TimeoutLog(r0, 0, rounds, echo);
    if round == [] {
      assert rounds + round == rounds;
      assert OpenLog(r0, rounds, echo) == before + [Rto(r1)];
    } else {
      TimeoutLogAppend(r0, 0, rounds, round, echo);
      TimeoutLogOfTimeouts(r1, round, echo);
      assert Pending(0, rounds + round) != 0;
      assert OpenLog(r0, rounds + round, echo) == TimeoutLog(r0, 0, rounds + round, echo) + [];
      assert TimeoutLog(r0, 0, rounds + round, echo) == before + Waits(Rto(r1), |round|);
    }
  }

  /** A round whose reply is not awaited leaves the loop unfinished; one
      whose reply is awaited finishes it. */
  lemma AfterRound(w: Awaited, rounds: seq<Event>, round: seq<Event>)
    requires NoneAwaited(w, rounds)
    requires OneRound(round) || AllTimeouts(round)
    ensures AllTimeouts(round) ==> NoneAwaited(w, rounds + round)
    ensures OneRound(round) && !Awaits(w, round[|round| - 1].seg) ==> NoneAwaited(w, rounds + round)
    ensures OneRound(round) && Awaits(w, round[|round| - 1].seg) ==> RetransmittedUntil(w, rounds + round)
    ensures OneRound(round) ==> (rounds + round)[|rounds + round| - 1] == round[|round| - 1]
  {
    var all := rounds + round;
    if OneRound(round) {
      assert all[..|all| - 1] == rounds + round[..|round| - 1];
      assert forall i :: |rounds| <= i < |all| ==> all[i] == round[i - |rounds|];
    } else {
      assert forall i :: |rounds| <= i < |all| ==> all[i] == round[i - |rounds|];
    }
  }
}
