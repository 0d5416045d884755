/** Properties of bounded runs of the main loop: what a sequence of ticks can
    and cannot do to the lamps, the timer and the heartbeat count. */
module Runs {
  import opened Tracker

  /** Running one more tick appends one step, and one heartbeat, carrying that
      tick's fix, when that tick fires. */
  lemma {:induction false} RunSnoc(s: Snapshot, ts: seq<TickInput>, t: TickInput)
    ensures Run(s, ts + [t]) == Step(Run(s, ts), t)
    ensures Heartbeats(s, ts + [t]) == Heartbeats(s, ts) + (if Fires(Run(s, ts), t) then 1 else 0)
    ensures Sent(s, ts + [t]) == Sent(s, ts) + (if Fires(Run(s, ts), t) then [HeartbeatRequest(t.fix)] else [])
    decreases |ts|
  {
    if ts == [] {
      assert [] + [t] == [t];
    } else {
      assert (ts + [t])[1..] == ts[1..] + [t];
      RunSnoc(Step(s, ts[0]), ts[1..], t);
      var first := if Fires(s, ts[0]) then [HeartbeatRequest(ts[0].fix)] else [];
      var last := if Fires(Run(s, ts), t) then [HeartbeatRequest(t.fix)] else [];
      assert first + (Sent(Step(s, ts[0]), ts[1..]) + last) == (first + Sent(Step(s, ts[0]), ts[1..])) + last;
    }
  }

  /** Each heartbeat counted is one request sent. */
  lemma {:induction false} SentMatchesHeartbeats(s: Snapshot, ts: seq<TickInput>)
    ensures |Sent(s, ts)| == Heartbeats(s, ts)
    ensures forall k :: 0 <= k < |Sent(s, ts)| ==> Sent(s, ts)[k].url == Endpoint
    decreases |ts|
  {
    if ts != [] {
      SentMatchesHeartbeats(Step(s, ts[0]), ts[1..]);
    }
  }

  /** Running two sequences of ticks one after the other is running their concatenation. */
  lemma {:induction false} RunAppend(s: Snapshot, xs: seq<TickInput>, ys: seq<TickInput>)
    ensures Run(s, xs + ys) == Run(Run(s, xs), ys)
    ensures Heartbeats(s, xs + ys) == Heartbeats(s, xs) + Heartbeats(Run(s, xs), ys)
    ensures Sent(s, xs + ys) == Sent(s, xs) + Sent(Run(s, xs), ys)
    ensures Duration(xs + ys) == Duration(xs) + Duration(ys)
    decreases |xs|
  {
    if xs == [] {
      assert [] + ys == ys;
    } else {
      assert (xs + ys)[1..] == xs[1..] + ys;
      RunAppend(Step(s, xs[0]), xs[1..], ys);
      var first := if Fires(s, xs[0]) then [HeartbeatRequest(xs[0].fix)] else [];
      assert first + (Sent(Step(s, xs[0]), xs[1..]) + Sent(Run(s, xs), ys))
          == (first + Sent(Step(s, xs[0]), xs[1..])) + Sent(Run(s, xs), ys);
    }
  }

  /** No tick ever changes the network lamp: it is lit once, by the modem set-up. */
  lemma {:induction false} RunKeepsNetworkLamp(s: Snapshot, ts: seq<TickInput>)
    ensures Run(s, ts).lamps.led1 == s.lamps.led1
    decreases |ts|
  {
    if ts != [] {
      RunKeepsNetworkLamp(Step(s, ts[0]), ts[1..]);
    }
  }

  /** Ticks on which the GPS reports no update never send a heartbeat, however
      long the timer has run, and the timer keeps accumulating. */
  lemma {:induction false} NoUpdateRunNeverSends(s: Snapshot, ts: seq<TickInput>)
    requires forall i :: 0 <= i < |ts| ==> !GpsUpdated(ts[i].gps)
    ensures Heartbeats(s, ts) == 0
    ensures Sent(s, ts) == []
    ensures Run(s, ts).elapsed == s.elapsed + Duration(ts)
    decreases |ts|
  {
    if ts != [] {
      NoUpdateRunNeverSends(Step(s, ts[0]), ts[1..]);
    }
  }

  /** Polls that bring no new sentence, or one that does not parse, leave the
      fix lamp alone; being ticks without a GPS update, they also send nothing. */
  lemma {:induction false} UnparsedRunKeepsFixLamp(s: Snapshot, ts: seq<TickInput>)
    requires forall i :: 0 <= i < |ts| ==> !(ts[i].gps.newSentence && ts[i].gps.parseOk)
    ensures Run(s, ts).lamps.led2 == s.lamps.led2
    ensures Heartbeats(s, ts) == 0
    ensures Sent(s, ts) == []
    decreases |ts|
  {
    if ts != [] {
      UnparsedRunKeepsFixLamp(Step(s, ts[0]), ts[1..]);
    }
    SentMatchesHeartbeats(s, ts);
  }

  /** At most one heartbeat per period, whatever the transport returns: every
      heartbeat uses up a full period of timer time. */
  lemma {:induction false} AtMostOneHeartbeatPerPeriod(s: Snapshot, ts: seq<TickInput>)
    ensures HeartbeatPeriod * (Heartbeats(s, ts) as real) + Run(s, ts).elapsed
              <= s.elapsed + Duration(ts)
    decreases |ts|
  {
    if ts != [] {
      AtMostOneHeartbeatPerPeriod(Step(s, ts[0]), ts[1..]);
    }
  }

  /** A stretch of ticks without a GPS update, then a tick with a fix once the
      period has run out: exactly one heartbeat, sent by that last tick with its own fix, and
      the timer restarts from 0. */
  lemma FixAfterQuietPeriodSendsOnce(s: Snapshot, quiet: seq<TickInput>, t: TickInput)
    requires forall i :: 0 <= i < |quiet| ==> !GpsUpdated(quiet[i].gps)
    requires GpsUpdated(t.gps)
    requires s.elapsed + Duration(quiet) + t.dt >= HeartbeatPeriod
    ensures Heartbeats(s, quiet + [t]) == 1
    ensures Sent(s, quiet + [t]) == [HeartbeatRequest(t.fix)]
    ensures Run(s, quiet + [t]).elapsed == 0.0
    ensures Run(s, quiet + [t]).lamps.led2
  {
    NoUpdateRunNeverSends(s, quiet);
    RunAppend(s, quiet, [t]);
    assert [HeartbeatRequest(t.fix)] + [] == [HeartbeatRequest(t.fix)];
  }

  /** A heartbeat whose post fails leaves the in-flight lamp off, the success
      lamp as it was, and the timer at 0: the failure is not retried on the next tick. */
  lemma FailedPostIsNotRetried(s: Snapshot, t: TickInput, next: TickInput)
    requires Fires(s, t) && t.postError != 0
    requires next.dt < HeartbeatPeriod
    ensures !Step(s, t).lamps.led3
    ensures Step(s, t).lamps.led4 == s.lamps.led4
    ensures Step(s, t).elapsed == 0.0
    ensures !Fires(Step(s, t), next)
  {
  }

  /** The success lamp is not a record of the last post: a successful heartbeat
      followed, 10 s later, by a failed one leaves `led4` lit, because only a
      tick without a heartbeat clears it. */
  lemma FailedPostCanLeaveEarlierSuccessLit(g: GpsPoll, f: FormattedFix)
    requires GpsUpdated(g)
    ensures var ok := TickInput(0.0, g, f, 0);
            var failed := TickInput(HeartbeatPeriod, g, f, 1);
            var s := Run(Snapshot(AllOff, HeartbeatPeriod), [ok, failed]);
            s.lamps.led4 && !s.lamps.led3 && Heartbeats(Snapshot(AllOff, HeartbeatPeriod), [ok, failed]) == 2
  {
    var ok := TickInput(0.0, g, f, 0);
    var failed := TickInput(HeartbeatPeriod, g, f, 1);
    var s0 := Snapshot(AllOff, HeartbeatPeriod);
    var s1 := Step(s0, ok);
    assert Fires(s0, ok) && s1.lamps.led4 && s1.elapsed == 0.0;
    var s2 := Step(s1, failed);
    assert Fires(s1, failed) && s2.lamps.led4 && !s2.lamps.led3;
    assert [ok, failed][1..] == [failed];
    assert [failed][1..] == [];
    assert Run(s0, [ok, failed]) == Run(s1, [failed]) == Run(s2, []) == s2;
    assert Heartbeats(s0, [ok, failed]) == 1 + Heartbeats(s1, [failed]) == 2 + Heartbeats(s2, []);
  }

  /** Three failed connection attempts and then a success: the fourth `connect` call is the last. */
  lemma ConnectAfterThreeFailures(e1: int, e2: int, e3: int, rest: seq<int>)
    requires e1 != 0 && e2 != 0 && e3 != 0
    ensures ConnectAttempts([e1, e2, e3, 0] + rest) == 4
  {
    var errors := [e1, e2, e3, 0] + rest;
    assert errors[3] == 0;
  }
}
