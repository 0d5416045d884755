/** The tracker board as main.cpp drives it: four lamps and the heartbeat
    timer, updated in place. The GPS receiver, the modem and the HTTP
    transport appear only through the values they return, passed in. */
module Device {
  import opened Tracker
  import Runs

  class Board {
    var led1: bool
    var led2: bool
    var led3: bool
    var led4: bool
    /** The heartbeat timer's reading when it was last observed. */
    var elapsed: Seconds

    function Lights(): Lamps
      reads this
    {
      Lamps(led1, led2, led3, led4)
    }

    function State(): Snapshot
      reads this
    {
      Snapshot(Lights(), elapsed)
    }

    /** Power-up: the lamps start off and `heartbeat_timer.start()` starts the timer at 0. */
    constructor ()
      ensures State() == Snapshot(AllOff, 0.0)
    {
      led1, led2, led3, led4 := false, false, false, false;
      elapsed := 0.0;
    }

    /** The start-up lamp animation; the waits between frames are not modelled. */
    method InitLeds()
      modifies this`led1, this`led2, this`led3, this`led4
      ensures Lights() == AllOff
    {
      led1, led2, led3, led4 := false, false, false, false;
      led1 := true;
      led1, led2 := false, true;
      led2, led3 := false, true;
      led3, led4 := false, true;
      led4, led3 := false, true;
      led3, led2 := false, true;
      led2, led1 := false, true;
      led1 := false;
    }

    /** Calls `connect` until it returns 0, the n-th call returning `errors[n-1]`,
        then lights the network lamp. */
    method InitUsbModem(errors: seq<int>) returns (attempts: nat)
      requires 0 in errors
      modifies this`led1
      ensures attempts == ConnectAttempts(errors)
      ensures 1 <= attempts <= |errors| && errors[attempts - 1] == 0
      ensures forall j :: 0 <= j < attempts - 1 ==> errors[j] != 0
      ensures led1
    {
      var error := errors[0];
      attempts := 1;
      while error != 0
        invariant 1 <= attempts <= |errors|
        invariant error == errors[attempts - 1]
        invariant forall j :: 0 <= j < attempts - 1 ==> errors[j] != 0
        invariant 0 in errors[attempts - 1..]
        decreases |errors| - attempts
      {
        assert errors[attempts - 1..] == [error] + errors[attempts..];
        error := errors[attempts];
        attempts := attempts + 1;
      }
      led1 := true;
    }

    /** Posts the request; `error` is what the transport returns. */
    method Post(request: Request, error: int)
      modifies this`led3, this`led4
      ensures Lights() == PostLamps(old(Lights()), error)
    {
      if error != 0 {
        led3 := false;
      } else {
        led4 := true;
      }
    }

    /** Builds the heartbeat form key by key and posts it. */
    method SendHeartbeat(fix: FormattedFix, error: int) returns (request: Request)
      modifies this`led3, this`led4
      ensures request == HeartbeatRequest(fix)
      ensures Lights() == PostLamps(old(Lights()), error)
    {
      var form: seq<(string, string)> := [];
      form := form + [("location", fix.location)];
      form := form + [("speed", fix.speed)];
      form := form + [("angle", fix.angle)];
      request := Request(Endpoint, form);
      Post(request, error);
    }

    /** Polls the GPS once; true only for a parsed sentence with a fix. */
    method TryToUpdateGps(g: GpsPoll) returns (updated: bool)
      modifies this`led2
      ensures updated == GpsUpdated(g)
      ensures led2 == FixLamp(g, old(led2))
    {
      if !g.newSentence {
        return false;
      }
      if !g.parseOk {
        return false;
      }
      if !g.fix {
        led2 := false;
        return false;
      }
      led2 := true;
      return true;
    }

    /** One iteration of the main loop; returns the heartbeat it sent, if any. */
    method Tick(t: TickInput) returns (sent: Option<Request>)
      modifies this
      ensures State() == Step(old(State()), t)
      ensures sent == if Fires(old(State()), t) then Some(HeartbeatRequest(t.fix)) else None
    {
      elapsed := elapsed + t.dt;
      var updated := TryToUpdateGps(t.gps);
      if updated && elapsed >= HeartbeatPeriod {
        led3 := true;
        var request := SendHeartbeat(t.fix, t.postError);
        elapsed := 0.0;
        sent := Some(request);
      } else if elapsed >= LampDecay {
        led3, led4 := false, false;
        sent := None;
      } else {
        sent := None;
      }
    }

    /** The main loop, run for the given ticks; returns the heartbeats sent, in order. */
    method Loop(ts: seq<TickInput>) returns (sent: seq<Request>)
      modifies this
      ensures State() == Run(old(State()), ts)
      ensures sent == Sent(old(State()), ts)
      ensures |sent| == Heartbeats(old(State()), ts)
    {
      ghost var start := State();
      sent := [];
      var i := 0;
      while i < |ts|
        invariant 0 <= i <= |ts|
        invariant State() == Run(start, ts[..i])
        invariant sent == Sent(start, ts[..i])
      {
        var request := Tick(ts[i]);
        Runs.RunSnoc(start, ts[..i], ts[i]);
        assert ts[..i + 1] == ts[..i] + [ts[i]];
        if request.Some? {
          sent := sent + [request.value];
        }
        i := i + 1;
      }
      assert ts[..i] == ts;
      Runs.SentMatchesHeartbeats(start, ts);
    }
  }
}
