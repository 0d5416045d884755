/** The bike tracker's decision logic as values: the four status lamps, the
    heartbeat timer, one tick of the main loop as a state transition, and the
    modem connection retry. The board itself (module Device) is proved
    against these functions. */
module Tracker {

  datatype Option<T> = None | Some(value: T)

  /** A reading of the heartbeat timer, in seconds; the timer never runs backwards. */
  type Seconds = r: real | 0.0 <= r

  /** The heartbeat period, `heartbeat_period_s` in main(). */
  const HeartbeatPeriod: Seconds := 10.0

  /** Below this timer reading the heartbeat lamps are left as they are. */
  const LampDecay: Seconds := 1.0

  /** The fixed endpoint every heartbeat is posted to. */
  const Endpoint: string := "http://httpbin.org/post"

  /** The four board lamps: led1 network link, led2 fix acquired,
      led3 heartbeat in flight, led4 lit only by a successful post (a failed
      post leaves it as it was, so it may still show an earlier success until
      a tick without a heartbeat clears it once the timer reads 1 s). */
  datatype Lamps = Lamps(led1: bool, led2: bool, led3: bool, led4: bool)

  const AllOff: Lamps := Lamps(false, false, false, false)

  /** Everything a tick reads and writes: the lamps and the timer. */
  datatype Snapshot = Snapshot(lamps: Lamps, elapsed: Seconds)

  /** What the GPS library reports on one poll: whether a complete sentence
      arrived, whether it parsed, and the fix flag after parsing. */
  datatype GpsPoll = GpsPoll(newSentence: bool, parseOk: bool, fix: bool)

  /** The fix fields of a heartbeat, already formatted as text. */
  datatype FormattedFix = FormattedFix(location: string, speed: string, angle: string)

  /** An HTTP form post: the URL and the ordered key/value pairs of the form. */
  datatype Request = Request(url: string, form: seq<(string, string)>)

  /** The outside world as one tick sees it: the time since the timer was last
      observed, the GPS poll, the formatted fix and the error code that
      `http.post` returns should a heartbeat be sent (0 means success). */
  datatype TickInput = TickInput(dt: Seconds, gps: GpsPoll, fix: FormattedFix, postError: int)

  /** Whether `try_to_update_gps` reports an update: a new sentence, parsed, with a fix. */
  function GpsUpdated(g: GpsPoll): (r: bool)
    ensures r <==> g.newSentence && g.parseOk && g.fix
  {
    if !g.newSentence then false
    else if !g.parseOk then false
    else if !g.fix then false
    else true
  }

  /** The fix lamp after `try_to_update_gps`, given its value before. */
  function FixLamp(g: GpsPoll, led2: bool): (r: bool)
    ensures g.newSentence && g.parseOk ==> (r <==> g.fix)
    ensures !(g.newSentence && g.parseOk) ==> r == led2
  {
    if !g.newSentence then led2
    else if !g.parseOk then led2
    else if !g.fix then false
    else true
  }

  /** The lamps after `post`, given the transport's error code. */
  function PostLamps(l: Lamps, error: int): (r: Lamps)
    ensures r.led1 == l.led1 && r.led2 == l.led2
    ensures r.led3 <==> l.led3 && error == 0
    ensures r.led4 <==> l.led4 || error == 0
  {
    if error != 0 then l.(led3 := false) else l.(led4 := true)
  }

  /** The form `send_heartbeat` posts. */
  function HeartbeatRequest(f: FormattedFix): (r: Request)
    ensures r.url == Endpoint
    ensures |r.form| == 3
    ensures r.form[0] == ("location", f.location)
    ensures r.form[1] == ("speed", f.speed)
    ensures r.form[2] == ("angle", f.angle)
  {
    Request(Endpoint, [("location", f.location), ("speed", f.speed), ("angle", f.angle)])
  }

  /** The timer reading a tick compares against. */
  function Reading(s: Snapshot, t: TickInput): (r: Seconds)
  {
    s.elapsed + t.dt
  }

  /** Whether the tick sends a heartbeat. */
  function Fires(s: Snapshot, t: TickInput): (r: bool)
    ensures r <==> t.gps.newSentence && t.gps.parseOk && t.gps.fix && s.elapsed + t.dt >= 10.0
  {
    GpsUpdated(t.gps) && Reading(s, t) >= HeartbeatPeriod
  }

  /** One iteration of the main loop. */
  function Step(s: Snapshot, t: TickInput): (r: Snapshot)
    ensures r.lamps.led1 == s.lamps.led1
    ensures r.lamps.led2 == FixLamp(t.gps, s.lamps.led2)
    ensures Fires(s, t) ==> r.elapsed == 0.0
    ensures Fires(s, t) ==> (r.lamps.led3 <==> t.postError == 0)
    ensures Fires(s, t) ==> (r.lamps.led4 <==> s.lamps.led4 || t.postError == 0)
    ensures !Fires(s, t) ==> r.elapsed == s.elapsed + t.dt
    ensures !Fires(s, t) && s.elapsed + t.dt >= 1.0 ==> !r.lamps.led3 && !r.lamps.led4
    ensures !Fires(s, t) && s.elapsed + t.dt < 1.0 ==>
              r.lamps.led3 == s.lamps.led3 && r.lamps.led4 == s.lamps.led4
  {
    var polled := s.lamps.(led2 := FixLamp(t.gps, s.lamps.led2));
    if Fires(s, t) then
      Snapshot(PostLamps(polled.(led3 := true), t.postError), 0.0)
    else if Reading(s, t) >= LampDecay then
      Snapshot(polled.(led3 := false, led4 := false), Reading(s, t))
    else
      Snapshot(polled, Reading(s, t))
  }

  /** The state after a bounded sequence of ticks. */
  function Run(s: Snapshot, ts: seq<TickInput>): (r: Snapshot)
    decreases |ts|
  {
    if ts == [] then s else Run(Step(s, ts[0]), ts[1..])
  }

  /** How many heartbeats a sequence of ticks sends. */
  function Heartbeats(s: Snapshot, ts: seq<TickInput>): (n: nat)
    decreases |ts|
  {
    if ts == [] then 0
    else (if Fires(s, ts[0]) then 1 else 0) + Heartbeats(Step(s, ts[0]), ts[1..])
  }

  /** The heartbeats a sequence of ticks sends, in order: each firing tick
      posts the form built from its own fix. */
  function Sent(s: Snapshot, ts: seq<TickInput>): (rs: seq<Request>)
    decreases |ts|
  {
    if ts == [] then []
    else (if Fires(s, ts[0]) then [HeartbeatRequest(ts[0].fix)] else [])
         + Sent(Step(s, ts[0]), ts[1..])
  }

  /** The total time a sequence of ticks spans. */
  function Duration(ts: seq<TickInput>): (d: Seconds)
    decreases |ts|
  {
    if ts == [] then 0.0 else ts[0].dt + Duration(ts[1..])
  }

  /** How many `connect` calls the modem retry loop makes, given the error
      codes the calls return in turn: up to and including the first 0. */
  function ConnectAttempts(errors: seq<int>): (n: nat)
    requires 0 in errors
    ensures 1 <= n <= |errors|
    ensures errors[n - 1] == 0
    ensures forall j :: 0 <= j < n - 1 ==> errors[j] != 0
    decreases |errors|
  {
    if errors[0] == 0 then 1
    else
      assert errors == [errors[0]] + errors[1..];
      1 + ConnectAttempts(errors[1..])
  }
}
