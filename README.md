# Bike tracker: fix gating and heartbeat scheduling

A model of the control logic in `main.cpp` of the mbed bike tracker. The
board has four status lamps (`led1` network link, `led2` fix acquired, `led3`
heartbeat in flight, `led4` lit by a successful post) and a heartbeat timer. Every turn
of the main loop polls the GPS. `try_to_update_gps` reports an update only
for a new NMEA sentence that parses and carries a fix, and it sets or clears
the fix lamp along the way. When the GPS updated and the timer reads at least
10 s, the loop sends a heartbeat: it lights `led3`, posts the fix to a fixed
URL and restarts the timer, whether or not the post succeeds. On any other
tick, once the timer reads at least 1 s, `led3` and `led4` go out. Before the
loop, `init_leds` plays a lamp animation that ends with every lamp off, and
`init_usb_modem` retries the modem connection until it succeeds, then lights
`led1`.

No lamp signals a failed post. A failed post only turns `led3` off
(main.cpp:17-21). `led4` is lit only by a successful post, and a failed post
leaves it as it was. So it can still show an earlier success until a tick
without a heartbeat clears it once the timer reads 1 s (main.cpp:182-184).

Files:

- `tracker.dfy` (module `Tracker`): the lamps, the timer and the inputs as
  values. One tick is the function `Step`; a bounded run of ticks is `Run`,
  which also counts `Heartbeats` and lists the requests `Sent`. `ConnectAttempts` gives the number of
  modem connect calls.
- `board.dfy` (module `Device`): class `Board`, whose fields are the four
  lamps and the timer. Its methods follow the C++ functions statement by
  statement, and each is proved against the functions of `Tracker`.
- `runs.dfy` (module `Runs`): lemmas about runs of several ticks.

The GPS library, the modem and the HTTP client are modelled only through the
values they return. Each tick receives a `TickInput`, which holds:

- the time since the timer was last observed;
- the three GPS booleans (new sentence, parse result, fix flag);
- the already formatted fix fields;
- the error code `http.post` would return (0 means success).

The modem retry receives the sequence of error codes that `connect`
returns, which must contain a 0. The timer starts before the lamp animation
and the modem set-up. So the time of the first tick's `dt` includes them,
and the loop's lemmas hold from any initial timer reading.

## Model

| member | source | states |
|---|---|---|
| `Tracker.GpsUpdated` | main.cpp:50-92 | the GPS reports an update iff a new sentence arrived, it parsed and the fix flag is set |
| `Tracker.FixLamp` | main.cpp:53-91 | after a parsed sentence the fix lamp equals the fix flag; with no sentence or a parse failure it keeps its old value |
| `Tracker.PostLamps` | main.cpp:17-27 | a post leaves `led1` and `led2` alone; afterwards `led3` is on iff it was on and the post succeeded, and `led4` is on iff it was on or the post succeeded |
| `Tracker.HeartbeatRequest` | main.cpp:39-45 | the heartbeat goes to the fixed endpoint with exactly the keys `location`, `speed`, `angle`, in that order, each holding its fix field |
| `Tracker.Fires` | main.cpp:176 | a tick sends a heartbeat iff a new sentence parsed with a fix and the timer reads at least 10 s |
| `Tracker.Step` | main.cpp:168-186 | a tick never changes `led1`, and only the GPS gate changes `led2`. A heartbeat resets the timer to 0, leaves `led3` on iff the post succeeded and turns `led4` on when the post succeeded, leaving it unchanged otherwise. Without a heartbeat the timer keeps counting, and `led3` and `led4` are both off once it reads at least 1 s; below 1 s they are unchanged |
| `Tracker.ConnectAttempts` | main.cpp:120-128 | the retry makes as many connect calls as it takes to reach the first that returns 0; every earlier call failed |
| `Device.Board.constructor` | main.cpp:161-162 | the board starts with every lamp declared at main.cpp:7 off, and `heartbeat_timer.start()` starts the timer at 0 |
| `Device.Board.InitLeds` | main.cpp:94-113 | the animation leaves all four lamps off |
| `Device.Board.InitUsbModem` | main.cpp:115-133 | the loop returns only after a connect call reports no error, after exactly `ConnectAttempts` calls, and then `led1` is on |
| `Device.Board.Post` | main.cpp:9-28 | a failed post turns `led3` off and leaves `led4` alone; a successful one turns `led4` on and leaves `led3` alone |
| `Device.Board.SendHeartbeat` | main.cpp:30-46 | builds the three-key form key by key and posts it, with the lamp effects of a post |
| `Device.Board.TryToUpdateGps` | main.cpp:50-92 | returns the gate's verdict and leaves the fix lamp as `FixLamp` says |
| `Device.Board.Tick` | main.cpp:170-185 | the board's new lamps and timer are those of `Step`; it returns the request it sent exactly when the tick fires |
| `Device.Board.Loop` | main.cpp:168-186 | running the loop for a sequence of ticks reaches the state of `Run`; it returns exactly the requests of `Sent`, in order, one per heartbeat that `Heartbeats` counts |
| `Runs.RunSnoc` | main.cpp:168-186 | one more turn of the loop adds one step, and, when that tick fires, one heartbeat whose request carries that tick's fix |
| `Runs.SentMatchesHeartbeats` | main.cpp:176-180 | a run sends exactly as many requests as it counts heartbeats, each to the fixed endpoint |
| `Runs.RunAppend` | main.cpp:168-186 | running two stretches of ticks back to back is the same as running them joined together, for the state, the heartbeats, the requests sent and the time spanned |
| `Runs.RunKeepsNetworkLamp` | main.cpp:131 | no sequence of ticks changes `led1`; only the modem set-up leaves it lit |
| `Runs.NoUpdateRunNeverSends` | main.cpp:176-185 | ticks without a GPS update never send a heartbeat or any request, however large the timer reading is, and the timer keeps accumulating |
| `Runs.UnparsedRunKeepsFixLamp` | main.cpp:53-65 | ticks with no new sentence or an unparsable one leave the fix lamp unchanged, count no heartbeat and send no request |
| `Runs.AtMostOneHeartbeatPerPeriod` | main.cpp:176-180 | whatever the post outcomes, the heartbeats sent times 10 s, plus the final timer reading, never exceed the initial reading plus the time the ticks span |
| `Runs.FixAfterQuietPeriodSendsOnce` | main.cpp:174-180 | ticks without an update, then a fix once 10 s have passed: exactly one heartbeat, whose request carries that last tick's fix, with the timer back at 0 and the fix lamp on |
| `Runs.FailedPostIsNotRetried` | main.cpp:17-21 | a failed heartbeat turns `led3` off, leaves `led4` unchanged and resets the timer, so the next tick (less than 10 s later) does not retry |
| `Runs.FailedPostCanLeaveEarlierSuccessLit` | main.cpp:17-26 | a successful heartbeat followed 10 s later by a failed one sends two heartbeats and leaves `led3` off but `led4` still lit |
| `Runs.ConnectAfterThreeFailures` | main.cpp:120-128 | three failed connects followed by a success take exactly four calls |

## Left out

- NMEA sentence parsing, `gps->read()` and the GPS set-up in `init_gps` belong to the Adafruit GPS library. The model sees the GPS only through the new-sentence, parse and fix booleans.
- The `sprintf` formatting of latitude, longitude, speed and angle is C library floating-point formatting. The formatted strings are inputs.
- `HTTPClient::post` and `VodafoneUSBModem::connect` are foreign calls. They appear only as their returned error codes, and the URL and form are not sent anywhere.
- Console output (`cout`, `printf`), the `Thread::wait` delays and the intermediate frames of the `init_leds` animation are left out; `InitLeds` executes the frames, but only their final state is stated.
- `Device.Board.Tick`: the source reads the timer twice in one tick, at line 176 and again at line 182. The model takes both reads at the same instant, so it misses the microseconds that may pass between them.
- `Device.Board.InitUsbModem`: the source retries without end. The model runs the retry over a given finite sequence of connect results that contains a success.
- `Device.Board.Loop`: the source's `while (1)` never ends. The model runs it for a given finite sequence of ticks.
- The timer is an unbounded non-negative real. Any range limit or wrap-around of the board's hardware timer is not modelled.
