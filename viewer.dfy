/** The viewer page (viewer.js): it polls the cue endpoint, forwards new
    cues to the paired bat as one pattern byte unless paused or muted,
    turns tap notifications from the bat into counted taps, and keeps a
    rolling one-minute window of tap times for the hits-per-minute rate
    and the flame display.

    `Date.now()` is the parameter `now` (milliseconds). The Web Bluetooth
    objects are reduced to the flags `connected` and `hasPatternChar` and
    the log `patternWrites` of bytes handed to `writeValue`. */
module Viewer {
  import opened Bytes

  /** Taps older than this many milliseconds leave the window. */
  const TapWindowMs := 60000
  /** Hits per minute at which the flame "blazes". */
  const BlazeThreshold := 50

  datatype Screen = Setup | PreGame | Live | NowWhat | Trouble | Post

  // ---------------------------------------------------------------------
  // Pure parts

  /** The `patternId` of the CUE table entry for a key; a key with no
      entry falls back to `CUE.stop`. */
  function PatternId(cueKey: string): (id: int)
    ensures 0 <= id <= 2
    ensures id == 1 <==> cueKey == "chance"
    ensures id == 2 <==> cueKey == "pinch"
  {
    if cueKey == "chance" then 1
    else if cueKey == "pinch" then 2
    else 0
  }

  /** `clamp(n, min, max)` of viewer.js. */
  function Clamp(n: int, lo: int, hi: int): (r: int)
    ensures lo <= hi ==> lo <= r <= hi
    ensures lo <= n <= hi ==> r == n
    ensures r == n || r == lo || r == hi
  {
    if n < lo then lo
    else if n > hi then hi
    else n
  }

  /** The flame level `applyFlame` shows for a hit total. */
  function FlameLevel(totalHits: int): (level: int)
    ensures 1 <= level <= 5
  {
    Clamp(totalHits / 10 + 1, 1, 5)
  }

  /** The "blaze" badge of `applyFlame`. */
  predicate Blazing(perMin: int): (b: bool)
    ensures b <==> perMin >= BlazeThreshold
  {
    perMin >= BlazeThreshold
  }

  /** The tap window after `trimOldTaps` at time `now`: leading entries
      older than the window are dropped, and nothing else. */
  function Trimmed(taps: seq<int>, now: int): (r: seq<int>)
    ensures |r| <= |taps| && r == taps[|taps| - |r|..]
    ensures forall i :: 0 <= i < |taps| - |r| ==> taps[i] < now - TapWindowMs
    ensures r != [] ==> r[0] >= now - TapWindowMs
    decreases |taps|
  {
    if |taps| > 0 && taps[0] < now - TapWindowMs then Trimmed(taps[1..], now)
    else taps
  }

  ghost predicate Sorted(taps: seq<int>) {
    forall i, j :: 0 <= i < j < |taps| ==> taps[i] <= taps[j]
  }

  /** Whether a tap notification's payload counts as one tap: it does
      unless its first byte is present and zero. */
  predicate CountsAsTap(payload: seq<byte>): (b: bool)
    ensures payload == [] ==> b
    ensures |payload| >= 1 ==> (b <==> payload[0] != 0)
  {
    if |payload| >= 1 then payload[0] > 0 else true
  }

  /** The fields of a cue poll's JSON body; a missing or falsy `seq` is 0,
      a missing `cueKey` or `at` is "". */
  datatype CueData = CueData(seqNo: int, cueKey: string, at: string)

  /** The body of a poll reply: not JSON (so `res.json()` rejects), the
      JSON value `null`, or an object. */
  datatype Json = Unreadable | Null | Data(cue: CueData)

  /** What one `fetch` of the cue endpoint produced. */
  datatype PollOutcome = FetchFailed | Reply(status: int, body: Json)

  /** The cue state a poll updates. */
  datatype CueView = CueView(lastSeq: int, cueKey: string, cueCount: int, lastCueAt: string)

  /** A poll outcome carries a cue the viewer takes: an OK, non-204 reply
      whose JSON has a non-zero seq that differs from `lastSeq`. */
  predicate Advances(lastSeq: int, o: PollOutcome): (b: bool)
    ensures o.FetchFailed? ==> !b
    ensures o.Reply? && (o.status == 204 || o.status < 200 || o.status >= 300) ==> !b
    ensures o.Reply? && !o.body.Data? ==> !b
    ensures b ==> o.body.cue.seqNo != 0 && o.body.cue.seqNo != lastSeq
  {
    && o.Reply?
    && o.status != 204
    && 200 <= o.status < 300
    && o.body.Data?
    && o.body.cue.seqNo != 0
    && o.body.cue.seqNo != lastSeq
  }

  /** The cue state after `pollCueOnce` handles an outcome. */
  function ApplyPoll(v: CueView, o: PollOutcome): (r: CueView)
    ensures r != v <==> Advances(v.lastSeq, o)
    ensures r != v ==> r.lastSeq == o.body.cue.seqNo && r.lastSeq != 0 && r.lastSeq != v.lastSeq
    ensures r != v ==> r.cueKey != "" && r.cueCount == v.cueCount + 1
    ensures r != v ==>
      && r.cueKey == (if o.body.cue.cueKey == "" then "stop" else o.body.cue.cueKey)
      && r.lastCueAt == o.body.cue.at
  {
    if Advances(v.lastSeq, o) then
      var d := o.body.cue;
      CueView(d.seqNo, if d.cueKey == "" then "stop" else d.cueKey, v.cueCount + 1, d.at)
    else v
  }

  /** How far the connect handshake of `connectFlow` got: the device
      chooser was rejected; the device was chosen but `gatt.connect`,
      `getPrimaryService` or the pattern `getCharacteristic` rejected; the
      pattern characteristic was found but the tap characteristic or
      `startNotifications` rejected; or every step succeeded. `name` is
      the chosen device's name ("" when it has none). */
  datatype Handshake = NoDevice | LinkFailed(name: string) | TapSetupFailed(name: string) | Linked(name: string)

  /** What the rate ticker shows: nothing off the live screen, else the
      rate, the flame level and the blaze flag. */
  datatype FlameView = NotLive | Flame(perMin: int, level: int, blazing: bool)

  // ---------------------------------------------------------------------
  // The page state

  class Viewer {
    /** `BLE.supported`. */
    const bleSupported: bool

    var screen: Screen
    var room: string
    var mode: string
    var connected: bool
    var deviceName: string
    /** `BLE.chPattern` is non-null. */
    var hasPatternChar: bool
    var paused: bool
    var muted: bool
    var hitCount: int
    var cueKey: string
    var cueCount: int
    var lastCueAt: string
    var lastSeq: int
    var tapTimes: seq<int>
    /** Every byte handed to the pattern characteristic's `writeValue`. */
    var patternWrites: seq<byte>

    /** In this model `connected` is only ever set after the pattern
        characteristic was obtained, and `BLE.chPattern` is never cleared.
        The page itself does not keep this: restoring a saved state can set
        `connected` while `BLE.chPattern` is null, which is why `sendPattern`
        tests both; restoring saved state is not part of this model. */
    ghost predicate Valid()
      reads this
    {
      connected ==> hasPatternChar
    }

    function Cue(): CueView
      reads this
    {
      CueView(lastSeq, cueKey, cueCount, lastCueAt)
    }

    /** The room and since a poll asks for. */
    function PollQuery(): (q: (string, int))
      reads this
      ensures q.0 != ""
      ensures q.0 == (if room == "" then "demo" else room)
      ensures q.1 == lastSeq
    {
      (if room == "" then "demo" else room, lastSeq)
    }

    /** The page's state on a first load (`stateDefault`). */
    constructor (bleSupported: bool)
      ensures Valid()
      ensures this.bleSupported == bleSupported
      ensures screen == Setup && room == "demo" && mode == ""
      ensures !connected && deviceName == "" && !hasPatternChar
      ensures !paused && !muted
      ensures hitCount == 0 && cueKey == "stop" && cueCount == 0 && lastCueAt == "" && lastSeq == 0
      ensures tapTimes == [] && patternWrites == []
    {
      this.bleSupported := bleSupported;
      screen, room, mode := Setup, "demo", "";
      connected, deviceName, hasPatternChar := false, "", false;
      paused, muted := false, false;
      hitCount, cueKey, cueCount, lastCueAt, lastSeq := 0, "stop", 0, "", 0;
      tapTimes, patternWrites := [], [];
    }

    /** `sendPattern`: write `patternId & 255` only while connected and
        holding the pattern characteristic; otherwise do nothing. */
    method SendPattern(patternId: int)
      modifies this`patternWrites
      ensures patternWrites == old(patternWrites) + (if connected && hasPatternChar then [LowByte(patternId)] else [])
    {
      if !connected {
        return;
      }
      if !hasPatternChar {
        return;
      }
      patternWrites := patternWrites + [LowByte(patternId)];
    }

    /** `pollCueOnce` on the outcome of its fetch. */
    method PollCueOnce(o: PollOutcome)
      requires Valid()
      modifies this`lastSeq, this`cueKey, this`cueCount, this`lastCueAt, this`patternWrites
      ensures Cue() == ApplyPoll(old(Cue()), o)
      ensures patternWrites == old(patternWrites) +
        (if Advances(old(lastSeq), o) && !muted && !paused && connected then [LowByte(PatternId(cueKey))] else [])
    {
      if o.FetchFailed? {
        return;
      }
      if o.status == 204 {
        return;
      }
      if !(200 <= o.status < 300) {
        return;
      }
      if !o.body.Data? {
        return;
      }
      var data := o.body.cue;
      if data.seqNo == 0 {
        return;
      }
      if data.seqNo != lastSeq {
        lastSeq := data.seqNo;
        cueKey := if data.cueKey == "" then "stop" else data.cueKey;
        cueCount := cueCount + 1;
        lastCueAt := data.at;
        if !muted && !paused {
          SendPattern(PatternId(cueKey));
        }
      }
    }

    /** `trimOldTaps`: shift stale taps off the head of the window. */
    method TrimOldTaps(now: int)
      modifies this`tapTimes
      ensures tapTimes == Trimmed(old(tapTimes), now)
    {
      while |tapTimes| > 0
        invariant Trimmed(tapTimes, now) == Trimmed(old(tapTimes), now)
        decreases |tapTimes|
      {
        if tapTimes[0] >= now - TapWindowMs {
          break;
        }
        tapTimes := tapTimes[1..];
      }
    }

    /** `countLastMinute`: trim, then count what is left. */
    method CountLastMinute(now: int) returns (n: int)
      modifies this`tapTimes
      ensures tapTimes == Trimmed(old(tapTimes), now)
      ensures n == |tapTimes|
    {
      TrimOldTaps(now);
      n := |tapTimes|;
    }

    /** `addTap`: count one hit and record its time. */
    method AddTap(now: int)
      modifies this`hitCount, this`tapTimes
      ensures hitCount == old(hitCount) + 1
      ensures tapTimes == Trimmed(old(tapTimes) + [now], now)
    {
      hitCount := hitCount + 1;
      tapTimes := tapTimes + [now];
      TrimOldTaps(now);
    }

    /** `onTapNotify`: taps count only on the live screen and while not
        paused, and then unless the payload's first byte is 0. */
    method OnTapNotify(payload: seq<byte>, now: int)
      modifies this`hitCount, this`tapTimes
      ensures var counted := screen == Live && !paused && CountsAsTap(payload);
        && hitCount == old(hitCount) + (if counted then 1 else 0)
        && tapTimes == (if counted then Trimmed(old(tapTimes) + [now], now) else old(tapTimes))
    {
      if screen != Live {
        return;
      }
      if paused {
        return;
      }
      if |payload| >= 1 {
        var one := payload[0];
        if one > 0 {
          AddTap(now);
        }
      } else {
        AddTap(now);
      }
    }

    /** One tick of the rate ticker. */
    method RateTick(now: int) returns (shown: FlameView)
      modifies this`tapTimes
      ensures screen != Live ==> tapTimes == old(tapTimes) && shown == NotLive
      ensures screen == Live ==>
        && tapTimes == Trimmed(old(tapTimes), now)
        && shown == Flame(|tapTimes|, FlameLevel(hitCount), Blazing(|tapTimes|))
    {
      if screen != Live {
        return NotLive;
      }
      var perMin := CountLastMinute(now);
      shown := Flame(perMin, FlameLevel(hitCount), Blazing(perMin));
    }

    /** `go(screenKey)`. */
    method Go(to: Screen)
      modifies this`screen
      ensures screen == to
    {
      screen := to;
    }

    /** A click on a `data-mode` button. */
    method ChooseMode(m: string)
      modifies this`mode
      ensures mode == m
    {
      mode := m;
    }

    /** The pause toggle. */
    method TogglePause()
      modifies this`paused
      ensures paused == !old(paused)
    {
      paused := !paused;
    }

    /** The mute toggle. */
    method ToggleMute()
      modifies this`muted
      ensures muted == !old(muted)
    {
      muted := !muted;
    }

    /** The start-game button: without a chosen mode nothing happens;
        otherwise the game counters, the tap window and both flags are
        reset and the live screen is shown. `lastSeq` is kept. */
    method StartGame()
      modifies this`hitCount, this`cueKey, this`cueCount, this`lastCueAt, this`tapTimes,
               this`paused, this`muted, this`screen
      ensures mode == "" ==> unchanged(this)
      ensures mode != "" ==>
        && hitCount == 0 && cueKey == "stop" && cueCount == 0 && lastCueAt == ""
        && tapTimes == [] && !paused && !muted && screen == Live
    {
      if mode == "" {
        return;
      }
      hitCount := 0;
      cueKey := "stop";
      cueCount := 0;
      lastCueAt := "";
      tapTimes := [];
      paused := false;
      muted := false;
      screen := Live;
    }

    /** The emergency-stop button: pause and mute, then write pattern 0,
        which the pause and mute flags do not gate. */
    method EmergencyStop()
      requires Valid()
      modifies this`paused, this`muted, this`patternWrites
      ensures paused && muted
      ensures patternWrites == old(patternWrites) + (if connected then [0] else [])
    {
      paused := true;
      muted := true;
      SendPattern(0);
    }

    /** The resume button: clear both flags and write the current cue's
        pattern. */
    method Resume()
      requires Valid()
      modifies this`paused, this`muted, this`patternWrites
      ensures !paused && !muted
      ensures patternWrites == old(patternWrites) + (if connected then [LowByte(PatternId(cueKey))] else [])
    {
      paused := false;
      muted := false;
      SendPattern(PatternId(cueKey));
    }

    /** `connectFlow` on how far the handshake got. An unsupported host
        only gets an alert. A failure leaves `connected` false, keeps the
        device name of a chosen device, and keeps the pattern
        characteristic if it was obtained (or held from before). */
    method ConnectFlow(h: Handshake)
      requires Valid()
      modifies this`connected, this`deviceName, this`hasPatternChar
      ensures Valid()
      ensures !bleSupported ==> unchanged(this)
      ensures bleSupported ==>
        && connected == h.Linked?
        && deviceName == (if h.NoDevice? then old(deviceName) else if h.name == "" then "BatDemo" else h.name)
        && hasPatternChar == (old(hasPatternChar) || h.TapSetupFailed? || h.Linked?)
    {
      if !bleSupported {
        return;
      }
      match h
      case NoDevice =>
        connected := false;
      case LinkFailed(name) =>
        deviceName := if name == "" then "BatDemo" else name;
        connected := false;
      case TapSetupFailed(name) =>
        deviceName := if name == "" then "BatDemo" else name;
        hasPatternChar := true;
        connected := false;
      case Linked(name) =>
        deviceName := if name == "" then "BatDemo" else name;
        hasPatternChar := true;
        connected := true;
    }

    /** `disconnectFlow`: mark the link down; the characteristic and the
        device name stay. */
    method DisconnectFlow()
      modifies this`connected
      ensures Valid()
      ensures !connected
    {
      connected := false;
    }

    /** The `gattserverdisconnected` listener. */
    method OnGattDisconnected()
      modifies this`connected
      ensures Valid()
      ensures !connected
    {
      connected := false;
    }
  }

  // ---------------------------------------------------------------------
  // Properties

  /** The flame never dims as hits accumulate. */
  lemma FlameLevelMonotone(a: int, b: int)
    requires a <= b
    ensures FlameLevel(a) <= FlameLevel(b)
  {
  }

  /** The flame reaches its top level exactly from 40 hits on, and below
      that rises by one level per ten hits. */
  lemma FlameLevelSteps(h: int)
    requires h >= 0
    ensures FlameLevel(h) == 5 <==> h >= 40
    ensures h < 40 ==> FlameLevel(h) == h / 10 + 1
  {
  }

  /** With non-decreasing times, every tap left after trimming is within
      the window. */
  lemma {:induction false} TrimmedAllRecent(taps: seq<int>, now: int)
    requires Sorted(taps)
    ensures forall i :: 0 <= i < |Trimmed(taps, now)| ==> Trimmed(taps, now)[i] >= now - TapWindowMs
  {
    var r := Trimmed(taps, now);
    var k := |taps| - |r|;
    forall i | 0 <= i < |r|
      ensures r[i] >= now - TapWindowMs
    {
      assert r[i] == taps[k + i] && r[0] == taps[k];
    }
  }

  /** The badge blazes only when at least 50 taps are in the window: with
      non-decreasing tap times, the last 50 recorded taps are all recent. */
  lemma BlazingMeansFiftyRecentTaps(taps: seq<int>, now: int)
    requires Sorted(taps)
    requires Blazing(|Trimmed(taps, now)|)
    ensures |taps| >= BlazeThreshold
    ensures forall i :: |taps| - BlazeThreshold <= i < |taps| ==> taps[i] >= now - TapWindowMs
  {
    var r := Trimmed(taps, now);
    var k := |taps| - |r|;
    TrimmedAllRecent(taps, now);
    forall i | |taps| - BlazeThreshold <= i < |taps|
      ensures taps[i] >= now - TapWindowMs
    {
      assert taps[i] == r[i - k];
    }
  }

  /** A tap recorded at `now` is counted by a count at the same `now`. */
  lemma RecordedTapCounted(taps: seq<int>, now: int)
    ensures var r := Trimmed(taps + [now], now);
      |r| >= 1 && r[|r| - 1] == now
  {
    var s := taps + [now];
    assert s[|s| - 1] == now;
  }

  /** Taps that are all within the window are all kept. */
  lemma RecentTapsKept(taps: seq<int>, now: int)
    requires forall i :: 0 <= i < |taps| ==> taps[i] >= now - TapWindowMs
    ensures Trimmed(taps, now) == taps
  {
  }

  /** Trimming at an earlier time and then at a later one is trimming at
      the later one: a count never depends on how often the window was
      trimmed before. */
  lemma {:induction false} TrimComposes(taps: seq<int>, t1: int, t2: int)
    requires t1 <= t2
    ensures Trimmed(Trimmed(taps, t1), t2) == Trimmed(taps, t2)
    decreases |taps|
  {
    if |taps| > 0 && taps[0] < t1 - TapWindowMs {
      TrimComposes(taps[1..], t1, t2);
    }
  }

  /** A trim at an earlier time before a tap is pushed changes nothing that
      a trim at a later time after the push would not also do. */
  lemma {:induction false} TrimBeforePush(taps: seq<int>, x: int, t1: int, t2: int)
    requires t1 <= t2
    ensures Trimmed(Trimmed(taps, t1) + [x], t2) == Trimmed(taps + [x], t2)
    decreases |taps|
  {
    var s := taps + [x];
    if |taps| > 0 && taps[0] < t1 - TapWindowMs {
      assert s[0] == taps[0] && s[1..] == taps[1..] + [x];
      assert Trimmed(s, t2) == Trimmed(taps[1..] + [x], t2);
      assert Trimmed(taps, t1) == Trimmed(taps[1..], t1);
      TrimBeforePush(taps[1..], x, t1, t2);
    } else {
      assert Trimmed(taps, t1) == taps;
    }
  }

  /** Recording a tap no earlier than the last one keeps the window sorted. */
  lemma AddTapKeepsSorted(taps: seq<int>, now: int)
    requires Sorted(taps)
    requires taps != [] ==> taps[|taps| - 1] <= now
    ensures Sorted(Trimmed(taps + [now], now))
  {
    SortedAppend(taps, now);
    var s := taps + [now];
    SortedSuffix(s, |s| - |Trimmed(s, now)|);
  }

  lemma SortedAppend(taps: seq<int>, now: int)
    requires Sorted(taps)
    requires taps != [] ==> taps[|taps| - 1] <= now
    ensures Sorted(taps + [now])
  {
    var s := taps + [now];
    forall i, j | 0 <= i < j < |s|
      ensures s[i] <= s[j]
    {
      if j < |taps| {
        assert s[i] == taps[i] && s[j] == taps[j];
      } else {
        assert s[i] == taps[i] <= taps[|taps| - 1];
      }
    }
  }

  lemma SortedSuffix(s: seq<int>, k: nat)
    requires Sorted(s) && k <= |s|
    ensures Sorted(s[k..])
  {
    var r := s[k..];
    forall i, j | 0 <= i < j < |r|
      ensures r[i] <= r[j]
    {
      assert r[i] == s[k + i] && r[j] == s[k + j];
    }
  }

  /** Seventy taps within the last minute: a rate of 70, blazing, and (with
      at least seventy hits in all) the top flame level. */
  lemma SeventyTapsScenario(taps: seq<int>, now: int, hits: int)
    requires |taps| == 70
    requires forall i :: 0 <= i < |taps| ==> now - TapWindowMs <= taps[i] <= now
    requires hits >= 70
    ensures |Trimmed(taps, now)| == 70
    ensures Blazing(|Trimmed(taps, now)|)
    ensures FlameLevel(hits) == 5
  {
    RecentTapsKept(taps, now);
  }

  /** A poll takes a cue exactly when its seq is new; an OK reply with a
      non-zero seq always leaves `lastSeq` equal to that seq. */
  lemma PollContract(v: CueView, o: PollOutcome)
    ensures ApplyPoll(v, o) != v ==> Advances(v.lastSeq, o)
    ensures Advances(v.lastSeq, o) ==>
      && ApplyPoll(v, o).lastSeq == o.body.cue.seqNo
      && ApplyPoll(v, o).cueCount == v.cueCount + 1
    ensures o.Reply? && o.status != 204 && 200 <= o.status < 300 && o.body.Data? && o.body.cue.seqNo != 0 ==>
      ApplyPoll(v, o).lastSeq == o.body.cue.seqNo
    ensures o.FetchFailed? || (o.Reply? && (o.status == 204 || !(200 <= o.status < 300))) ==>
      ApplyPoll(v, o) == v
  {
  }

  /** Handling the same poll outcome twice changes nothing the second time. */
  lemma PollIdempotent(v: CueView, o: PollOutcome)
    ensures ApplyPoll(ApplyPoll(v, o), o) == ApplyPoll(v, o)
  {
  }

  /** A connected viewer receives cue "chance", is emergency-stopped and
      resumed: the bat gets 1, then 0, then 1 again. */
  method StopResumeScenario() returns (writes: seq<byte>)
    ensures writes == [1, 0, 1]
  {
    var v := new Viewer(true);
    v.ConnectFlow(Linked("BatDemo"));
    v.PollCueOnce(Reply(200, Data(CueData(2, "chance", "T1"))));
    v.EmergencyStop();
    v.Resume();
    writes := v.patternWrites;
  }

  /** A paused viewer still takes a new cue but writes nothing. */
  method PausedScenario() returns (key: string, writes: seq<byte>)
    ensures key == "pinch" && writes == []
  {
    var v := new Viewer(true);
    v.ConnectFlow(Linked(""));
    v.TogglePause();
    v.PollCueOnce(Reply(200, Data(CueData(3, "pinch", "T2"))));
    key, writes := v.cueKey, v.patternWrites;
  }
}
