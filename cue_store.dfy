/** The cue endpoint (api/cue.js): a process-wide map from room id to the
    room's latest cue record, read by GET (with a "since" sequence number)
    and replaced by POST.

    JavaScript strings that the handler tests for truthiness are modelled
    as `string` with "" standing for an absent, empty or otherwise falsy
    value; the clock (`nowIso`) is the parameter `now`. */
module CueStore {

  /** One room's record `{seq, cueKey, at}`. */
  datatype Record = Record(seqNo: int, cueKey: string, at: string)

  /** The result of `parseInt(String(since || "0"), 10)`: `Absent` for
      NaN, `Parsed(n)` for a number. */
  datatype Since = Absent | Parsed(n: int)

  /** The POST body after parsing: an object with its `room` and `cueKey`
      members ("" when missing or falsy), or a raw body that JSON.parse
      rejected, which the handler replaces by `{}`. */
  datatype Body = Fields(room: string, cueKey: string) | Unparsable

  /** The parts of a request the handler looks at. */
  datatype Request = Request(httpMethod: string, room: string, since: Since, body: Body)

  /** What the handler answers: 204 with no body, 200 with a record, or
      405 with `{ok: false}`. */
  datatype Response = NoContent | Ok(record: Record) | MethodNotAllowed

  const DefaultRoom := "demo"
  const DefaultCue := "stop"

  function StatusOf(r: Response): (code: int)
    ensures code == 204 <==> r.NoContent?
    ensures code == 405 <==> r.MethodNotAllowed?
    ensures code == 200 <==> r.Ok?
  {
    match r
    case NoContent => 204
    case Ok(_) => 200
    case MethodNotAllowed => 405
  }

  /** `String(x || d)` for a string-valued x. */
  function OrDefault(s: string, d: string): string {
    if s == "" then d else s
  }

  /** `parseInt(...) || 0`: NaN and 0 both become 0. */
  function SinceValue(s: Since): int {
    match s
    case Absent => 0
    case Parsed(n) => n
  }

  /** The record a room gets when it is first touched. */
  function Fresh(now: string): Record {
    Record(1, DefaultCue, now)
  }

  /** Every stored sequence number is at least 1. */
  ghost predicate SeqsPositive(rooms: map<string, Record>) {
    forall r :: r in rooms ==> rooms[r].seqNo >= 1
  }

  /** The store after the lazy creation of `room`. */
  function Touch(rooms: map<string, Record>, room: string, now: string): (after: map<string, Record>)
    ensures after.Keys == rooms.Keys + {room}
    ensures forall r :: r in rooms ==> after[r] == rooms[r]
    ensures room !in rooms ==> after[room] == Fresh(now)
  {
    if room in rooms then rooms else rooms[room := Fresh(now)]
  }

  /** The GET branch on an already defaulted room and since. */
  function Get(rooms: map<string, Record>, room: string, since: int, now: string): (r: (map<string, Record>, Response))
    ensures room in r.0 && r.0[room].seqNo == SeqOf(rooms, room)
    ensures r.1 == NoContent <==> SeqOf(rooms, room) == since
    ensures r.1 != NoContent ==> r.1 == Ok(r.0[room])
    ensures r.0 == Touch(rooms, room, now)
  {
    var after := Touch(rooms, room, now);
    var cur := after[room];
    (after, if cur.seqNo == since then NoContent else Ok(cur))
  }

  /** `writeCue` on an already defaulted room and cueKey. */
  function Post(rooms: map<string, Record>, room: string, cueKey: string, now: string): (r: (map<string, Record>, Response))
    ensures r.0.Keys == rooms.Keys + {room}
    ensures r.0[room] == Record(SeqOf(rooms, room) + 1, cueKey, now)
    ensures r.1 == Ok(r.0[room])
    ensures forall k :: k in rooms && k != room ==> r.0[k] == rooms[k]
  {
    var prev := Touch(rooms, room, now)[room];
    var next := Record(prev.seqNo + 1, cueKey, now);
    (rooms[room := next], Ok(next))
  }

  /** The whole handler: the store afterwards and the response. */
  function Handle(rooms: map<string, Record>, req: Request, now: string): (r: (map<string, Record>, Response))
    ensures r.1 == MethodNotAllowed <==> OrDefault(req.httpMethod, "GET") != "GET" && OrDefault(req.httpMethod, "GET") != "POST"
    ensures r.1 == MethodNotAllowed ==> r.0 == rooms
    ensures r.1 == NoContent ==> OrDefault(req.httpMethod, "GET") == "GET"
    ensures rooms.Keys <= r.0.Keys
  {
    var m := OrDefault(req.httpMethod, "GET");
    if m == "GET" then
      Get(rooms, OrDefault(req.room, DefaultRoom), SinceValue(req.since), now)
    else if m == "POST" then
      var b := if req.body.Fields? then req.body else Fields("", "");
      Post(rooms, OrDefault(b.room, DefaultRoom), OrDefault(b.cueKey, DefaultCue), now)
    else
      (rooms, MethodNotAllowed)
  }

  /** The module-level `store` and the request handler over it. */
  class Server {
    var store: map<string, Record>

    ghost predicate Valid()
      reads this
    {
      SeqsPositive(store)
    }

    constructor ()
      ensures Valid() && store == map[]
    {
      store := map[];
    }

    /** `handler(req, res)`: dispatch on the method. */
    method Handler(req: Request, now: string) returns (resp: Response)
      requires Valid()
      modifies this
      ensures Valid()
      ensures (store, resp) == Handle(old(store), req, now)
    {
      var m := if req.httpMethod == "" then "GET" else req.httpMethod;
      if m == "GET" {
        var room := if req.room == "" then DefaultRoom else req.room;
        var since := if req.since.Parsed? then req.since.n else 0;
        if room !in store {
          store := store[room := Record(1, DefaultCue, now)];
        }
        var cur := store[room];
        if cur.seqNo == since {
          resp := NoContent;
          return;
        }
        resp := Ok(cur);
        return;
      }
      if m == "POST" {
        var body := if req.body.Unparsable? then Fields("", "") else req.body;
        resp := WriteCue(body, now);
        return;
      }
      resp := MethodNotAllowed;
    }

    /** `writeCue(body, res)`: replace the room's record by one whose seq
        is one more than the previous record's. */
    method WriteCue(body: Body, now: string) returns (resp: Response)
      requires Valid()
      requires body.Fields?
      modifies this
      ensures Valid()
      ensures (store, resp) == Post(old(store), OrDefault(body.room, DefaultRoom), OrDefault(body.cueKey, DefaultCue), now)
    {
      var room := if body.room == "" then DefaultRoom else body.room;
      var cueKey := if body.cueKey == "" then DefaultCue else body.cueKey;
      if room !in store {
        store := store[room := Record(1, DefaultCue, now)];
      }
      var prev := store[room];
      var nextSeq := prev.seqNo + 1;
      store := store[room := Record(nextSeq, cueKey, now)];
      assert store == old(store)[room := Record(nextSeq, cueKey, now)];
      resp := Ok(store[room]);
    }
  }

  // ---------------------------------------------------------------------
  // Properties of the handler

  /** The seq a room has, counting the lazy creation. */
  function SeqOf(rooms: map<string, Record>, room: string): int {
    if room in rooms then rooms[room].seqNo else 1
  }

  /** GET and POST both create an unseen room as `{seq: 1, cueKey: "stop"}`
      and never leave a seq below 1. */
  lemma HandleKeepsSeqsPositive(rooms: map<string, Record>, req: Request, now: string)
    requires SeqsPositive(rooms)
    ensures SeqsPositive(Handle(rooms, req, now).0)
    ensures OrDefault(req.httpMethod, "GET") == "GET" ==>
      var room := OrDefault(req.room, DefaultRoom);
      room !in rooms ==> Handle(rooms, req, now).0[room] == Fresh(now)
  {
    var after := Handle(rooms, req, now).0;
    forall r | r in after
      ensures after[r].seqNo >= 1
    {
      if r !in rooms {
        assert after[r].seqNo == 1 || after[r].seqNo == 2;
      }
    }
  }

  /** GET answers 204 exactly when `since` equals the stored seq, and
      otherwise 200 with the stored record; it changes no existing record
      and touches no other room. */
  lemma GetContract(rooms: map<string, Record>, room: string, since: int, now: string)
    ensures var (after, resp) := Get(rooms, room, since, now);
      && room in after
      && after[room].seqNo == SeqOf(rooms, room)
      && (resp == NoContent <==> SeqOf(rooms, room) == since)
      && (resp != NoContent ==> resp == Ok(after[room]))
      && (room in rooms ==> after == rooms)
      && (room !in rooms ==> after == rooms[room := Fresh(now)])
  {
  }

  /** A GET without a (numeric) `since` always gets the record. */
  lemma MissingSinceGetsRecord(rooms: map<string, Record>, room: string, now: string, body: Body)
    requires SeqsPositive(rooms)
    ensures var resp := Handle(rooms, Request("GET", room, Absent, body), now).1;
      resp.Ok? && resp.record.seqNo >= 1
  {
  }

  /** POST stores `{seq: previous seq + 1, cueKey, at: now}` for the room,
      answers with exactly that record, and leaves every other room as it was. */
  lemma PostContract(rooms: map<string, Record>, room: string, cueKey: string, now: string)
    ensures var (after, resp) := Post(rooms, room, cueKey, now);
      && after.Keys == rooms.Keys + {room}
      && after[room] == Record(SeqOf(rooms, room) + 1, cueKey, now)
      && resp == Ok(after[room])
      && (forall r :: r in rooms && r != room ==> after[r] == rooms[r])
  {
  }

  /** The first POST to an unseen room yields seq 2. */
  lemma FirstPostYieldsTwo(rooms: map<string, Record>, room: string, cueKey: string, now: string)
    requires room !in rooms
    ensures Post(rooms, room, cueKey, now).1 == Ok(Record(2, cueKey, now))
  {
  }

  /** POST defaults: a missing room is "demo", a missing cueKey is "stop",
      an unparsable body counts as `{}`; any non-empty cueKey is stored as sent. */
  lemma PostDefaults(rooms: map<string, Record>, verb: string, room: string, since: Since, body: Body, now: string)
    requires verb == "POST"
    ensures var after := Handle(rooms, Request(verb, room, since, body), now).0;
      var target := if body.Fields? && body.room != "" then body.room else DefaultRoom;
      && target in after
      && after[target].cueKey == (if body.Fields? && body.cueKey != "" then body.cueKey else DefaultCue)
      && after[target].seqNo == SeqOf(rooms, target) + 1
  {
  }

  /** A method other than GET and POST gets 405 and leaves the store alone;
      a missing method is GET. */
  lemma OtherMethods(rooms: map<string, Record>, req: Request, now: string)
    ensures req.httpMethod != "" && req.httpMethod != "GET" && req.httpMethod != "POST" ==>
      Handle(rooms, req, now) == (rooms, MethodNotAllowed)
    ensures req.httpMethod == "" ==>
      Handle(rooms, req, now) == Handle(rooms, req.(httpMethod := "GET"), now)
  {
  }

  /** The store and the seqs answered after a series of POSTs to one room. */
  function PostAll(rooms: map<string, Record>, room: string, keys: seq<string>, now: string): (map<string, Record>, seq<int>)
    decreases |keys|
  {
    if keys == [] then (rooms, [])
    else
      var (after, resp) := Post(rooms, room, keys[0], now);
      var (last, seqs) := PostAll(after, room, keys[1..], now);
      (last, [resp.record.seqNo] + seqs)
  }

  /** Successive writes to a room answer seq + 1, seq + 2, ...: strictly
      increasing by exactly one, with no gap and no repeat. */
  lemma {:induction false} PostsCountUp(rooms: map<string, Record>, room: string, keys: seq<string>, now: string)
    ensures var (last, seqs) := PostAll(rooms, room, keys, now);
      && |seqs| == |keys|
      && (forall i :: 0 <= i < |seqs| ==> seqs[i] == SeqOf(rooms, room) + i + 1)
      && SeqOf(last, room) == SeqOf(rooms, room) + |keys|
    decreases |keys|
  {
    if keys != [] {
      var (after, resp) := Post(rooms, room, keys[0], now);
      PostContract(rooms, room, keys[0], now);
      PostsCountUp(after, room, keys[1..], now);
    }
  }

  /** A poll that does not carry the seq just written receives the new
      record; one that does gets 204. */
  lemma PollAfterPost(rooms: map<string, Record>, room: string, cueKey: string, since: int, t1: string, t2: string)
    ensures var (after, resp) := Post(rooms, room, cueKey, t1);
      var (_, answer) := Get(after, room, since, t2);
      (answer == NoContent <==> since == resp.record.seqNo)
      && (answer != NoContent ==> answer == resp)
  {
  }

  /** The scenario of a fresh "demo" room: POST chance answers seq 2, a poll
      with since 1 receives it, a poll with since 2 gets 204. */
  lemma DemoScenario(t0: string, t1: string)
    ensures var (s1, r1) := Handle(map[], Request("POST", "", Absent, Fields("demo", "chance")), t0);
      && r1 == Ok(Record(2, "chance", t0))
      && Handle(s1, Request("GET", "demo", Parsed(1), Unparsable), t1) == (s1, Ok(Record(2, "chance", t0)))
      && Handle(s1, Request("GET", "demo", Parsed(2), Unparsable), t1) == (s1, NoContent)
  {
  }
}
