/** How the pieces fit together: a viewer polling the cue endpoint, and
    the two `clamp` helpers (viewer.js and App.tsx). */
module Sync {
  import CueStore
  import Viewer
  import Operator

  /** What the viewer's `fetch` sees for each handler response: 204 with no
      body; 200 with the record as JSON; 405 with `{ok: false}`, which has
      no `seq`. */
  function Transport(r: CueStore.Response): (o: Viewer.PollOutcome)
    ensures o.Reply? && o.status == CueStore.StatusOf(r)
    ensures r.Ok? ==> o.body == Viewer.Data(Viewer.CueData(r.record.seqNo, r.record.cueKey, r.record.at))
  {
    match r
    case NoContent => Viewer.Reply(204, Viewer.Null)
    case Ok(rec) => Viewer.Reply(200, Viewer.Data(Viewer.CueData(rec.seqNo, rec.cueKey, rec.at)))
    case MethodNotAllowed => Viewer.Reply(405, Viewer.Data(Viewer.CueData(0, "", "")))
  }

  /** One poll (GET with the viewer's room and `since = lastSeq`) brings
      the viewer up to date: afterwards its `lastSeq` is the room's seq,
      and its cue changed, with the cue count up by one, exactly when the
      room's seq differed from the old `lastSeq`. */
  lemma PollCatchesUp(rooms: map<string, CueStore.Record>, room: string, v: Viewer.CueView, now: string)
    requires CueStore.SeqsPositive(rooms)
    requires room != ""
    ensures var (after, resp) := CueStore.Handle(rooms, CueStore.Request("GET", room, CueStore.Parsed(v.lastSeq), CueStore.Unparsable), now);
      var v' := Viewer.ApplyPoll(v, Transport(resp));
      && room in after
      && v'.lastSeq == after[room].seqNo
      && (v' != v <==> CueStore.SeqOf(rooms, room) != v.lastSeq)
      && (v' != v ==>
            && v'.cueKey == (if after[room].cueKey == "" then "stop" else after[room].cueKey)
            && v'.lastCueAt == after[room].at
            && v'.cueCount == v.cueCount + 1)
  {
    CueStore.GetContract(rooms, room, v.lastSeq, now);
  }

  /** A viewer whose `lastSeq` already equals the room's seq gets 204 and
      keeps whatever cue it shows, even one that `startGame` reset to
      "stop" while the room's cue is another. */
  lemma EqualSeqKeepsLocalCue(rooms: map<string, CueStore.Record>, room: string, v: Viewer.CueView, now: string)
    requires room in rooms && rooms[room].seqNo == v.lastSeq
    ensures var (_, resp) := CueStore.Get(rooms, room, v.lastSeq, now);
      resp == CueStore.NoContent && Viewer.ApplyPoll(v, Transport(resp)) == v
  {
  }

  /** The handler never answers a record with seq 0, so every 200 it sends
      is one the viewer can take. */
  lemma RecordsAreTakeable(rooms: map<string, CueStore.Record>, req: CueStore.Request, now: string)
    requires CueStore.SeqsPositive(rooms)
    ensures var resp := CueStore.Handle(rooms, req, now).1;
      resp.Ok? ==> resp.record.seqNo >= 1
  {
    CueStore.HandleKeepsSeqsPositive(rooms, req, now);
  }

  /** The two clamps agree whenever the bounds are ordered, as at every
      call site (1..5 and 0..100). */
  lemma ClampsAgree(n: int, lo: int, hi: int)
    requires lo <= hi
    ensures Viewer.Clamp(n, lo, hi) == Operator.Clamp(n, lo, hi)
  {
  }

  /** With reversed bounds (min > max): for n >= min viewer.js returns max
      and App.tsx returns min; below min both return min. */
  lemma ClampsDifferOnReversedBounds(n: int, lo: int, hi: int)
    requires lo > hi
    ensures n < lo ==> Viewer.Clamp(n, lo, hi) == lo && Operator.Clamp(n, lo, hi) == lo
    ensures n >= lo ==> Viewer.Clamp(n, lo, hi) == hi && Operator.Clamp(n, lo, hi) == lo
  {
  }
}
