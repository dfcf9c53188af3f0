/** The event stream of a task, the generator that serves it, and replay from the last id a client received. */
module EventReplay {
  import opened Wrappers

  /** A Redis stream id, `<milliseconds>-<sequence>`. */
  datatype EventId = EventId(ms: nat, n: nat)

  datatype Event = Event(id: EventId, eventType: string, payload: string)

  predicate Less(a: EventId, b: EventId) {
    a.ms < b.ms || (a.ms == b.ms && a.n < b.n)
  }

  /** The order of ids is total, and time comes first. */
  lemma LessIsOrder(a: EventId, b: EventId, c: EventId)
    ensures a == b || Less(a, b) || Less(b, a)
    ensures !(Less(a, b) && (a == b || Less(b, a))) && (Less(a, b) && Less(b, c) ==> Less(a, c))
    ensures a.ms < b.ms ==> Less(a, b)
    ensures a.ms == b.ms && a.n < b.n ==> Less(a, b)
  {
  }

  /** XADD gives every entry an id above all earlier ones. */
  ghost predicate Ordered(stream: seq<Event>) {
    forall i, j | 0 <= i < j < |stream| :: Less(stream[i].id, stream[j].id)
  }

  /** XRANGE with an exclusive lower bound: every entry whose id is above `id`. */
  function Above(stream: seq<Event>, id: EventId): seq<Event> {
    if stream == [] then []
    else (if Less(id, stream[0].id) then [stream[0]] else []) + Above(stream[1..], id)
  }

  const BATCH := 100

  /** XREAD COUNT 100. */
  function ReadBatch(stream: seq<Event>, id: EventId): seq<Event> {
    var above := Above(stream, id);
    if |above| <= BATCH then above else above[..BATCH]
  }

  /** Where an `iter_events` generator stands: the last id it yielded, the rest of the batch in its hands,
    * and whether it has done its opening XRANGE. */
  datatype Cursor = Cursor(currentId: EventId, batch: seq<Event>, started: bool)

  /** What a resumed generator goes on to yield: its batch, or the opening XRANGE, or an XREAD. `atRange` and
    * `atRead` are the stream when those answer. */
  function Hand(c: Cursor, atRange: seq<Event>, atRead: seq<Event>): seq<Event> {
    var first := if c.batch == [] && !c.started then Above(atRange, c.currentId) else c.batch;
    if first == [] then ReadBatch(atRead, c.currentId) else first
  }

  /** One resumption of the generator, up to its next yield. */
  function Resume(c: Cursor, atRange: seq<Event>, atRead: seq<Event>): (Cursor, Option<Event>) {
    var batch := Hand(c, atRange, atRead);
    if batch == [] then (Cursor(c.currentId, [], true), None)
    else (Cursor(batch[0].id, batch[1..], true), Some(batch[0]))
  }

  class EventIterator {
    var currentId: EventId
    var batch: seq<Event>
    var started: bool

    ghost function State(): Cursor
      reads this
    {
      Cursor(currentId, batch, started)
    }

    constructor (afterId: EventId)
      ensures State() == Cursor(afterId, [], false)
    {
      currentId, batch, started := afterId, [], false;
    }

    method Next(atRange: seq<Event>, atRead: seq<Event>) returns (event: Option<Event>)
      modifies this
      ensures (State(), event) == Resume(old(State()), atRange, atRead)
    {
      if !started {
        started := true;
        if batch == [] {
          batch := Above(atRange, currentId);
        }
      }
      if batch == [] {
        batch := ReadBatch(atRead, currentId);
        if batch == [] {
          return None;
        }
      }
      event := Some(batch[0]);
      currentId, batch := batch[0].id, batch[1..];
    }
  }

  // ----- A client that reads, loses its connection and comes back -----

  /** `wire` holds what the server yielded and the client has not received. */
  datatype Replay = Replay(stream: seq<Event>, received: seq<Event>, server: Option<Cursor>, wire: seq<Event>)

  datatype Step =
    | Append(event: Event)
    | Connect
    | Yield(atRange: seq<Event>, atRead: seq<Event>)
    | Receive
    | Disconnect

  /** The id a client sends as Last-Event-ID. */
  function LastId(start: EventId, received: seq<Event>): EventId {
    if |received| == 0 then start else received[|received| - 1].id
  }

  /** A read sees some prefix of the stream: what had been appended when it answered. */
  ghost predicate Can(w: Replay, s: Step) {
    match s
    case Append(e) => forall x | x in w.stream :: Less(x.id, e.id)
    case Connect => w.server.None?
    case Yield(atRange, atRead) => w.server.Some? && atRange <= w.stream && atRead <= w.stream
    case Receive => w.wire != []
    case Disconnect => true
  }

  function Do(start: EventId, w: Replay, s: Step): Replay {
    match s
    case Append(e) => w.(stream := w.stream + [e])
    case Connect => w.(server := Some(Cursor(LastId(start, w.received), [], false)), wire := [])
    case Yield(atRange, atRead) =>
      if w.server.None? then w
      else
        var (c, e) := Resume(w.server.value, atRange, atRead);
        w.(server := Some(c), wire := w.wire + (if e.Some? then [e.value] else []))
    case Receive => if w.wire == [] then w else w.(received := w.received + [w.wire[0]], wire := w.wire[1..])
    case Disconnect => w.(server := None, wire := [])
  }

  /** What a client that started at `start` is owed. */
  function Owed(start: EventId, w: Replay): seq<Event> { Above(w.stream, start) }

  ghost predicate Inv(start: EventId, w: Replay) {
    && Ordered(w.stream)
    && (w.server.None? ==> w.wire == [])
    && match w.server
       case None => w.received <= Owed(start, w)
       case Some(c) =>
         && w.received + w.wire + c.batch <= Owed(start, w)
         && c.currentId == LastId(start, w.received + w.wire)
  }

  lemma {:induction false} AboveAppend(a: seq<Event>, b: seq<Event>, id: EventId)
    ensures Above(a + b, id) == Above(a, id) + Above(b, id)
  {
    if a == [] {
      assert a + b == b;
    } else {
      assert (a + b)[1..] == a[1..] + b;
      AboveAppend(a[1..], b, id);
    }
  }

  lemma AbovePrefix(a: seq<Event>, stream: seq<Event>, id: EventId)
    requires a <= stream
    ensures Above(a, id) <= Above(stream, id)
  {
  }

  lemma {:induction false} AboveAll(stream: seq<Event>, id: EventId)
    requires forall x | x in stream :: Less(id, x.id)
    ensures Above(stream, id) == stream
  {
    if stream != [] {
      AboveAll(stream[1..], id);
    }
  }

  lemma {:induction false} AboveNone(stream: seq<Event>, id: EventId)
    requires forall x | x in stream :: !Less(id, x.id)
    ensures Above(stream, id) == []
  {
    if stream != [] {
      AboveNone(stream[1..], id);
    }
  }

  /** In an ordered stream the entries above an id are a tail of it. */
  lemma {:induction false} AboveIsTail(stream: seq<Event>, id: EventId) returns (k: nat)
    requires Ordered(stream)
    ensures k <= |stream| && Above(stream, id) == stream[k..]
  {
    if stream == [] {
      k := 0;
    } else if Less(id, stream[0].id) {
      AboveAll(stream, id);
      k := 0;
    } else {
      k := AboveIsTail(stream[1..], id);
      assert stream[1..][k..] == stream[k + 1..];
      k := k + 1;
    }
  }

  lemma AboveEntry(stream: seq<Event>, m: nat)
    requires Ordered(stream) && 0 < m <= |stream|
    ensures Above(stream, stream[m - 1].id) == stream[m..]
  {
    var id := stream[m - 1].id;
    assert stream == stream[..m] + stream[m..];
    AboveNone(stream[..m], id);
    AboveAll(stream[m..], id);
    AboveAppend(stream[..m], stream[m..], id);
  }

  /** Going on after the last of the first owed entries gives the rest of what is owed. */
  lemma Continue(stream: seq<Event>, start: EventId, seen: seq<Event>)
    requires Ordered(stream) && seen <= Above(stream, start)
    ensures Above(stream, LastId(start, seen)) == Above(stream, start)[|seen|..]
  {
    var k := AboveIsTail(stream, start);
    var n := |seen|;
    if n > 0 {
      assert seen[n - 1] == stream[k..][n - 1] == stream[k + n - 1];
      AboveEntry(stream, k + n);
      assert stream[k..][n..] == stream[k + n..];
    }
  }

  lemma HandIsNext(stream: seq<Event>, c: Cursor, s: Step)
    requires s.Yield? && s.atRange <= stream && s.atRead <= stream
    requires c.batch <= Above(stream, c.currentId)
    ensures Hand(c, s.atRange, s.atRead) <= Above(stream, c.currentId)
  {
    AbovePrefix(s.atRange, stream, c.currentId);
    AbovePrefix(s.atRead, stream, c.currentId);
  }

  lemma RestOfOwed(owed: seq<Event>, seen: seq<Event>, batch: seq<Event>)
    requires seen + batch <= owed
    ensures seen <= owed && batch <= owed[|seen|..]
  {
    assert batch == (seen + batch)[|seen|..];
    assert owed[|seen|..] == batch + owed[|seen + batch|..];
  }

  lemma OneMore(owed: seq<Event>, seen: seq<Event>, batch: seq<Event>)
    requires seen <= owed && batch <= owed[|seen|..] && batch != []
    ensures seen + [batch[0]] + batch[1..] <= owed
  {
    assert owed == seen + owed[|seen|..];
    assert seen + [batch[0]] + batch[1..] == seen + batch;
  }

  /** Whatever a resumption yields comes next in the stream. */
  lemma YieldsNext(stream: seq<Event>, start: EventId, seen: seq<Event>, c: Cursor, s: Step)
    requires Ordered(stream) && s.Yield? && s.atRange <= stream && s.atRead <= stream
    requires seen + c.batch <= Above(stream, start) && c.currentId == LastId(start, seen)
    ensures var (c', e) := Resume(c, s.atRange, s.atRead);
      match e
      case None => c'.batch == [] && c'.currentId == c.currentId
      case Some(x) => seen + [x] + c'.batch <= Above(stream, start) && c'.currentId == x.id
  {
    var owed := Above(stream, start);
    RestOfOwed(owed, seen, c.batch);
    Continue(stream, start, seen);
    HandIsNext(stream, c, s);
    if Hand(c, s.atRange, s.atRead) != [] {
      OneMore(owed, seen, Hand(c, s.atRange, s.atRead));
    }
  }

  lemma YieldInv(start: EventId, w: Replay, s: Step)
    requires Inv(start, w) && Can(w, s) && s.Yield?
    ensures Inv(start, Do(start, w, s))
  {
    var seen := w.received + w.wire;
    YieldsNext(w.stream, start, seen, w.server.value, s);
    var (c, e) := Resume(w.server.value, s.atRange, s.atRead);
    if e.Some? {
      assert w.received + (w.wire + [e.value]) == seen + [e.value];
    } else {
      assert w.received + (w.wire + []) == seen;
      assert seen <= seen + w.server.value.batch;
    }
  }

  lemma StepInv(start: EventId, w: Replay, s: Step)
    requires Inv(start, w) && Can(w, s)
    ensures Inv(start, Do(start, w, s))
  {
    match s
    case Append(e) =>
      AboveAppend(w.stream, [e], start);
    case Connect =>
      assert w.received + [] + [] == w.received;
    case Yield(_, _) =>
      YieldInv(start, w, s);
    case Receive =>
      assert w.received + w.wire == w.received + [w.wire[0]] + w.wire[1..];
    case Disconnect =>
      if w.server.Some? {
        assert w.received <= w.received + w.wire + w.server.value.batch;
      }
  }

  ghost predicate Run(start: EventId, ws: seq<Replay>, steps: seq<Step>) {
    && |ws| == |steps| + 1
    && Ordered(ws[0].stream) && ws[0].received == ws[0].wire == [] && ws[0].server.None?
    && forall i | 0 <= i < |steps| :: Can(ws[i], steps[i]) && ws[i + 1] == Do(start, ws[i], steps[i])
  }

  lemma {:induction false} RunInv(start: EventId, ws: seq<Replay>, steps: seq<Step>, i: nat)
    requires Run(start, ws, steps) && i < |ws|
    ensures Inv(start, ws[i])
  {
    if i > 0 {
      RunInv(start, ws, steps, i - 1);
      StepInv(start, ws[i - 1], steps[i - 1]);
    }
  }

  /** Across any chain of reconnects, what the client has received is exactly the stream after its starting
    * id, up to where it has come: no gap, no duplicate, no change of order. And once a read of the whole
    * stream has answered nothing while nothing is on the wire, the client has received all of it. */
  lemma ReplayIsExact(start: EventId, ws: seq<Replay>, steps: seq<Step>, i: nat)
    requires Run(start, ws, steps) && i < |ws|
    ensures ws[i].received <= Above(ws[i].stream, start)
    ensures i < |steps| && steps[i].Yield? && steps[i].atRead == ws[i].stream && ws[i].wire == []
            && Resume(ws[i].server.value, steps[i].atRange, steps[i].atRead).1 == None
            ==> ws[i].received == Above(ws[i].stream, start)
  {
    RunInv(start, ws, steps, i);
    var w, owed := ws[i], Owed(start, ws[i]);
    if w.server.Some? {
      assert w.received <= w.received + w.wire + w.server.value.batch;
      assert w.received + w.wire <= w.received + w.wire + w.server.value.batch;
      Continue(w.stream, start, w.received + w.wire);
    }
  }
}
