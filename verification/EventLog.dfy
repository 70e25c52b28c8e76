/** EventWindow (control-server.js): a pruned sliding log of events with absolute ids, and long polls on it. */
module EventLog {
  import opened Collections

  const KEEP := 60 * 1000      // prune what is older than this,
  const PRUNE_AT := 120 * 1000 // once the oldest event is older than this

  datatype Entry<T> = Entry(time: int, data: T)

  datatype Reply<T> = Reply(lastId: int, newEvents: seq<Entry<T>>)

  /** Array.prototype.slice with one argument: a negative start counts from the end. */
  function Slice<T>(s: seq<T>, start: int): seq<T> {
    if start >= |s| then []
    else if start >= 0 then s[start..]
    else if -start >= |s| then s
    else s[|s| + start..]
  }

  /** The window as a value: the events from id offset on. */
  datatype Log<T> = Log(offset: nat, window: seq<Entry<T>>) {

    function LastId(): int {
      |window| - 1 + offset
    }

    function GetEvents(lastKnownId: int): Reply<T> {
      if LastId() <= lastKnownId then Reply(LastId(), [])
      else Reply(LastId(), Slice(window, lastKnownId - offset + 1))
    }

    function Push(time: int, data: T): Log<T> {
      this.(window := window + [Entry(time, data)])
    }

    function Prune(now: int): Log<T> {
      if window == [] || now - window[0].time <= PRUNE_AT then this
      else
        var n := First(window, (e: Entry<T>) => now - e.time <= KEEP);
        Log(offset + n, window[n..])
    }

    function Add(time: int, data: T): Log<T> {
      Push(time, data).Prune(time)
    }
  }

  // ---------------------------------------------------------------- refinement of the full history

  /** The log holds the events of the history from id offset on. */
  ghost predicate Refines<T>(log: Log<T>, history: seq<Entry<T>>) {
    log.offset <= |history| && log.window == history[log.offset..]
  }

  ghost predicate Ordered<T>(s: seq<Entry<T>>) {
    forall i, j :: 0 <= i <= j < |s| ==> s[i].time <= s[j].time
  }

  /** Pruning drops only entries more than KEEP old, keeps the newest one, and what it keeps starts young enough. */
  lemma PruneRefines<T>(log: Log<T>, h: seq<Entry<T>>, time: int)
    requires Refines(log, h) && log.window != [] && h[|h| - 1].time == time
    ensures var l := log.Prune(time);
            && Refines(l, h) && log.offset <= l.offset < |h|
            && (forall k :: log.offset <= k < l.offset ==> time - h[k].time > KEEP)
            && (l.offset > log.offset <==> time - h[log.offset].time > PRUNE_AT)
            && time - h[l.offset].time <= (if l.offset > log.offset then KEEP else PRUNE_AT)
  {
    var l := log.Prune(time);
    if time - log.window[0].time > PRUNE_AT {
      var n := First(log.window, (e: Entry<T>) => time - e.time <= KEEP);
      assert log.window[|log.window| - 1] == h[|h| - 1];
      assert l.window == h[log.offset + n..];
      forall k | log.offset <= k < l.offset ensures time - h[k].time > KEEP {
        assert h[k] == log.window[k - log.offset];
      }
      assert h[l.offset] == log.window[n];
    }
  }

  /** With a monotone clock an addition appends to the history. When the oldest event is more than two minutes old,
      and only then, it drops the events more than one minute old, all of them and no others; so it never empties
      the window and keeps nothing more than two minutes old. */
  lemma AddRefines<T>(log: Log<T>, history: seq<Entry<T>>, time: int, data: T)
    requires Refines(log, history) && Ordered(history + [Entry(time, data)])
    ensures var l := log.Add(time, data);
            var h := history + [Entry(time, data)];
            && Refines(l, h)
            && l.offset + |l.window| == |history| + 1
            && log.offset <= l.offset <= |history|
            && (l.offset > log.offset <==> time - h[log.offset].time > 120 * 1000)
            && (forall k :: log.offset <= k < l.offset ==> time - h[k].time > 60 * 1000)
            && (l.offset > log.offset ==> forall e :: e in l.window ==> time - e.time <= 60 * 1000)
            && (forall e :: e in l.window ==> time - e.time <= 120 * 1000)
  {
    var h := history + [Entry(time, data)];
    var l := log.Add(time, data);
    assert log.Push(time, data).window == h[log.offset..];
    PruneRefines(log.Push(time, data), h, time);
    forall e | e in l.window ensures time - e.time <= time - h[l.offset].time {
      var k :| 0 <= k < |l.window| && l.window[k] == e;
      assert h[l.offset].time <= h[l.offset + k].time;
    }
  }

  /** The events after a given id; every event when the id is before the first. */
  function Rest<T>(history: seq<Entry<T>>, id: int): seq<Entry<T>> {
    if id + 1 <= 0 then history else if id + 1 >= |history| then [] else history[id + 1..]
  }

  /** For any id the last id is right, and the reply is the rest of the history if and only if nothing after the
      id was dropped and the id is a real one, or so far below that the slice covers a log that dropped nothing. */
  lemma GetEventsExactly<T>(log: Log<T>, history: seq<Entry<T>>, lastKnownId: int)
    requires Refines(log, history)
    ensures log.GetEvents(lastKnownId).lastId == |history| - 1
    ensures log.GetEvents(lastKnownId).newEvents == Rest(history, lastKnownId)
       <==> log.offset <= lastKnownId + 1 || (log.offset == 0 && |history| <= -(lastKnownId + 1))
  {
    var start := lastKnownId - log.offset + 1;
    if start >= 0 {
      assert start < |log.window| ==> log.window[start..] == history[lastKnownId + 1..];
    } else if log.offset > 0 {
      assert |Slice(log.window, start)| <= |log.window| < |history|;
      assert lastKnownId + 1 > 0 ==> |log.window| < |history[lastKnownId + 1..]|;
    }
  }

  /** A client that has missed k dropped events gets only the last k events of the window,
      not all that are left of it. */
  lemma StaleClient<T>(log: Log<T>, lastKnownId: int)
    requires lastKnownId + 1 < log.offset
    ensures var k := log.offset - 1 - lastKnownId;
            log.GetEvents(lastKnownId).newEvents
            == if k >= |log.window| then log.window else log.window[|log.window| - k..]
  {
  }

  // ---------------------------------------------------------------- a polling client

  /** Idle since its last reply, or waiting in a poll. */
  datatype Phase = Idle(since: int) | Waiting

  datatype Client<T> = Client(lastId: int, got: seq<Entry<T>>, phase: Phase)

  /** One event window with its full history, one client of it, and the clock.
      The client started after the first `first` events. */
  datatype World<T> = World(log: Log<T>, history: seq<Entry<T>>, clock: int, client: Client<T>, first: nat)

  datatype Step<T> = Event(time: int, data: T) | Poll(time: int) | TimeUp(time: int)

  /** The client takes a reply: it handles the new events and remembers the last id. */
  function Take<T>(c: Client<T>, r: Reply<T>, now: int): Client<T> {
    Client(r.lastId, c.got + r.newEvents, Idle(now))
  }

  /** Time does not go back, and an idle client polls at most 60 s after its last reply. */
  predicate Can<T>(w: World<T>, step: Step<T>) {
    && w.clock <= step.time
    && match step
       case Event(_, _) => true
       case Poll(t) => w.client.phase.Idle? && t <= w.client.phase.since + 60 * 1000
       case TimeUp(_) => w.client.phase.Waiting?
  }

  /** An event answers a waiting poll after the push and before the pruning; a poll with nothing new waits. */
  function Do<T>(w: World<T>, step: Step<T>): World<T> {
    match step
    case Event(t, data) =>
      World(w.log.Add(t, data), w.history + [Entry(t, data)], t,
            if w.client.phase.Waiting? then Take(w.client, w.log.Push(t, data).GetEvents(w.client.lastId), t)
            else w.client,
            w.first)
    case Poll(t) =>
      var r := w.log.GetEvents(w.client.lastId);
      w.(clock := t, client := if r.newEvents != [] then Take(w.client, r, t) else w.client.(phase := Waiting))
    case TimeUp(t) =>
      w.(clock := t, client := Take(w.client, w.log.GetEvents(w.client.lastId), t))
  }

  /** A client that has just asked for the last event id. */
  ghost predicate Starts<T>(w: World<T>) {
    && Refines(w.log, w.history) && w.log.offset <= w.first == |w.history|
    && Ordered(w.history) && (forall e :: e in w.history ==> e.time <= w.clock)
    && w.client == Client(w.log.LastId(), [], Idle(w.clock))
  }

  /** What the client got is the history from its start to its last id, and nothing it lacks has been
      pruned, unless it is idle and overdue. */
  ghost predicate FollowsClient<T>(w: World<T>) {
    var id := w.client.lastId;
    && w.first <= id + 1 <= |w.history|
    && w.client.got == w.history[w.first..id + 1]
    && match w.client.phase
       case Waiting => id + 1 == |w.history|
       case Idle(since) =>
         && since <= w.clock
         && (forall k :: id < k < |w.history| ==> since <= w.history[k].time)
         && (w.log.offset > id + 1 ==> w.clock > since + KEEP)
  }

  ghost predicate Synced<T>(w: World<T>) {
    && Refines(w.log, w.history) && Ordered(w.history) && (forall e :: e in w.history ==> e.time <= w.clock)
    && FollowsClient(w)
  }

  lemma OrderedGrows<T>(h: seq<Entry<T>>, clock: int, e: Entry<T>)
    requires Ordered(h) && (forall x :: x in h ==> x.time <= clock) && clock <= e.time
    ensures Ordered(h + [e]) && (forall x :: x in h + [e] ==> x.time <= e.time)
  {
    var g := h + [e];
    forall i, j | 0 <= i <= j < |g| ensures g[i].time <= g[j].time {
      assert i < |h| ==> h[i] in h;
    }
  }

  /** A poll from the current last id that an event answers gets exactly that event. */
  lemma AnsweredByTheEvent<T>(log: Log<T>, time: int, data: T)
    ensures log.Push(time, data).GetEvents(log.LastId()) == Reply(log.LastId() + 1, [Entry(time, data)])
  {
    assert (log.window + [Entry(time, data)])[|log.window|..] == [Entry(time, data)];
  }

  /** The event is the one answer of a waiting poll, and all it was waiting for. */
  lemma WaiterServed<T>(w: World<T>, t: int, data: T)
    requires Synced(w) && w.client.phase.Waiting?
    ensures Do(w, Event(t, data)).client
         == Client(|w.history|, w.history[w.first..] + [Entry(t, data)], Idle(t))
  {
    assert w.client.lastId == w.log.LastId();
    AnsweredByTheEvent(w.log, t, data);
  }

  /** Pruning takes an event from an idle client only when its next poll is already overdue. */
  lemma IdleSpared<T>(w: World<T>, t: int, data: T)
    requires Synced(w) && w.clock <= t && w.client.phase.Idle?
    ensures w.log.Add(t, data).offset > w.client.lastId + 1 ==> t > w.client.phase.since + KEEP
  {
    OrderedGrows(w.history, w.clock, Entry(t, data));
    AddRefines(w.log, w.history, t, data);
    var next := w.client.lastId + 1;
    if w.log.offset <= next < w.log.Add(t, data).offset {
      assert w.history[next] == (w.history + [Entry(t, data)])[next];
    }
  }

  lemma EventWhileWaiting<T>(w: World<T>, t: int, data: T)
    requires Synced(w) && w.clock <= t && w.client.phase.Waiting?
    ensures FollowsClient(Do(w, Event(t, data)))
  {
    var v := Do(w, Event(t, data));
    WaiterServed(w, t, data);
    AddRefines(w.log, w.history, t, data) by {
      OrderedGrows(w.history, w.clock, Entry(t, data));
    }
    AppendedSlice(w.history, w.first, Entry(t, data));
    assert v.log.offset <= |w.history| && v.client.lastId + 1 == |v.history|;
  }

  lemma AppendedSlice<T>(h: seq<Entry<T>>, from: nat, e: Entry<T>)
    requires from <= |h|
    ensures (h + [e])[from..|h| + 1] == h[from..] + [e]
  {
  }

  lemma EventWhileIdle<T>(w: World<T>, t: int, data: T)
    requires Synced(w) && w.clock <= t && w.client.phase.Idle?
    ensures FollowsClient(Do(w, Event(t, data)))
  {
    var id := w.client.lastId;
    IdleSpared(w, t, data);
    assert w.history[w.first..id + 1] == (w.history + [Entry(t, data)])[w.first..id + 1];
  }

  lemma EventSyncs<T>(w: World<T>, t: int, data: T)
    requires Synced(w) && w.clock <= t
    ensures Synced(Do(w, Event(t, data)))
  {
    OrderedGrows(w.history, w.clock, Entry(t, data));
    AddRefines(w.log, w.history, t, data);
    if w.client.phase.Waiting? {
      EventWhileWaiting(w, t, data);
    } else {
      EventWhileIdle(w, t, data);
    }
  }

  lemma PollSyncs<T>(w: World<T>, t: int)
    requires Synced(w) && Can(w, Poll(t))
    ensures Synced(Do(w, Poll(t)))
  {
    var id := w.client.lastId;
    if id + 1 < |w.history| {
      GetEventsExactly(w.log, w.history, id);
      assert w.history[w.first..id + 1] + w.history[id + 1..] == w.history[w.first..|w.history|];
    }
  }

  lemma TimeUpSyncs<T>(w: World<T>, t: int)
    requires Synced(w) && Can(w, TimeUp(t))
    ensures Synced(Do(w, TimeUp(t)))
  {
    assert w.client.got + [] == w.client.got;
  }

  lemma StepSyncs<T>(w: World<T>, step: Step<T>)
    requires Synced(w) && Can(w, step)
    ensures Synced(Do(w, step))
  {
    match step {
      case Event(t, data) => EventSyncs(w, t, data);
      case Poll(t) => PollSyncs(w, t);
      case TimeUp(t) => TimeUpSyncs(w, t);
    }
  }

  function DoAll<T>(w: World<T>, steps: seq<Step<T>>): World<T>
    decreases |steps|
  {
    if steps == [] then w else DoAll(Do(w, steps[0]), steps[1..])
  }

  predicate CanAll<T>(w: World<T>, steps: seq<Step<T>>)
    decreases |steps|
  {
    steps == [] || (Can(w, steps[0]) && CanAll(Do(w, steps[0]), steps[1..]))
  }

  lemma {:induction false} AllSync<T>(w: World<T>, steps: seq<Step<T>>)
    requires Synced(w) && CanAll(w, steps)
    ensures Synced(DoAll(w, steps))
    decreases |steps|
  {
    if steps == [] {
    } else {
      StepSyncs(w, steps[0]);
      AllSync(Do(w, steps[0]), steps[1..]);
    }
  }

  lemma {:induction false} FirstKept<T>(w: World<T>, steps: seq<Step<T>>)
    ensures DoAll(w, steps).first == w.first
    decreases |steps|
  {
    if steps == [] {
    } else {
      FirstKept(Do(w, steps[0]), steps[1..]);
    }
  }

  /** Exactly-once delivery: whatever the interleaving of events, polls and timeouts, what the client got is
      every event from its start to its last known id, each once and in order. */
  lemma ExactlyOnce<T>(w: World<T>, steps: seq<Step<T>>)
    requires Starts(w) && CanAll(w, steps)
    ensures var v := DoAll(w, steps);
            && w.first <= v.client.lastId + 1 <= |v.history| && v.client.got == v.history[w.first..v.client.lastId + 1]
            && (v.client.phase.Waiting? ==> v.client.lastId + 1 == |v.history|)
  {
    AllSync(w, steps);
    FirstKept(w, steps);
  }

  /** The step brings the client a reply. */
  predicate Replies<T>(w: World<T>, step: Step<T>) {
    match step
    case Event(_, _) => w.client.phase.Waiting?
    case Poll(_) => w.log.GetEvents(w.client.lastId).newEvents != []
    case TimeUp(_) => true
  }

  /** Every reply brings the client up to date: what it got is then all that happened since its start. */
  lemma RepliesCatchUp<T>(w: World<T>, steps: seq<Step<T>>, step: Step<T>)
    requires Starts(w) && CanAll(w, steps) && Can(DoAll(w, steps), step) && Replies(DoAll(w, steps), step)
    ensures var v := Do(DoAll(w, steps), step);
            && v.client.lastId + 1 == |v.history| && v.client.phase.Idle?
            && w.first <= |v.history| && v.client.got == v.history[w.first..]
  {
    AllSync(w, steps);
    FirstKept(w, steps);
    ReplyIsCurrent(DoAll(w, steps), step);
  }

  lemma ReplyIsCurrent<T>(w: World<T>, step: Step<T>)
    requires Synced(w) && Can(w, step) && Replies(w, step)
    ensures var v := Do(w, step);
            && v.client.lastId + 1 == |v.history| && v.client.phase.Idle?
            && w.first <= |v.history| && v.client.got == v.history[w.first..]
  {
    StepSyncs(w, step);
    ReplyLastId(w, step);
    var v := Do(w, step);
    assert v.history[w.first..|v.history|] == v.history[w.first..];
  }

  lemma ReplyLastId<T>(w: World<T>, step: Step<T>)
    requires Refines(w.log, w.history) && Can(w, step) && Replies(w, step)
    ensures Do(w, step).client.lastId + 1 == |Do(w, step).history| && Do(w, step).client.phase.Idle?
  {
  }

  // ---------------------------------------------------------------- the objects

  /** The reply closure of waitForEvents, with the replies its callback has been given. */
  class Waiter<T> {
    const lastKnownId: int
    var alreadyReplied: bool
    var answers: seq<Reply<T>>

    ghost predicate Valid()
      reads this
    {
      |answers| == if alreadyReplied then 1 else 0
    }

    constructor (lastKnownId: int)
      ensures this.lastKnownId == lastKnownId && !alreadyReplied && answers == [] && Valid()
    {
      this.lastKnownId := lastKnownId;
      alreadyReplied, answers := false, [];
    }

    /** Only the first answer reaches the callback. */
    method Answer(events: Reply<T>)
      requires Valid()
      modifies this
      ensures Valid() && alreadyReplied
      ensures answers == if old(alreadyReplied) then old(answers) else [events]
    {
      if alreadyReplied { return; }
      alreadyReplied := true;
      answers := answers + [events];
    }
  }

  class EventWindow<T> {
    var offset: nat
    var window: seq<Entry<T>>
    var pendingWaits: seq<Waiter<T>>

    ghost function View(): Log<T>
      reads this
    {
      Log(offset, window)
    }

    ghost predicate Valid()
      reads this, pendingWaits
    {
      forall w :: w in pendingWaits ==> w.Valid()
    }

    constructor ()
      ensures Valid() && View() == Log(0, []) && pendingWaits == []
    {
      offset, window, pendingWaits := 0, [], [];
    }

    method GetLastId() returns (id: int)
      ensures id == View().LastId()
    {
      id := |window| - 1 + offset;
    }

    method GetEvents(lastKnownId: int) returns (r: Reply<T>)
      ensures r == View().GetEvents(lastKnownId)
    {
      var lastId := GetLastId();
      if lastId <= lastKnownId {
        r := Reply(lastId, []);
      } else {
        r := Reply(lastId, Slice(window, lastKnownId - offset + 1));
      }
    }

    /** Appends the event, answers every pending wait from the window before pruning, then prunes. */
    method AddEvent(event: T, curTime: int)
      requires Valid()
      modifies this, pendingWaits
      ensures Valid() && pendingWaits == []
      ensures View() == old(View()).Add(curTime, event)
      ensures forall w :: w in old(pendingWaits) ==> w.Valid() && w.alreadyReplied
      ensures forall w :: w in old(pendingWaits) ==>
                w.answers == if old(w.alreadyReplied) then old(w.answers)
                             else [old(View()).Push(curTime, event).GetEvents(w.lastKnownId)]
    {
      window := window + [Entry(curTime, event)];
      AnswerAll();
      pendingWaits := [];
      if curTime - window[0].time > PRUNE_AT {
        var lastUnexpiredIndex := 0;
        while lastUnexpiredIndex < |window| && curTime - window[lastUnexpiredIndex].time > KEEP
          invariant lastUnexpiredIndex <= |window|
          invariant forall k :: 0 <= k < lastUnexpiredIndex ==> curTime - window[k].time > KEEP
        {
          lastUnexpiredIndex := lastUnexpiredIndex + 1;
        }
        FirstIs(window, (e: Entry<T>) => curTime - e.time <= KEEP, lastUnexpiredIndex);
        offset := offset + lastUnexpiredIndex;
        window := window[lastUnexpiredIndex..];
      }
    }

    method AnswerAll()
      requires Valid()
      modifies pendingWaits
      ensures Valid()
      ensures forall w :: w in pendingWaits ==> w.alreadyReplied
      ensures forall w :: w in pendingWaits ==>
                w.answers == if old(w.alreadyReplied) then old(w.answers) else [View().GetEvents(w.lastKnownId)]
    {
      for i := 0 to |pendingWaits|
        invariant Valid()
        invariant forall w :: w in pendingWaits[..i] ==> w.alreadyReplied
        invariant forall w :: w in pendingWaits && w.alreadyReplied ==>
                    w.answers == if old(w.alreadyReplied) then old(w.answers) else [View().GetEvents(w.lastKnownId)]
        invariant forall w :: w in pendingWaits && !w.alreadyReplied ==> !old(w.alreadyReplied)
      {
        var r := GetEvents(pendingWaits[i].lastKnownId);
        assert pendingWaits[..i + 1] == pendingWaits[..i] + [pendingWaits[i]];
        assert pendingWaits[i] in pendingWaits;
        pendingWaits[i].Answer(r);
      }
      assert pendingWaits[..|pendingWaits|] == pendingWaits;
    }

    /** Answers at once when there is something new; otherwise the waiter stays pending. */
    method WaitForEvents(lastKnownId: int) returns (w: Waiter<T>)
      requires Valid()
      modifies this
      ensures Valid() && fresh(w) && w.lastKnownId == lastKnownId && View() == old(View())
      ensures var r := View().GetEvents(lastKnownId);
              if r.newEvents != []
              then w.alreadyReplied && w.answers == [r] && pendingWaits == old(pendingWaits)
              else !w.alreadyReplied && w.answers == [] && pendingWaits == old(pendingWaits) + [w]
    {
      var events := GetEvents(lastKnownId);
      w := new Waiter(lastKnownId);
      if |events.newEvents| > 0 {
        w.Answer(events);
      } else {
        pendingWaits := pendingWaits + [w];
      }
    }

    /** setTimeout(reply, maxWait): the answer when the time is up, unless an event came first. */
    method TimeUp(w: Waiter<T>)
      requires Valid() && w.Valid()
      modifies w
      ensures Valid() && w.Valid() && w.alreadyReplied
      ensures w.answers == if old(w.alreadyReplied) then old(w.answers) else [View().GetEvents(w.lastKnownId)]
    {
      var r := GetEvents(w.lastKnownId);
      w.Answer(r);
    }
  }
}
