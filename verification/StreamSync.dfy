/** Snapshot and stream synchronisation: the reconnecting client of
    apps/vscode/src/realtime-client.ts against the server of packages/core/src/ipc-server.ts. */
module StreamSync {
  import opened Protocol

  /** A stored event: its unique id and its sequence number. The payload is opaque. */
  datatype Event = Event(id: nat, seqNo: nat)

  /** Row i has sequence number i + 1, and ids are unique. */
  ghost predicate ValidLog(log: seq<Event>) {
    && (forall i :: 0 <= i < |log| ==> log[i].seqNo == i + 1)
    && (forall i, j :: 0 <= i < j < |log| ==> log[i].id != log[j].id)
  }

  /** The result of state.get. */
  datatype Reply = Reply(snapshotSeq: nat, events: seq<Event>, reset: bool)

  /** A `state.snapshot` push is passed on to the consumer and changes nothing in the client. */
  datatype Message = Pushed(event: Event) | Answer(reply: Reply) | SnapshotPushed(seqNo: nat) | Ready(seqNo: nat)

  datatype Phase = Offline | Synchronizing | Connected

  /** What the consumer of the client has been given since the last snapshot. */
  datatype View = View(base: nat, delivered: seq<Event>)

  /** `requested` is the sequence number sent with the outstanding state.get, `reply` the
      settled response whose continuation has not run yet, `seen` the dedupe cache in order of
      use. */
  datatype Client = Client(
    phase: Phase,
    lastSeq: Option<nat>,
    buffered: seq<Event>,
    seen: seq<nat>,
    requested: Option<nat>,
    reply: Option<Reply>,
    view: Option<View>)

  // ------------------------------------------------------------------- the client

  function Drop(seen: seq<nat>, id: nat): (r: seq<nat>)
    ensures forall x :: x in r ==> x in seen && x != id
    ensures |r| <= |seen|
    ensures id !in seen ==> r == seen
  {
    if seen == [] then []
    else if seen[0] == id then Drop(seen[1..], id)
    else
      assert seen == [seen[0]] + seen[1..];
      [seen[0]] + Drop(seen[1..], id)
  }

  /** `#rememberEventId`: most recent last, oldest dropped beyond the limit. */
  function Remember(seen: seq<nat>, id: nat, limit: nat): (r: seq<nat>)
    requires limit >= 1
    ensures forall x :: x in r ==> x in seen || x == id
    ensures |r| <= limit && r != [] && r[|r| - 1] == id
  {
    var all := Drop(seen, id) + [id];
    if |all| > limit then all[|all| - limit..] else all
  }

  /** `#applyDomainEvent`. */
  function AfterEvent(c: Client, e: Event, limit: nat): Client
    requires limit >= 1
  {
    if e.id in c.seen then c
    else if c.lastSeq.Some? && e.seqNo <= c.lastSeq.value then c.(seen := Remember(c.seen, e.id, limit))
    else c.(seen := Remember(c.seen, e.id, limit),
            lastSeq := Some(e.seqNo),
            view := if c.view.Some? then Some(View(c.view.value.base, c.view.value.delivered + [e])) else None)
  }

  function ApplyEvents(c: Client, es: seq<Event>, limit: nat): Client
    requires limit >= 1
    decreases |es|
  {
    if es == [] then c else ApplyEvents(AfterEvent(c, es[0], limit), es[1..], limit)
  }

  /** The replayed events of a reply: covered ones are only remembered. */
  function AbsorbReplay(c: Client, snapshotSeq: nat, es: seq<Event>, limit: nat): Client
    requires limit >= 1
    decreases |es|
  {
    if es == [] then c
    else
      var e := es[0];
      var c' := if e.seqNo <= snapshotSeq then c.(seen := Remember(c.seen, e.id, limit)) else AfterEvent(c, e, limit);
      AbsorbReplay(c', snapshotSeq, es[1..], limit)
  }

  /** The reply is behind what the client asked for. */
  predicate MovedBehind(c: Client, reply: Reply) {
    !reply.reset && c.requested.Some? && reply.snapshotSeq < c.requested.value
  }

  /** The continuation of `#synchronize` after the response. */
  function AfterSync(c: Client, reply: Reply, limit: nat): Client
    requires limit >= 1
  {
    var c1 := c.(seen := if reply.reset then [] else c.seen,
                 view := Some(View(reply.snapshotSeq, [])),
                 lastSeq := Some(reply.snapshotSeq),
                 requested := None, reply := None);
    var c2 := AbsorbReplay(c1, reply.snapshotSeq, reply.events, limit);
    var c3 := ApplyEvents(c2, c.buffered, limit);
    c3.(buffered := [], phase := Connected)
  }

  /** `#handleMessage`. */
  function AfterMessage(c: Client, m: Message, limit: nat): Client
    requires limit >= 1
  {
    match m
    case Answer(reply) => if c.phase == Synchronizing && c.reply.None? then c.(reply := Some(reply)) else c
    case Pushed(e) =>
      if c.phase == Synchronizing then c.(buffered := c.buffered + [e])
      else if c.phase == Connected then AfterEvent(c, e, limit)
      else c
    case SnapshotPushed(_) => c
    case Ready(_) => c
  }

  function Opened(c: Client): Client {
    c.(phase := Synchronizing, buffered := [], requested := c.lastSeq, reply := None)
  }

  function Closed(c: Client): Client {
    c.(phase := Offline, buffered := [], requested := None, reply := None)
  }

  // ---------------------------------------------------------- the client as an object

  /** `MamachiBridge`: the fields its message handlers update. */
  class Bridge {
    const limit: nat
    var phase: Phase
    var lastSeq: Option<nat>
    var buffered: seq<Event>
    var seen: seq<nat>
    var requested: Option<nat>
    var reply: Option<Reply>
    var view: Option<View>

    ghost predicate Valid()
      reads this
    {
      limit >= 1
    }

    function Value(): Client
      reads this
    {
      Client(phase, lastSeq, buffered, seen, requested, reply, view)
    }

    constructor (dedupeLimit: nat)
      ensures Valid() && Value() == IDLE
    {
      limit := if dedupeLimit < 1 then 1 else dedupeLimit;
      phase, lastSeq, buffered, seen, requested, reply, view := Offline, None, [], [], None, None, None;
    }

    method RememberEventId(id: nat)
      requires Valid()
      modifies this`seen
      ensures seen == Remember(old(seen), id, limit)
    {
      seen := Drop(seen, id) + [id];
      ghost var all := seen;
      while |seen| > limit
        invariant |seen| <= |all| && seen == all[|all| - |seen|..]
        invariant |all| > limit ==> |seen| >= limit
        invariant |all| <= limit ==> seen == all
      {
        seen := seen[1..];
      }
    }

    method ApplyDomainEvent(e: Event)
      requires Valid()
      modifies this
      ensures Value() == AfterEvent(old(Value()), e, limit)
    {
      if e.id in seen {
        return;
      }
      if lastSeq.Some? && e.seqNo <= lastSeq.value {
        RememberEventId(e.id);
        return;
      }
      RememberEventId(e.id);
      lastSeq := Some(e.seqNo);
      if view.Some? {
        view := Some(View(view.value.base, view.value.delivered + [e]));
      }
    }

    /** The continuation of `#synchronize`; true means that it threw and did nothing. */
    method FinishSynchronize(result: Reply) returns (threw: bool)
      requires Valid()
      modifies this
      ensures threw == MovedBehind(old(Value()), result)
      ensures Value() == if threw then old(Value()) else AfterSync(old(Value()), result, limit)
    {
      if MovedBehind(Value(), result) {
        return true;
      }
      threw := false;
      if result.reset {
        seen := [];
      }
      view := Some(View(result.snapshotSeq, []));
      lastSeq, requested, reply := Some(result.snapshotSeq), None, None;
      ghost var start := Value();
      for i := 0 to |result.events|
        invariant AbsorbReplay(start, result.snapshotSeq, result.events, limit)
               == AbsorbReplay(Value(), result.snapshotSeq, result.events[i..], limit)
        invariant buffered == old(buffered)
      {
        var e := result.events[i];
        assert result.events[i..][0] == e && result.events[i..][1..] == result.events[i + 1..];
        if e.seqNo <= result.snapshotSeq {
          RememberEventId(e.id);
        } else {
          ApplyDomainEvent(e);
        }
      }
      ghost var absorbed := Value();
      var pending := buffered;
      for i := 0 to |pending|
        invariant ApplyEvents(absorbed, pending, limit) == ApplyEvents(Value(), pending[i..], limit)
        invariant buffered == pending
      {
        assert pending[i..][0] == pending[i] && pending[i..][1..] == pending[i + 1..];
        ApplyDomainEvent(pending[i]);
      }
      buffered, phase := [], Connected;
    }

    /** The socket's open handler; the result is the sequence number to ask for. */
    method SocketOpened() returns (afterSeq: Option<nat>)
      modifies this
      ensures Value() == Opened(old(Value())) && afterSeq == old(lastSeq)
      ensures phase == Synchronizing && buffered == [] && reply.None? && requested == afterSeq
    {
      phase, buffered, requested, reply := Synchronizing, [], lastSeq, None;
      afterSeq := lastSeq;
    }

    /** The socket's close handler: pending requests are rejected. */
    method SocketClosed()
      modifies this
      ensures Value() == Closed(old(Value()))
      ensures phase == Offline && buffered == [] && reply.None? && requested.None?
    {
      phase, buffered, requested, reply := Offline, [], None, None;
    }

    method HandleMessage(m: Message)
      requires Valid()
      modifies this
      ensures Value() == AfterMessage(old(Value()), m, limit)
    {
      match m
      case Answer(r) =>
        if phase == Synchronizing && reply.None? {
          reply := Some(r);
        }
      case Pushed(e) =>
        if phase == Synchronizing {
          buffered := buffered + [e];
        } else if phase == Connected {
          ApplyDomainEvent(e);
        }
      case SnapshotPushed(_) =>
      case Ready(_) =>
    }
  }

  const IDLE := Client(Offline, None, [], [], None, None, None)

  // -------------------------------------------------------------- server and channel

  datatype Request = Unsent | Sent(afterSeq: Option<nat>) | Computed(reply: Reply) | Served

  /** The current socket: how far its state.get has got, and the messages on their way to the
      client in order. */
  datatype Link = Link(request: Request, channel: seq<Message>)

  datatype World = World(log: seq<Event>, link: Option<Link>, client: Client)

  /** A command is handled and its events are pushed without anything running in between. The
      server registers a socket (Accept) before the client sees it open (Open). It computes the reply
      to a state.get (Compute) and sends it later (Send), after whatever is pushed meanwhile. A
      connection can be lost at any moment, with whatever was under way on it. */
  datatype Step = Command(ids: seq<nat>) | Accept | Open | Compute | Send | Receive | Resume | Lose

  /** The stored rows of a batch of new events. */
  function Rows(first: nat, ids: seq<nat>): (r: seq<Event>)
    ensures |r| == |ids| && forall i :: 0 <= i < |r| ==> r[i] == Event(ids[i], first + i)
  {
    seq(|ids|, i requires 0 <= i < |ids| => Event(ids[i], first + i))
  }

  /** `state.get` in `#dispatch`. */
  function StateGet(log: seq<Event>, afterSeq: Option<nat>): Reply {
    var reset := afterSeq.Some? && afterSeq.value > |log|;
    Reply(|log|, if afterSeq.Some? && !reset then log[afterSeq.value..] else [], reset)
  }

  /** The event messages `#publishControllerEvents` sends to a client. */
  function Pushes(es: seq<Event>): (r: seq<Message>)
    ensures |r| == |es| && forall i :: 0 <= i < |r| ==> r[i] == Pushed(es[i])
  {
    seq(|es|, i requires 0 <= i < |es| => Pushed(es[i]))
  }

  /** Everything `#publishControllerEvents` sends to a client: the rows after a number and then, if
      there are any, the snapshot. */
  function Broadcast(log: seq<Event>, beforeSeq: nat): seq<Message>
    requires beforeSeq <= |log|
  {
    Pushes(log[beforeSeq..]) + if beforeSeq == |log| then [] else [SnapshotPushed(|log|)]
  }

  /** The server of packages/core/src/ipc-server.ts: its store's log and, for every connected client,
      what has been sent to it so far. */
  class Server {
    var log: seq<Event>
    var clients: map<Id, seq<Message>>

    constructor ()
      ensures log == [] && clients == map[]
    {
      log, clients := [], map[];
    }

    /** The socket's open handler: one more receiver, greeted with the snapshot. */
    method Connect(client: Id)
      requires client !in clients
      modifies this`clients
      ensures clients == old(clients)[client := [Ready(|log|)]]
    {
      clients := clients[client := []];
      clients := clients[client := clients[client] + [Ready(|log|)]];
      assert clients[client] == [Ready(|log|)];
    }

    method Disconnect(client: Id)
      modifies this`clients
      ensures clients == old(clients) - {client}
    {
      clients := clients - {client};
    }

    /** `emit`: one message to every client. */
    method Emit(m: Message)
      modifies this`clients
      ensures clients.Keys == old(clients).Keys
      ensures forall c :: c in clients ==> clients[c] == old(clients)[c] + [m]
    {
      var todo := clients.Keys;
      while todo != {}
        invariant todo <= clients.Keys == old(clients).Keys
        invariant forall c :: c in clients ==> clients[c] == old(clients)[c] + if c in todo then [] else [m]
      {
        var c :| c in todo;
        todo := todo - {c};
        clients := clients[c := clients[c] + [m]];
      }
    }

    /** `#publishControllerEvents`. */
    method Publish(beforeSeq: nat)
      requires beforeSeq <= |log|
      modifies this`clients
      ensures clients.Keys == old(clients).Keys
      ensures forall c :: c in clients ==> clients[c] == old(clients)[c] + Broadcast(log, beforeSeq)
    {
      var events := log[beforeSeq..];
      for i := 0 to |events|
        invariant clients.Keys == old(clients).Keys
        invariant forall c :: c in clients ==> clients[c] == old(clients)[c] + Pushes(events[..i])
      {
        assert Pushes(events[..i + 1]) == Pushes(events[..i]) + [Pushed(events[i])];
        Emit(Pushed(events[i]));
      }
      assert events[..|events|] == events;
      if |events| == 0 {
        return;
      }
      Emit(SnapshotPushed(|log|));
    }

    /** Handle, then publish: every client gets exactly the new rows in order, and the snapshot. */
    method Execute(ids: seq<nat>)
      modifies this
      ensures log == old(log) + Rows(|old(log)| + 1, ids)
      ensures clients.Keys == old(clients).Keys
      ensures forall c :: c in clients ==> clients[c] == old(clients)[c] + Broadcast(log, |old(log)|)
    {
      var beforeSeq := |log|;
      log := log + Rows(beforeSeq + 1, ids);
      Publish(beforeSeq);
    }

    /** The `state.get` case of `#dispatch`, which only reads. */
    method Dispatch(afterSeq: Option<nat>) returns (reply: Reply)
      ensures reply == StateGet(log, afterSeq)
      ensures reply.snapshotSeq == |log| && (reply.reset <==> afterSeq.Some? && afterSeq.value > |log|)
      ensures afterSeq.Some? && afterSeq.value <= |log| ==> log[..afterSeq.value] + reply.events == log
      ensures afterSeq.None? || afterSeq.value > |log| ==> reply.events == []
    {
      var snapshotSeq := |log|;
      var reset := afterSeq.Some? && afterSeq.value > snapshotSeq;
      var events := [];
      if afterSeq.Some? && !reset {
        for i := afterSeq.value to |log|
          invariant events == log[afterSeq.value..i]
        {
          events := events + [log[i]];
        }
        assert events == log[afterSeq.value..];
      }
      reply := Reply(snapshotSeq, events, reset);
    }

    /** `#send` of a finished request, to its own client only. */
    method Respond(client: Id, reply: Reply)
      requires client in clients
      modifies this`clients
      ensures clients == old(clients)[client := old(clients)[client] + [Answer(reply)]]
    {
      clients := clients[client := clients[client] + [Answer(reply)]];
    }
  }

  function Lost(w: World): World {
    w.(link := None, client := Closed(w.client))
  }

  /** None when the step cannot happen in `w`. */
  ghost function Perform(w: World, step: Step, limit: nat): Option<World>
    requires limit >= 1
  {
    match step
    case Command(ids) =>
      var rows := Rows(|w.log| + 1, ids);
      if !ValidLog(w.log + rows) then None
      else Some(w.(log := w.log + rows,
                   link := if w.link.None? then None
                           else
                             var sent := Broadcast(w.log + rows, |w.log|);
                             Some(w.link.value.(channel := w.link.value.channel + sent))))
    case Accept =>
      if w.link.Some? then None else Some(w.(link := Some(Link(Unsent, [Ready(|w.log|)]))))
    case Open =>
      if w.link.None? || !w.link.value.request.Unsent? then None
      else Some(w.(link := Some(w.link.value.(request := Sent(w.client.lastSeq))), client := Opened(w.client)))
    case Compute =>
      if w.link.None? || !w.link.value.request.Sent? then None
      else Some(w.(link := Some(w.link.value.(request := Computed(StateGet(w.log, w.link.value.request.afterSeq))))))
    case Send =>
      if w.link.None? || !w.link.value.request.Computed? then None
      else Some(w.(link := Some(Link(Served, w.link.value.channel + [Answer(w.link.value.request.reply)]))))
    case Receive =>
      if w.link.None? || w.link.value.request.Unsent? || w.link.value.channel == [] then None
      else Some(w.(link := Some(w.link.value.(channel := w.link.value.channel[1..])),
                   client := AfterMessage(w.client, w.link.value.channel[0], limit)))
    case Resume =>
      if w.client.reply.None? then None
      else if MovedBehind(w.client, w.client.reply.value) then Some(Lost(w))
      else Some(w.(client := AfterSync(w.client, w.client.reply.value, limit)))
    case Lose =>
      if w.link.None? then None else Some(Lost(w))
  }

  const INITIAL := World([], None, IDLE)

  /** The world after a run, None when one of its steps cannot happen. */
  ghost function Run(steps: seq<Step>, limit: nat): Option<World>
    requires limit >= 1
  {
    if steps == [] then Some(INITIAL)
    else
      var before := Run(steps[..|steps| - 1], limit);
      if before.None? then None else Perform(before.value, steps[|steps| - 1], limit)
  }

  // ------------------------------------------------------------------ the invariant

  function EventsOf(channel: seq<Message>): seq<Event> {
    if channel == [] then []
    else (if channel[0].Pushed? then [channel[0].event] else []) + EventsOf(channel[1..])
  }

  function AnswersOf(channel: seq<Message>): seq<Reply> {
    if channel == [] then []
    else (if channel[0].Answer? then [channel[0].reply] else []) + AnswersOf(channel[1..])
  }

  lemma {:induction false} EventsConcat(a: seq<Message>, b: seq<Message>)
    ensures EventsOf(a + b) == EventsOf(a) + EventsOf(b)
  {
    if a == [] {
      assert a + b == b;
    } else {
      var both := a + b;
      assert both[0] == a[0] && both[1..] == a[1..] + b;
      EventsConcat(a[1..], b);
    }
  }

  lemma {:induction false} AnswersConcat(a: seq<Message>, b: seq<Message>)
    ensures AnswersOf(a + b) == AnswersOf(a) + AnswersOf(b)
  {
    if a == [] {
      assert a + b == b;
    } else {
      var both := a + b;
      assert both[0] == a[0] && both[1..] == a[1..] + b;
      AnswersConcat(a[1..], b);
    }
  }

  lemma {:induction false} PushesCarryEvents(es: seq<Event>)
    ensures EventsOf(Pushes(es)) == es && AnswersOf(Pushes(es)) == []
  {
    if es != [] {
      PushesCarryEvents(es[1..]);
      assert Pushes(es)[1..] == Pushes(es[1..]);
      assert es == [es[0]] + es[1..];
    }
  }

  /** What the consumer has is exactly the log up to the last sequence number. */
  ghost predicate ViewOk(log: seq<Event>, c: Client) {
    && (c.lastSeq.Some? <==> c.view.Some?)
    && (c.view.Some? ==>
          && c.view.value.base <= c.lastSeq.value <= |log|
          && c.view.value.delivered == log[c.view.value.base..c.lastSeq.value])
  }

  /** The cache only holds ids of events already covered. */
  ghost predicate SeenOk(log: seq<Event>, c: Client) {
    forall id :: id in c.seen ==>
      c.lastSeq.Some? && exists k :: 0 <= k < c.lastSeq.value && k < |log| && log[k].id == id
  }

  /** A reply made since the socket was registered, to a request for everything after `lastSeq`. */
  ghost predicate ReplyOk(log: seq<Event>, lastSeq: Option<nat>, start: nat, reply: Reply) {
    && start <= reply.snapshotSeq <= |log|
    && !reply.reset
    && (lastSeq.Some? ==> lastSeq.value <= reply.snapshotSeq)
    && reply.events == (if lastSeq.Some? then log[lastSeq.value..reply.snapshotSeq] else [])
  }

  /** The buffered and travelling events are the log from `start` on, and nothing between the
      last sequence number, or the snapshot to come, and `start` is missing. */
  ghost predicate LinkOk(w: World, link: Link, start: nat) {
    var c := w.client;
    var answers := AnswersOf(link.channel);
    && start <= |w.log|
    && c.buffered + EventsOf(link.channel) == w.log[start..]
    && match link.request
       case Unsent => c.phase == Offline && c.buffered == [] && c.reply.None? && answers == []
       case Sent(after) =>
         c.phase == Synchronizing && c.requested == c.lastSeq == after && c.reply.None? && answers == []
       case Computed(reply) =>
         && c.phase == Synchronizing && c.requested == c.lastSeq && c.reply.None? && answers == []
         && ReplyOk(w.log, c.lastSeq, start, reply)
       case Served =>
         if c.phase == Connected then
           c.buffered == [] && c.lastSeq.Some? && start <= c.lastSeq.value && c.reply.None? && answers == []
         else
           && c.phase == Synchronizing && c.requested == c.lastSeq
           && (if c.reply.Some? then answers == [] && ReplyOk(w.log, c.lastSeq, start, c.reply.value)
               else |answers| == 1 && ReplyOk(w.log, c.lastSeq, start, answers[0]))
  }

  ghost predicate WorldOk(w: World) {
    && ValidLog(w.log)
    && ViewOk(w.log, w.client)
    && SeenOk(w.log, w.client)
    && (w.link.None? ==> w.client.phase == Offline && w.client.reply.None? && w.client.buffered == [])
    && (w.link.Some? ==> exists start: nat :: LinkOk(w, w.link.value, start))
  }

  // ----------------------------------------------------------- what applying events does

  /** The client advanced to `to`, cache aside. */
  function AdvancedTo(c: Client, log: seq<Event>, end: nat): Client
    requires c.view.Some? && c.view.value.base <= end <= |log|
  {
    c.(seen := [], lastSeq := Some(end), view := Some(View(c.view.value.base, log[c.view.value.base..end])))
  }

  function Max(a: nat, b: nat): nat { if a < b then b else a }

  /** A covered event changes nothing but the cache, the next one advances the client by one. */
  lemma EventStep(log: seq<Event>, c: Client, k: nat, limit: nat)
    requires ValidLog(log) && ViewOk(log, c) && SeenOk(log, c) && limit >= 1
    requires c.lastSeq.Some? && k <= c.lastSeq.value && k < |log|
    ensures var r := AfterEvent(c, log[k], limit);
      && ViewOk(log, r) && SeenOk(log, r)
      && r.(seen := []) == AdvancedTo(c, log, Max(c.lastSeq.value, k + 1))
  {
    var r := AfterEvent(c, log[k], limit);
    var base := c.view.value.base;
    if k == c.lastSeq.value {
      assert log[base..k + 1] == log[base..k] + [log[k]];
      assert log[k].id !in c.seen;
    }
    forall id | id in r.seen
      ensures exists j :: 0 <= j < r.lastSeq.value && j < |log| && log[j].id == id
    {
      if id == log[k].id { assert 0 <= k < r.lastSeq.value; }
    }
  }

  /** Applying a stretch of the log that leaves no gap advances the client to its end. */
  lemma {:induction false} StretchStep(log: seq<Event>, c: Client, from: nat, end: nat, limit: nat)
    requires ValidLog(log) && ViewOk(log, c) && SeenOk(log, c) && limit >= 1
    requires c.lastSeq.Some? && from <= c.lastSeq.value && from <= end <= |log|
    ensures var r := ApplyEvents(c, log[from..end], limit);
      && ViewOk(log, r) && SeenOk(log, r)
      && r.(seen := []) == AdvancedTo(c, log, Max(c.lastSeq.value, end))
    decreases end - from
  {
    hide ValidLog, SeenOk, AfterEvent;
    if from < end {
      EventStep(log, c, from, limit);
      assert log[from..end][1..] == log[from + 1..end];
      assert log[from..end][0] == log[from];
      var next := AfterEvent(c, log[from], limit);
      assert next.view.value.base == c.view.value.base;
      StretchStep(log, next, from + 1, end, limit);
    } else {
      assert log[from..end] == [];
    }
  }

  /** A replay covered by the snapshot only fills the cache. */
  lemma {:induction false} ReplayStep(log: seq<Event>, c: Client, snapshotSeq: nat, es: seq<Event>, limit: nat)
    requires SeenOk(log, c) && limit >= 1 && c.lastSeq == Some(snapshotSeq) && snapshotSeq <= |log|
    requires forall i :: 0 <= i < |es| ==> 1 <= es[i].seqNo <= snapshotSeq && log[es[i].seqNo - 1] == es[i]
    ensures var r := AbsorbReplay(c, snapshotSeq, es, limit);
      SeenOk(log, r) && r.(seen := []) == c.(seen := [])
    decreases |es|
  {
    if es != [] {
      var c' := c.(seen := Remember(c.seen, es[0].id, limit));
      forall id | id in c'.seen
        ensures exists j :: 0 <= j < snapshotSeq && j < |log| && log[j].id == id
      {
        if id == es[0].id { assert log[es[0].seqNo - 1].id == id; }
      }
      ReplayStep(log, c', snapshotSeq, es[1..], limit);
    }
  }

  /** Finishing the synchronisation takes the snapshot and delivers exactly the buffered events
      beyond it. */
  lemma SyncStep(log: seq<Event>, c: Client, reply: Reply, start: nat, end: nat, limit: nat)
    requires ValidLog(log) && ViewOk(log, c) && SeenOk(log, c) && limit >= 1
    requires ReplyOk(log, c.lastSeq, start, reply) && start <= end <= |log| && c.buffered == log[start..end]
    ensures var r := AfterSync(c, reply, limit);
      && ViewOk(log, r) && SeenOk(log, r)
      && r.(seen := []) == Client(Connected, Some(Max(reply.snapshotSeq, end)), [], [], None, None,
                                  Some(View(reply.snapshotSeq, log[reply.snapshotSeq..Max(reply.snapshotSeq, end)])))
  {
    var at := reply.snapshotSeq;
    var c1 := c.(view := Some(View(at, [])), lastSeq := Some(at), requested := None, reply := None);
    assert log[at..at] == [];
    ReplayStep(log, c1, at, reply.events, limit);
    var c2 := AbsorbReplay(c1, at, reply.events, limit);
    StretchStep(log, c2, start, end, limit);
  }

  // ------------------------------------------------------------------ the step lemmas

  lemma SameFootprint(log: seq<Event>, c: Client, c': Client)
    requires ViewOk(log, c) && SeenOk(log, c)
    requires c'.lastSeq == c.lastSeq && c'.view == c.view && c'.seen == c.seen
    ensures ViewOk(log, c') && SeenOk(log, c')
  {
  }

  /** A longer log keeps what was known of a client. */
  lemma LogGrows(log: seq<Event>, more: seq<Event>, c: Client)
    requires ViewOk(log, c) && SeenOk(log, c)
    ensures ViewOk(log + more, c) && SeenOk(log + more, c)
  {
    if c.view.Some? {
      var base, last := c.view.value.base, c.lastSeq.value;
      assert (log + more)[base..last] == log[base..last];
    }
    forall id | id in c.seen
      ensures c.lastSeq.Some? && exists k :: 0 <= k < c.lastSeq.value && k < |log + more| && (log + more)[k].id == id
    {
      var k :| 0 <= k < c.lastSeq.value && k < |log| && log[k].id == id;
      assert (log + more)[k].id == id;
    }
  }

  lemma BroadcastCarries(log: seq<Event>, beforeSeq: nat)
    requires beforeSeq <= |log|
    ensures EventsOf(Broadcast(log, beforeSeq)) == log[beforeSeq..] && AnswersOf(Broadcast(log, beforeSeq)) == []
  {
    hide Pushes;
    var rows := Pushes(log[beforeSeq..]);
    var last := if beforeSeq == |log| then [] else [SnapshotPushed(|log|)];
    PushesCarryEvents(log[beforeSeq..]);
    assert last != [] ==> last[1..] == [];
    assert EventsOf(last) == [] && AnswersOf(last) == [];
    EventsConcat(rows, last);
    AnswersConcat(rows, last);
  }

  /** A reply stays good while the log grows. */
  lemma ReplyStaysOk(log: seq<Event>, more: seq<Event>, c: Client, start: nat, reply: Reply)
    requires ReplyOk(log, c.lastSeq, start, reply)
    ensures ReplyOk(log + more, c.lastSeq, start, reply)
  {
  }

  lemma CommandKeeps(w: World, ids: seq<nat>, limit: nat)
    requires WorldOk(w) && limit >= 1 && Perform(w, Command(ids), limit).Some?
    ensures WorldOk(Perform(w, Command(ids), limit).value)
  {
    hide ValidLog, ViewOk, SeenOk, EventsOf, AnswersOf, Rows, Broadcast, ReplyOk;
    var rows := Rows(|w.log| + 1, ids);
    var after := Perform(w, Command(ids), limit).value;
    LogGrows(w.log, rows, w.client);
    if w.link.Some? {
      var link := w.link.value;
      var start: nat :| LinkOk(w, link, start);
      var messages := Broadcast(w.log + rows, |w.log|);
      EventsConcat(link.channel, messages);
      AnswersConcat(link.channel, messages);
      BroadcastCarries(w.log + rows, |w.log|);
      assert (w.log + rows)[|w.log|..] == rows;
      assert (w.log + rows)[start..] == w.log[start..] + rows;
      forall reply | ReplyOk(w.log, w.client.lastSeq, start, reply)
        ensures ReplyOk(w.log + rows, w.client.lastSeq, start, reply)
      {
        ReplyStaysOk(w.log, rows, w.client, start, reply);
      }
      assert LinkOk(after, after.link.value, start);
    }
  }

  lemma SingleAnswer(reply: Reply)
    ensures EventsOf([Answer(reply)]) == [] && AnswersOf([Answer(reply)]) == [reply]
  {
    assert [Answer(reply)][1..] == [];
  }

  lemma GreetingIsSilent(seqNo: nat)
    ensures EventsOf([Ready(seqNo)]) == [] && AnswersOf([Ready(seqNo)]) == []
  {
    assert [Ready(seqNo)][1..] == [];
  }

  /** The server's reply to a request for everything after the last sequence number. */
  lemma GoodReply(log: seq<Event>, c: Client, start: nat)
    requires ValidLog(log) && ViewOk(log, c) && start <= |log|
    ensures ReplyOk(log, c.lastSeq, start, StateGet(log, c.lastSeq))
  {
  }

  lemma ComputeKeeps(w: World, limit: nat)
    requires WorldOk(w) && limit >= 1 && Perform(w, Compute, limit).Some?
    ensures WorldOk(Perform(w, Compute, limit).value)
  {
    hide ValidLog, ViewOk, SeenOk, ReplyOk, EventsOf, AnswersOf;
    var after := Perform(w, Compute, limit).value;
    var start: nat :| LinkOk(w, w.link.value, start);
    GoodReply(w.log, w.client, start);
    assert LinkOk(after, after.link.value, start);
  }

  lemma SendKeeps(w: World, limit: nat)
    requires WorldOk(w) && limit >= 1 && Perform(w, Send, limit).Some?
    ensures WorldOk(Perform(w, Send, limit).value)
  {
    hide ValidLog, ViewOk, SeenOk, ReplyOk, EventsOf, AnswersOf;
    var after := Perform(w, Send, limit).value;
    var link := w.link.value;
    var start: nat :| LinkOk(w, link, start);
    var reply := link.request.reply;
    EventsConcat(link.channel, [Answer(reply)]);
    AnswersConcat(link.channel, [Answer(reply)]);
    SingleAnswer(reply);
    assert LinkOk(after, after.link.value, start);
  }

  /** The travelling event at the head of the channel is the next one after the buffer. */
  lemma HeadOfChannel(w: World, link: Link, start: nat)
    requires LinkOk(w, link, start) && link.channel != [] && link.channel[0].Pushed?
    ensures var k := start + |w.client.buffered|;
      && k < |w.log| && link.channel[0].event == w.log[k]
      && w.client.buffered == w.log[start..k]
      && EventsOf(link.channel[1..]) == w.log[k + 1..]
  {
    var buffered, es := w.client.buffered, EventsOf(link.channel);
    var k := start + |buffered|;
    assert es == [link.channel[0].event] + EventsOf(link.channel[1..]);
    assert w.log[start..] == buffered + es;
    assert |buffered| < |w.log[start..]|;
    assert w.log[start..][|buffered|] == es[0];
    assert w.log[start..][..|buffered|] == buffered;
    assert w.log[start..][|buffered| + 1..] == es[1..];
    assert w.log[start..][|buffered| + 1..] == w.log[k + 1..];
    assert w.log[start..][..|buffered|] == w.log[start..k];
  }

  /** The number of stored events no longer on their way to the client. */
  function Arrived(w: World): int {
    |w.log| - if w.link.Some? then |EventsOf(w.link.value.channel)| else 0
  }

  lemma DeliverKeeps(w: World, limit: nat)
    requires WorldOk(w) && limit >= 1 && Perform(w, Receive, limit).Some? && w.link.value.channel[0].Pushed?
    requires w.client.phase == Connected
    ensures WorldOk(Perform(w, Receive, limit).value)
    ensures 0 <= Arrived(w) < |w.log| && w.client.view.Some?
    ensures w.client.view.value.base <= w.client.lastSeq.value <= |w.log|
    ensures Perform(w, Receive, limit).value.client.(seen := [])
         == AdvancedTo(w.client, w.log, Max(w.client.lastSeq.value, Arrived(w) + 1))
  {
    hide ValidLog, AfterEvent, SeenOk, EventsOf;
    var after := Perform(w, Receive, limit).value;
    var link := w.link.value;
    var start: nat :| LinkOk(w, link, start);
    HeadOfChannel(w, link, start);
    assert Arrived(w) == start;
    assert AnswersOf(link.channel) == AnswersOf(link.channel[1..]);
    EventStep(w.log, w.client, start, limit);
    assert LinkOk(after, after.link.value, start + 1);
  }

  lemma BufferKeeps(w: World, limit: nat)
    requires WorldOk(w) && limit >= 1 && Perform(w, Receive, limit).Some? && w.link.value.channel[0].Pushed?
    requires w.client.phase != Connected
    ensures WorldOk(Perform(w, Receive, limit).value)
  {
    hide ValidLog, AfterEvent, SeenOk, ViewOk, EventsOf, ReplyOk;
    var after := Perform(w, Receive, limit).value;
    var link := w.link.value;
    var start: nat :| LinkOk(w, link, start);
    HeadOfChannel(w, link, start);
    var k := start + |w.client.buffered|;
    assert AnswersOf(link.channel) == AnswersOf(link.channel[1..]);
    assert w.log[start..k] + [w.log[k]] + w.log[k + 1..] == w.log[start..];
    SameFootprint(w.log, w.client, after.client);
    assert LinkOk(after, after.link.value, start);
  }

  lemma ReceiveAnswerKeeps(w: World, limit: nat)
    requires WorldOk(w) && limit >= 1 && Perform(w, Receive, limit).Some? && w.link.value.channel[0].Answer?
    ensures WorldOk(Perform(w, Receive, limit).value)
  {
    hide ValidLog, SeenOk, ViewOk;
    var after := Perform(w, Receive, limit).value;
    var link := w.link.value;
    var start: nat :| LinkOk(w, link, start);
    assert AnswersOf(link.channel) == [link.channel[0].reply] + AnswersOf(link.channel[1..]);
    assert EventsOf(link.channel) == EventsOf(link.channel[1..]);
    SameFootprint(w.log, w.client, after.client);
    assert LinkOk(after, after.link.value, start);
  }

  lemma PassOnKeeps(w: World, limit: nat)
    requires WorldOk(w) && limit >= 1 && Perform(w, Receive, limit).Some?
    requires w.link.value.channel[0].SnapshotPushed? || w.link.value.channel[0].Ready?
    ensures WorldOk(Perform(w, Receive, limit).value)
  {
    hide ValidLog, SeenOk, ViewOk, ReplyOk;
    var after := Perform(w, Receive, limit).value;
    var link := w.link.value;
    var start: nat :| LinkOk(w, link, start);
    assert AnswersOf(link.channel) == AnswersOf(link.channel[1..]);
    assert EventsOf(link.channel) == EventsOf(link.channel[1..]);
    assert LinkOk(after, after.link.value, start);
  }

  /** The client that takes its reply now, cache aside: the snapshot, then everything that has
      arrived beyond it. */
  function Synchronized(w: World): Client
    requires w.client.reply.Some?
  {
    var base := w.client.reply.value.snapshotSeq;
    var end := if Arrived(w) < base then base else Arrived(w);
    Client(Connected, Some(end), [], [], None, None,
           Some(View(base, if end <= |w.log| then w.log[base..end] else [])))
  }

  /** Where a client about to take its reply stands. */
  lemma ReadyToResume(w: World) returns (start: nat)
    requires WorldOk(w) && w.client.reply.Some?
    ensures w.link.Some? && w.link.value.request.Served? && AnswersOf(w.link.value.channel) == []
    ensures ReplyOk(w.log, w.client.lastSeq, start, w.client.reply.value) && w.client.requested == w.client.lastSeq
    ensures start <= Arrived(w) <= |w.log| && w.client.buffered == w.log[start..Arrived(w)]
    ensures EventsOf(w.link.value.channel) == w.log[Arrived(w)..]
  {
    hide ValidLog, SeenOk, ViewOk, ReplyOk, EventsOf, AnswersOf;
    var link := w.link.value;
    start :| LinkOk(w, link, start);
    var rest, n := w.log[start..], |w.client.buffered|;
    assert |rest| == n + |EventsOf(link.channel)|;
    assert rest[..n] == w.client.buffered && rest[n..] == EventsOf(link.channel);
    assert rest[..n] == w.log[start..start + n] && rest[n..] == w.log[start + n..];
  }

  /** Taking the reply never finds it behind the request. */
  lemma ResumeKeeps(w: World, limit: nat)
    requires WorldOk(w) && limit >= 1 && w.client.reply.Some?
    ensures !MovedBehind(w.client, w.client.reply.value)
    ensures w.client.lastSeq.Some? ==> w.client.lastSeq.value <= w.client.reply.value.snapshotSeq
    ensures w.client.reply.value.snapshotSeq <= |w.log| && Arrived(w) <= |w.log|
    ensures Perform(w, Step.Resume, limit).Some? && WorldOk(Perform(w, Step.Resume, limit).value)
    ensures Perform(w, Step.Resume, limit).value.client.(seen := []) == Synchronized(w)
  {
    hide ValidLog, SeenOk, ViewOk, AfterSync, EventsOf, AnswersOf;
    var start := ReadyToResume(w);
    SyncStep(w.log, w.client, w.client.reply.value, start, Arrived(w), limit);
    var after := Perform(w, Step.Resume, limit).value;
    assert LinkOk(after, after.link.value, Arrived(w));
  }

  lemma StepKeeps(w: World, step: Step, limit: nat)
    requires WorldOk(w) && limit >= 1 && Perform(w, step, limit).Some?
    ensures WorldOk(Perform(w, step, limit).value)
  {
    match step
    case Command(ids) => CommandKeeps(w, ids, limit);
    case Compute => ComputeKeeps(w, limit);
    case Send => SendKeeps(w, limit);
    case Receive =>
      if w.link.value.channel[0].SnapshotPushed? || w.link.value.channel[0].Ready? {
        PassOnKeeps(w, limit);
      } else if w.link.value.channel[0].Answer? {
        ReceiveAnswerKeeps(w, limit);
      } else if w.client.phase == Connected {
        DeliverKeeps(w, limit);
      } else {
        BufferKeeps(w, limit);
      }
    case Resume => ResumeKeeps(w, limit);
    case Lose =>
    case Accept =>
      var after := Perform(w, step, limit).value;
      GreetingIsSilent(|w.log|);
      assert w.log[|w.log|..] == [];
      assert LinkOk(after, after.link.value, |w.log|);
    case Open =>
      var after := Perform(w, step, limit).value;
      var start: nat :| LinkOk(w, w.link.value, start);
      assert LinkOk(after, after.link.value, start);
  }

  // -------------------------------------------------------------------- the theorems

  /** Every run keeps the invariant. */
  lemma {:induction false} RunIsOk(steps: seq<Step>, limit: nat)
    requires limit >= 1 && Run(steps, limit).Some?
    ensures WorldOk(Run(steps, limit).value)
  {
    if steps != [] {
      var n := |steps| - 1;
      RunIsOk(steps[..n], limit);
      StepKeeps(Run(steps[..n], limit).value, steps[n], limit);
    }
  }

  /** The last snapshot and what was delivered since are exactly the log up to the last sequence
      number. */
  ghost predicate HoldsTheLog(w: World) {
    w.client.view.Some? ==>
      && w.client.lastSeq.Some? && w.client.view.value.base <= w.client.lastSeq.value <= |w.log|
      && w.log[..w.client.lastSeq.value] == w.log[..w.client.view.value.base] + w.client.view.value.delivered
  }

  lemma NothingUnderWay(w: World)
    requires WorldOk(w) && w.client.phase == Connected
    ensures w.link.Some? && w.client.lastSeq.Some?
    ensures EventsOf(w.link.value.channel) == [] ==> w.client.lastSeq.value == |w.log|
  {
    hide ValidLog, SeenOk;
    var start: nat :| LinkOk(w, w.link.value, start);
    if EventsOf(w.link.value.channel) == [] {
      assert |w.log[start..]| == 0;
    }
  }

  /** After any run the client holds the log, it holds something exactly when it has a sequence
      number, its reply is never behind the request, and a connected client with no event on
      its way has the whole log. */
  lemma ClientHasExactlyTheLog(steps: seq<Step>, limit: nat)
    requires limit >= 1 && Run(steps, limit).Some?
    ensures var w := Run(steps, limit).value;
      && HoldsTheLog(w)
      && (w.client.view.Some? <==> w.client.lastSeq.Some?)
      && (w.client.reply.Some? ==> !MovedBehind(w.client, w.client.reply.value))
      && (w.client.phase == Connected ==>
            w.link.Some? && (EventsOf(w.link.value.channel) == [] ==> w.client.lastSeq == Some(|w.log|)))
  {
    hide Perform, ValidLog, SeenOk, Run, LinkOk;
    RunIsOk(steps, limit);
    var w := Run(steps, limit).value;
    if w.client.view.Some? {
      var base, last := w.client.view.value.base, w.client.lastSeq.value;
      assert w.log[..last] == w.log[..base] + w.log[base..last];
    }
    if w.client.reply.Some? {
      ResumeKeeps(w, limit);
    }
    if w.client.phase == Connected {
      NothingUnderWay(w);
    }
  }

  /** Over every run: a reply that the client holds, or that is on its way, names a snapshot that is not behind
      the client and carries exactly the rows between the two; without anything before, none. */
  lemma RepliesAreExact(steps: seq<Step>, limit: nat)
    requires limit >= 1 && Run(steps, limit).Some?
    ensures var w := Run(steps, limit).value;
      && (w.client.reply.Some? ==> FillsTheGap(w, w.client.reply.value))
      && (w.link.Some? && w.client.phase == Synchronizing ==>
            && (w.link.value.request.Computed? ==> FillsTheGap(w, w.link.value.request.reply))
            && forall reply :: reply in AnswersOf(w.link.value.channel) ==> FillsTheGap(w, reply))
  {
    hide WorldOk, Run, AnswersOf, FillsTheGap;
    RunIsOk(steps, limit);
    LinkFills(Run(steps, limit).value);
  }

  lemma LinkFills(w: World)
    requires WorldOk(w)
    ensures w.client.reply.Some? ==> FillsTheGap(w, w.client.reply.value)
    ensures w.link.Some? && w.client.phase == Synchronizing ==>
      && (w.link.value.request.Computed? ==> FillsTheGap(w, w.link.value.request.reply))
      && forall reply :: reply in AnswersOf(w.link.value.channel) ==> FillsTheGap(w, reply)
  {
    hide ValidLog, SeenOk, ViewOk, EventsOf, AnswersOf, ReplyOk, FillsTheGap, LinkOk;
    if w.link.Some? {
      var start: nat :| LinkOk(w, w.link.value, start);
      LinkRepliesOk(w, w.link.value, start);
      forall reply | ReplyOk(w.log, w.client.lastSeq, start, reply)
        ensures FillsTheGap(w, reply)
      {
        ReplyFills(w, start, reply);
      }
    }
  }

  lemma LinkRepliesOk(w: World, link: Link, start: nat)
    requires LinkOk(w, link, start)
    ensures w.client.reply.Some? ==> ReplyOk(w.log, w.client.lastSeq, start, w.client.reply.value)
    ensures w.client.phase == Synchronizing ==>
      && (link.request.Computed? ==> ReplyOk(w.log, w.client.lastSeq, start, link.request.reply))
      && forall reply :: reply in AnswersOf(link.channel) ==> ReplyOk(w.log, w.client.lastSeq, start, reply)
  {
    hide EventsOf, AnswersOf, ReplyOk;
  }

  lemma ReplyFills(w: World, start: nat, reply: Reply)
    requires ReplyOk(w.log, w.client.lastSeq, start, reply)
    ensures FillsTheGap(w, reply)
  {
  }

  ghost predicate FillsTheGap(w: World, reply: Reply) {
    && reply.snapshotSeq <= |w.log| && !reply.reset
    && (w.client.lastSeq.Some? ==>
          && w.client.lastSeq.value <= reply.snapshotSeq
          && reply.events == w.log[w.client.lastSeq.value..reply.snapshotSeq])
    && (w.client.lastSeq.None? ==> reply.events == [])
  }

  /** No step takes anything back: the delivered events only grow, until a snapshot replaces them
      that covers all of them. */
  lemma DeliveriesOnlyGrow(w: World, step: Step, limit: nat)
    requires WorldOk(w) && limit >= 1 && Perform(w, step, limit).Some? && w.client.view.Some?
    ensures var c, c' := w.client, Perform(w, step, limit).value.client;
      && c'.view.Some? && c'.lastSeq.Some? && c.lastSeq.value <= c'.lastSeq.value
      && (if step.Resume? then c.lastSeq.value <= c'.view.value.base
          else c'.view.value.base == c.view.value.base && c.view.value.delivered <= c'.view.value.delivered)
  {
    hide ValidLog, SeenOk, LinkOk, AfterSync, AfterEvent, EventsOf, AnswersOf, Broadcast, StateGet;
    if step.Resume? {
      ResumeKeeps(w, limit);
    } else if step.Receive? && w.link.value.channel[0].Pushed? && w.client.phase == Connected {
      PushOnlyAdds(w, limit);
    }
  }

  lemma PushOnlyAdds(w: World, limit: nat)
    requires WorldOk(w) && limit >= 1 && Perform(w, Receive, limit).Some? && w.client.view.Some?
    requires w.link.value.channel[0].Pushed? && w.client.phase == Connected
    ensures var c, c' := w.client, Perform(w, Receive, limit).value.client;
      && c'.view.Some? && c'.lastSeq.Some? && c.lastSeq.value <= c'.lastSeq.value
      && c'.view.value.base == c.view.value.base && c.view.value.delivered <= c'.view.value.delivered
  {
    hide ValidLog, SeenOk, LinkOk, Perform, EventsOf, AnswersOf;
    DeliverKeeps(w, limit);
    var base, last := w.client.view.value.base, w.client.lastSeq.value;
    var last' := Max(last, Arrived(w) + 1);
    assert w.log[base..last'] == w.log[base..last] + w.log[last..last'];
  }

  /** The world without the dedupe cache. */
  function Uncached(w: World): World {
    w.(client := w.client.(seen := []))
  }

  lemma StepsAgree(w: World, w': World, step: Step, limit: nat, limit': nat)
    requires WorldOk(w) && WorldOk(w') && limit >= 1 && limit' >= 1 && Uncached(w) == Uncached(w')
    ensures var r, r' := Perform(w, step, limit), Perform(w', step, limit');
      r.Some? == r'.Some? && (r.Some? ==> Uncached(r.value) == Uncached(r'.value))
  {
    hide WorldOk, LinkOk, ViewOk, SeenOk, AfterSync, AfterEvent, EventsOf;
    if step.Resume? && w.client.reply.Some? {
      ResumeKeeps(w, limit);
      ResumeKeeps(w', limit');
    } else if step.Receive? && Perform(w, step, limit).Some? && w.link.value.channel[0].Pushed? {
      if w.client.phase == Connected {
        DeliverKeeps(w, limit);
        DeliverKeeps(w', limit');
      }
    }
  }

  /** Two clients with different dedupe limits go through the same run with the same deliveries,
      sequence numbers and phases: the cache only ever drops events that are covered anyway. */
  lemma {:induction false} LimitDoesNotMatter(steps: seq<Step>, limit: nat, limit': nat)
    requires limit >= 1 && limit' >= 1
    ensures Run(steps, limit).Some? == Run(steps, limit').Some?
    ensures Run(steps, limit).Some? ==> Uncached(Run(steps, limit).value) == Uncached(Run(steps, limit').value)
  {
    if steps != [] {
      var n := |steps| - 1;
      LimitDoesNotMatter(steps[..n], limit, limit');
      if Run(steps[..n], limit).Some? {
        RunIsOk(steps[..n], limit);
        RunIsOk(steps[..n], limit');
        StepsAgree(Run(steps[..n], limit).value, Run(steps[..n], limit').value, steps[n], limit, limit');
      }
    }
  }

  // ---------------------------------------------------------------------------- the cache

  ghost predicate CacheOk(c: Client, limit: nat) {
    |c.seen| <= limit && NoDuplicates(c.seen)
  }

  lemma RememberKeeps(seen: seq<nat>, id: nat, limit: nat)
    requires limit >= 1 && NoDuplicates(seen)
    ensures NoDuplicates(Remember(seen, id, limit))
  {
    DropKeeps(seen, id);
  }

  lemma {:induction false} DropKeeps(seen: seq<nat>, id: nat)
    requires NoDuplicates(seen)
    ensures NoDuplicates(Drop(seen, id))
  {
    if seen != [] {
      DropKeeps(seen[1..], id);
      var rest := Drop(seen[1..], id);
      forall i | 0 <= i < |rest|
        ensures rest[i] != seen[0]
      {
        assert rest[i] in seen[1..];
        var k :| 0 <= k < |seen[1..]| && seen[1..][k] == rest[i];
        assert seen[1 + k] == rest[i];
      }
    }
  }

  /** An event not seen before is remembered last, at the cost of the oldest one when the cache is full. */
  lemma EventIsRemembered(c: Client, e: Event, limit: nat)
    requires limit >= 1 && CacheOk(c, limit)
    ensures AfterEvent(c, e, limit).seen
            == if e.id in c.seen then c.seen
               else (if |c.seen| < limit then c.seen else c.seen[1..]) + [e.id]
    ensures CacheOk(AfterEvent(c, e, limit), limit)
  {
    RememberKeeps(c.seen, e.id, limit);
  }

  lemma {:induction false} EventsKeepCache(c: Client, es: seq<Event>, limit: nat)
    requires limit >= 1 && CacheOk(c, limit)
    ensures CacheOk(ApplyEvents(c, es, limit), limit)
    ensures forall x :: x in ApplyEvents(c, es, limit).seen ==> x in c.seen || exists e :: e in es && e.id == x
    decreases |es|
  {
    if es != [] {
      EventIsRemembered(c, es[0], limit);
      EventsKeepCache(AfterEvent(c, es[0], limit), es[1..], limit);
    }
  }

  lemma {:induction false} ReplayKeepsCache(c: Client, snapshotSeq: nat, es: seq<Event>, limit: nat)
    requires limit >= 1 && CacheOk(c, limit)
    ensures var after := AbsorbReplay(c, snapshotSeq, es, limit);
      && CacheOk(after, limit) && after.buffered == c.buffered
      && forall x :: x in after.seen ==> x in c.seen || exists e :: e in es && e.id == x
    decreases |es|
  {
    if es != [] {
      var e := es[0];
      RememberKeeps(c.seen, e.id, limit);
      EventIsRemembered(c, e, limit);
      ReplayKeepsCache(if e.seqNo <= snapshotSeq then c.(seen := Remember(c.seen, e.id, limit))
                       else AfterEvent(c, e, limit), snapshotSeq, es[1..], limit);
    }
  }

  /** A resynchronisation with nothing to catch up on keeps the cache, unless it starts afresh; after one
      that does, the cache holds nothing but what has just been caught up on. */
  lemma SyncKeepsCache(c: Client, reply: Reply, limit: nat)
    requires limit >= 1 && CacheOk(c, limit)
    ensures CacheOk(AfterSync(c, reply, limit), limit)
    ensures reply.events + c.buffered == [] ==> AfterSync(c, reply, limit).seen == if reply.reset then [] else c.seen
    ensures reply.reset ==> forall x :: x in AfterSync(c, reply, limit).seen ==>
              exists e :: e in reply.events + c.buffered && e.id == x
  {
    var c1 := c.(seen := if reply.reset then [] else c.seen,
                 view := Some(View(reply.snapshotSeq, [])), lastSeq := Some(reply.snapshotSeq),
                 requested := None, reply := None);
    ReplayKeepsCache(c1, reply.snapshotSeq, reply.events, limit);
    EventsKeepCache(AbsorbReplay(c1, reply.snapshotSeq, reply.events, limit), c.buffered, limit);
  }

  /** Over every run the cache is bounded and holds no event twice. */
  lemma {:induction false} CacheStaysBounded(steps: seq<Step>, limit: nat)
    requires limit >= 1 && Run(steps, limit).Some?
    ensures CacheOk(Run(steps, limit).value.client, limit)
  {
    if steps != [] {
      var n := |steps| - 1;
      CacheStaysBounded(steps[..n], limit);
      StepKeepsCache(Run(steps[..n], limit).value, steps[n], limit);
    }
  }

  lemma StepKeepsCache(w: World, step: Step, limit: nat)
    requires limit >= 1 && CacheOk(w.client, limit) && Perform(w, step, limit).Some?
    ensures CacheOk(Perform(w, step, limit).value.client, limit)
  {
    hide AfterEvent, AfterSync, CacheOk, StateGet, Broadcast, ValidLog;
    match step
    case Receive =>
      var m := w.link.value.channel[0];
      if m.Pushed? { EventIsRemembered(w.client, m.event, limit); }
      PartsOfCache(w.client, AfterMessage(w.client, m, limit), limit);
    case Resume =>
      SyncKeepsCache(w.client, w.client.reply.value, limit);
      PartsOfCache(w.client, Closed(w.client), limit);
    case _ => PartsOfCache(w.client, Perform(w, step, limit).value.client, limit);
  }

  lemma PartsOfCache(c: Client, c': Client, limit: nat)
    requires CacheOk(c, limit)
    ensures c'.seen == c.seen ==> CacheOk(c', limit)
  {
  }
}
