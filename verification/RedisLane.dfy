/** One Redis Streams lane and its consumers: conservation of entries and bounded hand-outs.

    The server is modelled by the contract of each command that the queue sends it. A consumer
    sends them one at a time, so between any two of them the others may claim, acknowledge or
    dead-letter the same entries. How long an entry has been idle is not modelled: a claim may
    take any pending entries. */
module RedisLane {
  import opened Basics
  import opened Content

  // ---------------------------------------------------------------- envelopes

  /** The fields of a stream entry, as bytes; whoever adds entries may write anything. */
  type Fields = map<string, Bytes>

  datatype Envelope = Envelope(attempt: string)

  predicate Clean(value: Bytes) {
    value.Utf8? && value.text != "" && '\0' !in value.text
  }

  /** A delivery is valid when every field is clean text, and the version, the route and the
      attempt id are as `publish` writes them. */
  function Parse(fields: Fields, route: string): Option<Envelope> {
    if exists name <- fields :: !Clean(fields[name]) || !Clean(Utf8(name)) then None
    else if "envelope_version" !in fields || fields["envelope_version"] != Utf8("1") then None
    else if "route" !in fields || fields["route"] != Utf8(route) then None
    else if "attempt_id" !in fields || Blank(fields["attempt_id"].text) then None
    else Some(Envelope(fields["attempt_id"].text))
  }

  function EnvelopeOf(route: string, attempt: string): Fields {
    map["envelope_version" := Utf8("1"), "route" := Utf8(route), "attempt_id" := Utf8(attempt)]
  }

  /** What `publish` puts on a lane is delivered from that lane, and dead-lettered from any other. */
  lemma PublishedIsDelivered(route: string, other: string, attempt: string)
    requires Clean(Utf8(route)) && Clean(Utf8(attempt)) && !Blank(attempt)
    ensures Parse(EnvelopeOf(route, attempt), route) == Some(Envelope(attempt))
    ensures other != route ==> Parse(EnvelopeOf(route, attempt), other) == None
  {
    var fields := EnvelopeOf(route, attempt);
    assert fields.Keys == {"envelope_version", "route", "attempt_id"};
    FieldNamesDiffer();
  }

  /** Not empty, and nothing in it that could end it early. */
  predicate Writable(s: string) {
    s != "" && '\0' !in s
  }

  /** An entry is a delivery of this attempt exactly when it holds what `publish` would have written for it
      on this lane, and whatever else it holds is writable text too. */
  lemma DeliveryIff(fields: Fields, route: string, attempt: string)
    ensures Parse(fields, route) == Some(Envelope(attempt)) <==>
      && (forall name <- EnvelopeOf(route, attempt) ::
            name in fields && fields[name] == EnvelopeOf(route, attempt)[name])
      && (forall name <- fields :: Writable(name) && fields[name].Utf8? && Writable(fields[name].text))
      && exists c <- attempt :: !IsSpace(c)
  {
    FieldNamesDiffer();
    assert EnvelopeOf(route, attempt).Keys == {"envelope_version", "route", "attempt_id"};
    assert Blank(attempt) <==> !exists c <- attempt :: !IsSpace(c);
    hide Blank, IsSpace;
    assert (exists name <- fields :: !Clean(fields[name]) || !Clean(Utf8(name))) <==>
           !(forall name <- fields :: Writable(name) && fields[name].Utf8? && Writable(fields[name].text));
  }

  lemma FieldNamesDiffer()
    ensures "route" != "envelope_version" && "route" != "attempt_id" && "attempt_id" != "envelope_version"
    ensures Clean(Utf8("envelope_version")) && Clean(Utf8("route")) && Clean(Utf8("attempt_id")) && Clean(Utf8("1"))
  {
    assert "route"[0] == 'r' && "envelope_version"[0] == 'e' && "attempt_id"[0] == 'a';
  }

  // ---------------------------------------------------------------- the server

  datatype Reason = VisibilityTimeoutExceeded | InvalidEnvelope

  datatype DeadLetter = DeadLetter(entry: Id, attempt: string, count: nat, reason: Reason)

  /** One stream with its consumer group and its dead-letter stream; `pending` counts deliveries. */
  datatype Lane = Lane(
    route: string, max: nat, entries: map<Id, Fields>, unread: seq<Id>, pending: map<Id, nat>,
    acked: set<Id>, dead: seq<DeadLetter>)

  function DeadAttempt(fields: Fields): string {
    if exists name <- fields :: !Clean(fields[name]) || !Clean(Utf8(name)) then "invalid-attempt-id"
    else if "attempt_id" !in fields then "invalid-attempt-id"
    else fields["attempt_id"].text
  }

  /** A dead letter names the attempt of its entry if all of the entry is writable text, and no attempt
      otherwise. */
  lemma DeadLetterNames(fields: Fields)
    ensures DeadAttempt(fields) ==
      if "attempt_id" in fields && forall name <- fields ::
           Writable(name) && fields[name].Utf8? && Writable(fields[name].text)
      then fields["attempt_id"].text else "invalid-attempt-id"
  {
    assert (exists name <- fields :: !Clean(fields[name]) || !Clean(Utf8(name))) <==>
           !(forall name <- fields :: Writable(name) && fields[name].Utf8? && Writable(fields[name].text));
  }

  function Add(lane: Lane, id: Id, fields: Fields): Lane {
    lane.(entries := lane.entries[id := fields], unread := lane.unread + [id])
  }

  /** XREADGROUP of one new entry. */
  function ReadNew(lane: Lane): Lane
    requires lane.unread != []
  {
    lane.(unread := lane.unread[1..], pending := lane.pending[lane.unread[0] := 1])
  }

  /** XAUTOCLAIM: every claimed entry counts one more delivery. */
  function ClaimAll(lane: Lane, ids: seq<Id>): Lane {
    lane.(pending := map id | id in lane.pending :: lane.pending[id] + if id in ids then 1 else 0)
  }

  /** XACK: whether one pending entry was acknowledged. */
  function Acknowledge(lane: Lane, id: Id): (Lane, bool) {
    if id in lane.pending then (lane.(pending := lane.pending - {id}, acked := lane.acked + {id}), true)
    else (lane, false)
  }

  /** The dead-letter script: one pending entry becomes one dead letter, or nothing changes. */
  function MoveToDead(lane: Lane, id: Id, count: nat, reason: Reason): (Lane, bool)
    requires id in lane.entries
  {
    if id in lane.pending then
      (lane.(pending := lane.pending - {id},
             dead := lane.dead + [DeadLetter(id, DeadAttempt(lane.entries[id]), count, reason)]), true)
    else (lane, false)
  }

  // ---------------------------------------------------------------- consumers

  /** The right to hand out an entry once: the `n`-th delivery of it, by a read or a claim. */
  datatype Ticket = Ticket(entry: Id, n: nat)

  /** Where a consumer is in `receive`. */
  datatype Phase =
    | Looking(todo: seq<Ticket>)                                // claimed entries still to look at
    | Counted(ticket: Ticket, count: nat, todo: seq<Ticket>)    // after the pending metadata was read
    | Taken(ticket: Ticket)                                     // after one new entry was read

  datatype Queue = Queue(
    lane: Lane, consumers: map<Id, Phase>, delivered: map<Id, nat>, handed: set<Ticket>, handouts: map<Id, nat>)

  datatype Move =
    | Publish(id: Id, fields: Fields)
    | AutoClaim(consumer: Id, ids: seq<Id>)
    | Count(consumer: Id)
    | Judge(consumer: Id)
    | Read(consumer: Id)
    | Ack(id: Id)
    | Crash(consumer: Id)

  predicate DistinctIds(ids: seq<Id>) {
    forall i, j :: 0 <= i < j < |ids| ==> ids[i] != ids[j]
  }

  function Delivered(q: Queue, id: Id): nat {
    if id in q.delivered then q.delivered[id] else 0
  }

  function Handouts(q: Queue, id: Id): nat {
    if id in q.handouts then q.handouts[id] else 0
  }

  function HandOut(q: Queue, consumer: Id, ticket: Ticket): Queue {
    q.(consumers := q.consumers - {consumer}, handed := q.handed + {ticket},
       handouts := q.handouts[ticket.entry := Handouts(q, ticket.entry) + 1])
  }

  /** Dead-letter the entry and go on, or give up if it is no longer pending. */
  function Bury(q: Queue, consumer: Id, id: Id, count: nat, reason: Reason, next: Option<Phase>): Queue
    requires id in q.lane.entries
  {
    var (lane, moved) := MoveToDead(q.lane, id, count, reason);
    if moved && next.Some? then q.(lane := lane, consumers := q.consumers[consumer := next.value])
    else q.(lane := lane, consumers := q.consumers - {consumer})
  }

  function Apply(q: Queue, move: Move): Queue {
    match move
    case Publish(id, fields) => if id in q.lane.entries then q else q.(lane := Add(q.lane, id, fields))
    case AutoClaim(c, ids) =>
      if c in q.consumers || !DistinctIds(ids) || |ids| > q.lane.max + 1
          || exists id <- ids :: id !in q.lane.pending then q
      else
        var delivered := map id | id in q.delivered :: q.delivered[id] + if id in ids then 1 else 0;
        q.(lane := ClaimAll(q.lane, ids), delivered := delivered,
           consumers := q.consumers[c := Looking(seq(|ids|, i requires 0 <= i < |ids| =>
             Ticket(ids[i], Delivered(q, ids[i]) + 1)))])
    case Count(c) =>
      if c !in q.consumers || !q.consumers[c].Looking? || q.consumers[c].todo == [] then q
      else
        var todo := q.consumers[c].todo;
        if todo[0].entry in q.lane.pending then
          q.(consumers := q.consumers[c := Counted(todo[0], q.lane.pending[todo[0].entry], todo[1..])])
        else q.(consumers := q.consumers - {c})
    case Judge(c) =>
      if c !in q.consumers then q
      else
        (match q.consumers[c]
         case Counted(ticket, count, todo) =>
           if ticket.entry !in q.lane.entries then q
           else if count > q.lane.max then Bury(q, c, ticket.entry, count, VisibilityTimeoutExceeded,
                                                Some(Looking(todo)))
           else if Parse(q.lane.entries[ticket.entry], q.lane.route).Some? then HandOut(q, c, ticket)
           else Bury(q, c, ticket.entry, 1, InvalidEnvelope, Some(Looking(todo)))
         case Taken(ticket) =>
           if ticket.entry !in q.lane.entries then q
           else if Parse(q.lane.entries[ticket.entry], q.lane.route).Some? then HandOut(q, c, ticket)
           else Bury(q, c, ticket.entry, 1, InvalidEnvelope, None)
         case _ => q)
    case Read(c) =>
      if c !in q.consumers || q.consumers[c] != Looking([]) then q
      else if q.lane.unread == [] then q.(consumers := q.consumers - {c})
      else
        var id := q.lane.unread[0];
        q.(lane := ReadNew(q.lane), delivered := q.delivered[id := 1],
           consumers := q.consumers[c := Taken(Ticket(id, 1))])
    case Ack(id) => q.(lane := Acknowledge(q.lane, id).0)
    case Crash(c) => q.(consumers := q.consumers - {c})
  }

  function Run(q: Queue, moves: seq<Move>): Queue
    decreases |moves|
  {
    if moves == [] then q else Run(Apply(q, moves[0]), moves[1..])
  }

  function Empty(route: string, max: nat): Queue {
    Queue(Lane(route, max, map[], [], map[], {}, []), map[], map[], {}, map[])
  }

  // ---------------------------------------------------------------- conservation

  predicate IsDead(dead: seq<DeadLetter>, id: Id) {
    exists i :: 0 <= i < |dead| && dead[i].entry == id
  }

  /** In how many of the four places an entry is. */
  function Places(lane: Lane, id: Id): nat {
    (if id in lane.unread then 1 else 0) + (if id in lane.pending then 1 else 0)
    + (if id in lane.acked then 1 else 0) + (if IsDead(lane.dead, id) then 1 else 0)
  }

  predicate DistinctDead(dead: seq<DeadLetter>) {
    forall i, j :: 0 <= i < j < |dead| ==> dead[i].entry != dead[j].entry
  }

  /** Every published entry is new, pending, acknowledged or dead-lettered, and only one of them;
      it is queued at most once and has at most one dead letter. */
  ghost predicate Conserved(lane: Lane) {
    && (forall id :: id in lane.entries ==> Places(lane, id) == 1)
    && (forall id :: id !in lane.entries ==> Places(lane, id) == 0)
    && DistinctIds(lane.unread) && DistinctDead(lane.dead)
  }

  lemma AddConserves(lane: Lane, id: Id, fields: Fields)
    requires Conserved(lane) && id !in lane.entries
    ensures Conserved(Add(lane, id, fields))
  {
    var next := Add(lane, id, fields);
    assert Places(lane, id) == 0;
    forall x: Id ensures Places(next, x) == if x in next.entries then 1 else 0 {
      assert Places(lane, x) == if x in lane.entries then 1 else 0;
    }
  }

  lemma ReadConserves(lane: Lane)
    requires Conserved(lane) && lane.unread != []
    ensures Conserved(ReadNew(lane))
  {
    var next := ReadNew(lane);
    forall x: Id ensures Places(next, x) == if x in next.entries then 1 else 0 {
      assert Places(lane, x) == if x in lane.entries then 1 else 0;
      assert x in lane.unread <==> x == lane.unread[0] || x in next.unread;
    }
  }

  lemma ClaimConserves(lane: Lane, ids: seq<Id>)
    requires Conserved(lane)
    ensures Conserved(ClaimAll(lane, ids))
  {
    var next := ClaimAll(lane, ids);
    forall x: Id ensures Places(next, x) == if x in next.entries then 1 else 0 {
      assert Places(lane, x) == if x in lane.entries then 1 else 0;
    }
  }

  lemma AckConserves(lane: Lane, id: Id)
    requires Conserved(lane)
    ensures Conserved(Acknowledge(lane, id).0)
  {
    var next := Acknowledge(lane, id).0;
    forall x: Id ensures Places(next, x) == if x in next.entries then 1 else 0 {
      assert Places(lane, x) == if x in lane.entries then 1 else 0;
    }
  }

  lemma BuryConserves(lane: Lane, id: Id, count: nat, reason: Reason)
    requires Conserved(lane) && id in lane.entries
    ensures Conserved(MoveToDead(lane, id, count, reason).0)
  {
    var next := MoveToDead(lane, id, count, reason).0;
    if id in lane.pending {
      assert Places(lane, id) == 1;
      var letter := next.dead[|lane.dead|];
      forall x: Id ensures Places(next, x) == if x in next.entries then 1 else 0 {
        assert Places(lane, x) == if x in lane.entries then 1 else 0;
        DeadAfter(lane.dead, letter, x);
      }
    }
  }

  lemma DeadAfter(dead: seq<DeadLetter>, letter: DeadLetter, x: Id)
    ensures IsDead(dead + [letter], x) <==> IsDead(dead, x) || letter.entry == x
  {
    var more := dead + [letter];
    if IsDead(dead, x) {
      var i :| 0 <= i < |dead| && dead[i].entry == x;
      assert more[i].entry == x;
    }
    if letter.entry == x { assert more[|dead|].entry == x; }
  }

  lemma MoveConserves(q: Queue, move: Move)
    requires Conserved(q.lane)
    ensures Conserved(Apply(q, move).lane)
  {
    hide Conserved, Parse, Acknowledge, ClaimAll, ReadNew, Add;
    match move
    case Publish(id, fields) => if id !in q.lane.entries { AddConserves(q.lane, id, fields); }
    case AutoClaim(_, ids) => ClaimConserves(q.lane, ids);
    case Judge(c) =>
      if c in q.consumers && !q.consumers[c].Looking? && q.consumers[c].ticket.entry in q.lane.entries {
        var id := q.consumers[c].ticket.entry;
        BuryConserves(q.lane, id, 1, InvalidEnvelope);
        if q.consumers[c].Counted? { BuryConserves(q.lane, id, q.consumers[c].count, VisibilityTimeoutExceeded); }
      }
    case Read(_) => if q.lane.unread != [] { ReadConserves(q.lane); }
    case Ack(id) => AckConserves(q.lane, id);
    case _ =>
  }

  /** Entries are read in the order in which they were added: a move takes the oldest unread one, or adds
      one behind all others, or leaves the queue of unread entries alone. */
  lemma UnreadIsQueue(q: Queue, move: Move)
    ensures var (before, after) := (q.lane.unread, Apply(q, move).lane.unread);
      || after == before
      || (move.Publish? && after == before + [move.id])
      || (move.Read? && before != [] && after == before[1..] && before[0] in Apply(q, move).lane.pending)
    ensures move.Publish? && move.id !in q.lane.entries ==>
      && Apply(q, move).lane.unread == q.lane.unread + [move.id]
      && Apply(q, move).lane.entries == q.lane.entries[move.id := move.fields]
  {
    hide Parse, DeadAttempt, Handouts, Delivered;
  }

  /** A consumer that dies keeps nothing to itself: any idle consumer, or the same one again, can claim a
      pending entry, which counts as one more delivery. */
  lemma PendingIsTakenOver(q: Queue, c: Id, d: Id, id: Id)
    requires id in q.lane.pending && (d == c || d !in q.consumers)
    ensures var after := Apply(Apply(q, Crash(c)), AutoClaim(d, [id]));
      && d in after.consumers && after.consumers[d].Looking?
      && |after.consumers[d].todo| == 1 && after.consumers[d].todo[0].entry == id
      && id in after.lane.pending && after.lane.pending[id] == q.lane.pending[id] + 1
  {
    hide Delivered;
  }

  /** An entry leaves the pending list only by an acknowledgement of its own id, or by one dead
      letter. */
  lemma LeavesPendingByAckOrDeadLetter(q: Queue, move: Move, id: Id)
    requires id in q.lane.pending && id !in Apply(q, move).lane.pending
    ensures var after := Apply(q, move).lane;
      || (move == Ack(id) && after.acked == q.lane.acked + {id} && after.dead == q.lane.dead)
      || (move.Judge? && after.acked == q.lane.acked && |after.dead| == |q.lane.dead| + 1
          && after.dead[..|q.lane.dead|] == q.lane.dead && after.dead[|q.lane.dead|].entry == id)
  {
    hide Parse, DeadAttempt, Bury, HandOut, Handouts, Delivered;
    if move.Judge? { JudgeBuries(q, move.consumer, id); }
  }

  lemma JudgeBuries(q: Queue, c: Id, id: Id)
    requires id in q.lane.pending && id !in Apply(q, Judge(c)).lane.pending
    ensures var after := Apply(q, Judge(c)).lane;
      && after.acked == q.lane.acked && |after.dead| == |q.lane.dead| + 1
      && after.dead[..|q.lane.dead|] == q.lane.dead && after.dead[|q.lane.dead|].entry == id
  {
    hide Parse, DeadAttempt, Handouts, Delivered;
  }

  // ---------------------------------------------------------------- bounded hand-outs

  function Held(phase: Phase): set<Ticket> {
    match phase
    case Looking(todo) => set t | t in todo
    case Counted(ticket, _, todo) => {ticket} + set t | t in todo
    case Taken(ticket) => {ticket}
  }

  predicate DistinctTickets(todo: seq<Ticket>) {
    forall i, j :: 0 <= i < j < |todo| ==> todo[i] != todo[j]
  }

  predicate PhaseOk(phase: Phase) {
    match phase
    case Looking(todo) => DistinctTickets(todo)
    case Counted(ticket, count, todo) => DistinctTickets(todo) && ticket !in todo && ticket.n <= count
    case Taken(ticket) => ticket.n == 1
  }

  /** A ticket that was issued and not yet used. */
  predicate Unused(q: Queue, t: Ticket) {
    1 <= t.n <= Delivered(q, t.entry) && t !in q.handed
  }

  predicate Used(q: Queue, t: Ticket) {
    1 <= t.n <= Delivered(q, t.entry) && t.n <= q.lane.max
  }

  function HandedOf(handed: set<Ticket>, id: Id): set<Ticket> {
    set t | t in handed && t.entry == id
  }

  ghost predicate ConsumersOk(q: Queue) {
    && (forall c :: c in q.consumers ==> PhaseOk(q.consumers[c]))
    && (forall c, t :: c in q.consumers && t in Held(q.consumers[c]) ==> Unused(q, t))
    && (forall c, d, t :: c in q.consumers && d in q.consumers ==>
          t in Held(q.consumers[c]) && t in Held(q.consumers[d]) ==> c == d)
  }

  predicate CountKept(q: Queue, id: Id) {
    && (id in q.lane.pending ==> id in q.delivered && q.lane.pending[id] == q.delivered[id])
    && (id in q.lane.unread ==> id !in q.delivered)
    && Handouts(q, id) == |HandedOf(q.handed, id)|
  }

  ghost predicate CountsOk(q: Queue) {
    && q.lane.max > 0
    && (forall id: Id :: CountKept(q, id))
    && (forall t <- q.handed :: Used(q, t))
  }

  ghost predicate Bounded(q: Queue) {
    Conserved(q.lane) && ConsumersOk(q) && CountsOk(q)
  }

  lemma {:induction false} TicketsUpTo(tickets: set<Ticket>, id: Id, n: nat)
    requires forall t <- tickets :: t.entry == id && 1 <= t.n <= n
    ensures |tickets| <= n
  {
    if n == 0 {
      assert tickets == {};
    } else {
      TicketsUpTo(tickets - {Ticket(id, n)}, id, n - 1);
    }
  }

  /** No entry is handed out more often than it was delivered, nor more often than the limit. */
  lemma HandoutsAreBounded(q: Queue, id: Id)
    requires Bounded(q)
    ensures Handouts(q, id) <= q.lane.max && Handouts(q, id) <= Delivered(q, id)
  {
    hide Conserved, ConsumersOk;
    assert CountKept(q, id);
    TicketsUpTo(HandedOf(q.handed, id), id, q.lane.max);
    TicketsUpTo(HandedOf(q.handed, id), id, Delivered(q, id));
  }

  // ---------------------------------------------------------------- the invariant is kept

  /** Nothing that consumers hold or have used is touched; deliveries only grow. */
  lemma CountersGrow(q: Queue, next: Queue)
    requires ConsumersOk(q) && next.consumers == q.consumers && next.handed == q.handed
    requires forall id: Id :: Delivered(q, id) <= Delivered(next, id)
    ensures ConsumersOk(next)
  {
    forall c, t | c in next.consumers && t in Held(next.consumers[c]) ensures Unused(next, t) {
      assert Unused(q, t);
    }
  }

  lemma ConsumerGone(q: Queue, c: Id)
    requires ConsumersOk(q)
    ensures ConsumersOk(q.(consumers := q.consumers - {c}))
  {
    var next := q.(consumers := q.consumers - {c});
    forall d, t | d in next.consumers && t in Held(next.consumers[d]) ensures Unused(next, t) {
      assert Unused(q, t);
    }
  }

  /** A consumer goes on with some of what it holds. */
  lemma ConsumerGoesOn(q: Queue, c: Id, phase: Phase)
    requires ConsumersOk(q) && c in q.consumers && PhaseOk(phase) && Held(phase) <= Held(q.consumers[c])
    ensures ConsumersOk(q.(consumers := q.consumers[c := phase]))
  {
    var next := q.(consumers := q.consumers[c := phase]);
    forall d, t | d in next.consumers && t in Held(next.consumers[d]) ensures Unused(next, t) {
      assert Unused(q, t);
    }
  }

  /** A consumer starts with tickets that nobody had. */
  lemma ConsumerComes(q: Queue, c: Id, phase: Phase)
    requires ConsumersOk(q) && PhaseOk(phase) && forall t <- Held(phase) :: Unused(q, t)
    requires forall d, t :: d in q.consumers && d != c && t in Held(q.consumers[d]) ==> t !in Held(phase)
    ensures ConsumersOk(q.(consumers := q.consumers[c := phase]))
  {
    var next := q.(consumers := q.consumers[c := phase]);
    forall d, t | d in next.consumers && t in Held(next.consumers[d]) ensures Unused(next, t) {
      assert Unused(q, t);
    }
  }

  lemma HandOutOk(q: Queue, c: Id, ticket: Ticket)
    requires Bounded(q) && c in q.consumers && ticket in Held(q.consumers[c]) && ticket.n <= q.lane.max
    ensures Bounded(HandOut(q, c, ticket))
  {
    var next := HandOut(q, c, ticket);
    hide Conserved;
    assert Unused(q, ticket);
    forall d, t | d in next.consumers && t in Held(next.consumers[d]) ensures Unused(next, t) {
      assert Unused(q, t) && d != c && t in Held(q.consumers[d]);
    }
    HandOutCounts(q, c, ticket);
  }

  lemma HandOutCounts(q: Queue, c: Id, ticket: Ticket)
    requires CountsOk(q) && Unused(q, ticket) && ticket.n <= q.lane.max
    ensures CountsOk(HandOut(q, c, ticket))
  {
    var next := HandOut(q, c, ticket);
    forall id: Id ensures CountKept(next, id) {
      assert CountKept(q, id);
      if id == ticket.entry {
        assert HandedOf(next.handed, id) == HandedOf(q.handed, id) + {ticket};
      } else {
        assert HandedOf(next.handed, id) == HandedOf(q.handed, id);
      }
    }
    forall t | t in next.handed ensures Used(next, t) {
      if t != ticket { assert Used(q, t); }
    }
  }

  lemma BuryOk(q: Queue, c: Id, id: Id, count: nat, reason: Reason, next: Option<Phase>)
    requires Bounded(q) && id in q.lane.entries && c in q.consumers
    requires next.Some? ==> PhaseOk(next.value) && Held(next.value) <= Held(q.consumers[c])
    ensures Bounded(Bury(q, c, id, count, reason, next))
  {
    var (lane, moved) := MoveToDead(q.lane, id, count, reason);
    BuryConserves(q.lane, id, count, reason);
    var base := q.(lane := lane);
    hide Conserved;
    CountersGrow(q, base);
    forall x: Id ensures CountKept(base, x) { assert CountKept(q, x); }
    forall t | t in base.handed ensures Used(base, t) { assert Used(q, t); }
    ConsumerGone(base, c);
    if next.Some? { ConsumerGoesOn(base, c, next.value); }
    CountsUnmoved(base, Bury(q, c, id, count, reason, next));
  }

  lemma CountsUnmoved(q: Queue, next: Queue)
    requires CountsOk(q) && next == q.(consumers := next.consumers)
    ensures CountsOk(next)
  {
    forall id: Id ensures CountKept(next, id) { assert CountKept(q, id); }
    forall t | t in next.handed ensures Used(next, t) { assert Used(q, t); }
  }

  function Claimed(q: Queue, ids: seq<Id>): seq<Ticket> {
    seq(|ids|, i requires 0 <= i < |ids| => Ticket(ids[i], Delivered(q, ids[i]) + 1))
  }

  lemma ClaimCounts(q: Queue, next: Queue, ids: seq<Id>)
    requires CountsOk(q) && forall id <- ids :: id in q.lane.pending
    requires next == q.(lane := ClaimAll(q.lane, ids), consumers := next.consumers,
                        delivered := map id | id in q.delivered :: q.delivered[id] + if id in ids then 1 else 0)
    ensures CountsOk(next) && forall id: Id :: Delivered(next, id) == Delivered(q, id) + if id in ids then 1 else 0
  {
    forall id: Id ensures CountKept(next, id) && Delivered(next, id) == Delivered(q, id) + if id in ids then 1 else 0 {
      assert CountKept(q, id);
    }
    forall t | t in next.handed ensures Used(next, t) { assert Used(q, t); }
  }

  lemma AutoClaimOk(q: Queue, c: Id, ids: seq<Id>)
    requires Bounded(q)
    ensures Bounded(Apply(q, AutoClaim(c, ids)))
  {
    var next := Apply(q, AutoClaim(c, ids));
    ClaimConserves(q.lane, ids);
    if c !in q.consumers && DistinctIds(ids) && |ids| <= q.lane.max + 1 && forall id <- ids :: id in q.lane.pending {
      hide Conserved;
      ClaimCounts(q, next, ids);
      var base := next.(consumers := q.consumers);
      CountersGrow(q, base);
      var phase := Looking(Claimed(q, ids));
      forall t | t in Held(phase) ensures Unused(base, t) {
        assert t in q.handed ==> Used(q, t);
      }
      forall d, t | d in base.consumers && t in Held(base.consumers[d]) ensures t !in Held(phase) {
        assert Unused(q, t);
      }
      assert PhaseOk(phase) by {
        forall i, j | 0 <= i < j < |ids| ensures Claimed(q, ids)[i] != Claimed(q, ids)[j] {}
      }
      ConsumerComes(base, c, phase);
      assert next.consumers[c] == phase;
    }
  }

  lemma CountOk(q: Queue, c: Id)
    requires Bounded(q)
    ensures Bounded(Apply(q, Count(c)))
  {
    var next := Apply(q, Count(c));
    hide Conserved;
    if c in q.consumers && q.consumers[c].Looking? && q.consumers[c].todo != [] {
      var todo := q.consumers[c].todo;
      if todo[0].entry in q.lane.pending {
        assert todo[0] in Held(q.consumers[c]) && Unused(q, todo[0]) && CountKept(q, todo[0].entry);
        ConsumerGoesOn(q, c, Counted(todo[0], q.lane.pending[todo[0].entry], todo[1..]));
      } else {
        ConsumerGone(q, c);
      }
      CountsUnmoved(q, next);
    }
  }

  lemma JudgeOk(q: Queue, c: Id)
    requires Bounded(q)
    ensures Bounded(Apply(q, Judge(c)))
  {
    hide Bounded, Parse, HandOut, Bury;
    if c in q.consumers && !q.consumers[c].Looking? {
      HeldWithinCount(q, c);
      var phase := q.consumers[c];
      if phase.ticket.entry in q.lane.entries {
        if phase.ticket.n <= q.lane.max { HandOutOk(q, c, phase.ticket); }
        if phase.Counted? {
          BuryOk(q, c, phase.ticket.entry, phase.count, VisibilityTimeoutExceeded, Some(Looking(phase.todo)));
          BuryOk(q, c, phase.ticket.entry, 1, InvalidEnvelope, Some(Looking(phase.todo)));
        } else {
          BuryOk(q, c, phase.ticket.entry, 1, InvalidEnvelope, None);
        }
      }
    }
  }

  lemma HeldWithinCount(q: Queue, c: Id)
    requires Bounded(q) && c in q.consumers && !q.consumers[c].Looking?
    ensures var phase := q.consumers[c];
      && phase.ticket in Held(phase) && q.lane.max > 0
      && (phase.Counted? ==> phase.ticket.n <= phase.count && DistinctTickets(phase.todo))
      && (phase.Taken? ==> phase.ticket.n <= q.lane.max)
  {
    hide Conserved;
    assert PhaseOk(q.consumers[c]);
  }

  lemma ReadCounts(q: Queue)
    requires CountsOk(q) && Conserved(q.lane) && q.lane.unread != []
    ensures var id := q.lane.unread[0];
      var next := q.(lane := ReadNew(q.lane), delivered := q.delivered[id := 1]);
      CountsOk(next) && Delivered(q, id) == 0 && Ticket(id, 1) !in q.handed
  {
    var id := q.lane.unread[0];
    var next := q.(lane := ReadNew(q.lane), delivered := q.delivered[id := 1]);
    assert CountKept(q, id) && Places(q.lane, id) <= 1;
    assert Ticket(id, 1) in q.handed ==> Used(q, Ticket(id, 1));
    forall x: Id ensures CountKept(next, x) {
      assert CountKept(q, x);
    }
    forall t | t in next.handed ensures Used(next, t) { assert Used(q, t); }
  }

  lemma ReadOk(q: Queue, c: Id)
    requires Bounded(q)
    ensures Bounded(Apply(q, Read(c)))
  {
    var next := Apply(q, Read(c));
    if c in q.consumers && q.consumers[c] == Looking([]) {
      if q.lane.unread == [] {
        hide Conserved;
        ConsumerGone(q, c);
        CountsUnmoved(q, next);
      } else {
        ReadCounts(q);
        ReadConserves(q.lane);
        hide Conserved;
        var id := q.lane.unread[0];
        var base := next.(consumers := q.consumers);
        CountersGrow(q, base);
        forall d, t | d in base.consumers && t in Held(base.consumers[d]) ensures t != Ticket(id, 1) {
          assert Unused(q, t);
        }
        ConsumerComes(base, c, Taken(Ticket(id, 1)));
        CountsUnmoved(base, next);
      }
    }
  }

  lemma AckOk(q: Queue, id: Id)
    requires Bounded(q)
    ensures Bounded(Apply(q, Ack(id)))
  {
    var next := Apply(q, Ack(id));
    AckConserves(q.lane, id);
    hide Conserved;
    CountersGrow(q, next);
    forall x: Id ensures CountKept(next, x) { assert CountKept(q, x); }
    forall t | t in next.handed ensures Used(next, t) { assert Used(q, t); }
  }

  lemma PublishOk(q: Queue, id: Id, fields: Fields)
    requires Bounded(q) && (id in q.delivered ==> id in q.lane.entries)
    ensures Bounded(Apply(q, Publish(id, fields)))
  {
    var next := Apply(q, Publish(id, fields));
    if id !in q.lane.entries {
      AddConserves(q.lane, id, fields);
      hide Conserved;
      CountersGrow(q, next);
      forall x: Id ensures CountKept(next, x) { assert CountKept(q, x); }
      forall t | t in next.handed ensures Used(next, t) { assert Used(q, t); }
    }
  }

  /** Deliveries are counted for published entries only. */
  ghost predicate DeliveredWerePublished(q: Queue) {
    forall id :: id in q.delivered ==> id in q.lane.entries
  }

  lemma DeliveredArePublished(q: Queue, move: Move)
    requires Conserved(q.lane) && DeliveredWerePublished(q)
    ensures DeliveredWerePublished(Apply(q, move))
  {
    if q.lane.unread != [] {
      assert q.lane.unread[0] in q.lane.unread;
      assert Places(q.lane, q.lane.unread[0]) > 0;
    }
    hide Conserved, Parse, DeadAttempt;
  }

  lemma MoveKeepsBound(q: Queue, move: Move)
    requires Bounded(q) && DeliveredWerePublished(q)
    ensures Bounded(Apply(q, move)) && DeliveredWerePublished(Apply(q, move))
  {
    assert Conserved(q.lane) by { hide Conserved, ConsumersOk, CountsOk; }
    DeliveredArePublished(q, move);
    match move
    case Publish(id, fields) => PublishOk(q, id, fields);
    case AutoClaim(c, ids) => AutoClaimOk(q, c, ids);
    case Count(c) => CountOk(q, c);
    case Judge(c) => JudgeOk(q, c);
    case Read(c) => ReadOk(q, c);
    case Ack(id) => AckOk(q, id);
    case Crash(c) =>
      hide Conserved;
      ConsumerGone(q, c);
      CountsUnmoved(q, Apply(q, move));
  }

  lemma {:induction false} RunKeepsBound(q: Queue, moves: seq<Move>)
    requires Bounded(q) && DeliveredWerePublished(q)
    ensures Bounded(Run(q, moves))
    decreases |moves|
  {
    if moves != [] {
      MoveKeepsBound(q, moves[0]);
      hide Bounded, DeliveredWerePublished, Apply;
      RunKeepsBound(Apply(q, moves[0]), moves[1..]);
    }
  }

  lemma EmptyIsBounded(route: string, max: nat)
    requires max > 0
    ensures Bounded(Empty(route, max)) && DeliveredWerePublished(Empty(route, max))
  {
    assert forall id: Id :: HandedOf({}, id) == {};
  }

  /** In every run of a lane, whatever its consumers do and wherever they crash: each entry is in
      exactly one place, and was handed to workers no more often than the limit allows and than
      it was delivered. */
  lemma LaneConservesAndBounds(route: string, max: nat, moves: seq<Move>, id: Id)
    requires max > 0
    ensures var q := Run(Empty(route, max), moves);
      && Places(q.lane, id) == (if id in q.lane.entries then 1 else 0)
      && Handouts(q, id) <= q.lane.max && Handouts(q, id) <= Delivered(q, id)
  {
    EmptyIsBounded(route, max);
    RunKeepsBound(Empty(route, max), moves);
    hide ConsumersOk, CountsOk, Run, Empty;
    HandoutsAreBounded(Run(Empty(route, max), moves), id);
  }
}
