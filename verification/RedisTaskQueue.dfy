/** The queue adapter itself: the loop of `receive` against the lane, while others use it too. */
module RedisTaskQueue {
  import opened Basics
  import opened RedisLane

  datatype AttemptDelivery = AttemptDelivery(attempt: string, message: Id)

  /** The consumer that makes a move, if it is one of `receive`. */
  predicate MovesConsumer(move: Move, c: Id) {
    match move
    case AutoClaim(d, _) => c == d
    case Count(d) => c == d
    case Judge(d) => c == d
    case Read(d) => c == d
    case Crash(d) => c == d
    case _ => false
  }

  predicate Foreign(moves: seq<Move>, c: Id) {
    forall move <- moves :: !MovesConsumer(move, c)
  }

  /** Entries are never rewritten or removed. */
  ghost predicate EntriesKept(before: Lane, after: Lane) {
    && after.route == before.route && after.max == before.max
    && forall id :: id in before.entries ==> id in after.entries && after.entries[id] == before.entries[id]
  }

  lemma MoveKeepsEntries(q: Queue, move: Move)
    ensures EntriesKept(q.lane, Apply(q, move).lane)
  {
    hide Parse, DeadAttempt;
  }

  predicate SameConsumer(q: Queue, next: Queue, c: Id) {
    (c in next.consumers <==> c in q.consumers) && (c in q.consumers ==> next.consumers[c] == q.consumers[c])
  }

  lemma MoveLeavesOthers(q: Queue, move: Move, c: Id)
    requires !MovesConsumer(move, c)
    ensures SameConsumer(q, Apply(q, move), c)
  {
    hide Parse, MoveToDead, ClaimAll, ReadNew, Acknowledge, Add, Handouts, Delivered;
  }

  /** What the others do meanwhile does not move this consumer, and rewrites no entry. */
  lemma {:induction false} OthersLeave(q: Queue, moves: seq<Move>, c: Id)
    requires Foreign(moves, c)
    ensures SameConsumer(q, Run(q, moves), c) && EntriesKept(q.lane, Run(q, moves).lane)
    decreases |moves|
  {
    hide Apply;
    if moves != [] {
      assert moves[0] in moves;
      MoveLeavesOthers(q, moves[0], c);
      MoveKeepsEntries(q, moves[0]);
      OthersLeave(Apply(q, moves[0]), moves[1..], c);
    }
  }

  lemma {:induction false} RunJoins(q: Queue, moves: seq<Move>, more: seq<Move>)
    ensures Run(q, moves + more) == Run(Run(q, moves), more)
    decreases |moves|
  {
    hide Apply;
    if moves == [] {
      assert moves + more == more;
    } else {
      RunJoins(Apply(q, moves[0]), moves[1..], more);
      assert (moves + more)[0] == moves[0] && (moves + more)[1..] == moves[1..] + more;
    }
  }

  predicate Claimable(lane: Lane, ids: seq<Id>) {
    DistinctIds(ids) && |ids| <= lane.max + 1 && forall id <- ids :: id in lane.pending
  }

  /** Consumer `c` is in its loop with these claimed entries, all of them published. */
  predicate LooksAt(q: Queue, c: Id, todo: seq<Ticket>) {
    c in q.consumers && q.consumers[c] == Looking(todo) && forall t <- todo :: t.entry in q.lane.entries
  }

  /** What a returned delivery says: the entry is on this lane, its envelope is valid, and one of
      its tickets was used for it. */
  predicate HandedOver(q: Queue, d: AttemptDelivery) {
    && d.message in q.lane.entries && Parse(q.lane.entries[d.message], q.lane.route) == Some(Envelope(d.attempt))
    && exists t <- q.handed :: t.entry == d.message
  }

  /** The last step of the run is this consumer's hand-out of the delivery, which counts as one. */
  ghost predicate EndsInHandOut(begin: Queue, trace: seq<Move>, c: Id, d: AttemptDelivery) {
    && trace != [] && trace[|trace| - 1] == Judge(c)
    && Run(begin, trace) == Apply(Run(begin, trace[..|trace| - 1]), Judge(c))
    && Handouts(Run(begin, trace), d.message) == Handouts(Run(begin, trace[..|trace| - 1]), d.message) + 1
  }

  /** The last step of the run is this consumer's: it found no new entry, or dead-lettered the one it had
      taken as malformed. */
  ghost predicate EndsWithNothing(begin: Queue, trace: seq<Move>, c: Id) {
    trace != [] &&
    var (before, after) := (Run(begin, trace[..|trace| - 1]), Run(begin, trace));
    || (trace[|trace| - 1] == Read(c) && before.lane.unread == [])
    || (trace[|trace| - 1] == Judge(c) && c in before.consumers && before.consumers[c].Taken?
        && IsDead(after.lane.dead, before.consumers[c].ticket.entry))
  }

  lemma {:induction false} RunConserves(q: Queue, moves: seq<Move>)
    requires Conserved(q.lane)
    ensures Conserved(Run(q, moves).lane)
    decreases |moves|
  {
    hide Apply, Conserved;
    if moves != [] {
      MoveConserves(q, moves[0]);
      RunConserves(Apply(q, moves[0]), moves[1..]);
    }
  }

  lemma ClaimLooks(q: Queue, c: Id, ids: seq<Id>)
    requires c !in q.consumers && Claimable(q.lane, ids) && Conserved(q.lane)
    ensures var next := Apply(q, AutoClaim(c, ids));
      c in next.consumers && next.consumers[c].Looking? && LooksAt(next, c, next.consumers[c].todo)
  {
    forall id | id in ids ensures id in q.lane.entries {
      assert Places(q.lane, id) >= 1;
    }
  }

  lemma CountLooks(q: Queue, c: Id, ticket: Ticket, rest: seq<Ticket>)
    requires LooksAt(q, c, [ticket] + rest)
    ensures var next := Apply(q, Count(c));
      && next.lane == q.lane
      && (c in next.consumers ==>
            && next.consumers[c].Counted? && next.consumers[c].ticket == ticket && next.consumers[c].todo == rest
            && ticket.entry in q.lane.entries && forall t <- rest :: t.entry in q.lane.entries)
  {
    assert ([ticket] + rest)[1..] == rest && ticket in [ticket] + rest;
  }

  lemma ReadTakes(q: Queue, c: Id)
    requires LooksAt(q, c, []) && Conserved(q.lane)
    ensures var next := Apply(q, Read(c));
      && (c in next.consumers <==> q.lane.unread != [])
      && (c in next.consumers ==>
            && next.consumers[c] == Taken(Ticket(q.lane.unread[0], 1)) && q.lane.unread[0] in next.lane.entries)
  {
    if q.lane.unread != [] {
      assert q.lane.unread[0] in q.lane.unread && Places(q.lane, q.lane.unread[0]) >= 1;
    }
  }

  lemma DeadLetterIsLast(lane: Lane, id: Id)
    requires id in lane.entries && id in lane.pending
    ensures forall count, reason :: IsDead(MoveToDead(lane, id, count, reason).0.dead, id)
  {
    forall count, reason ensures IsDead(MoveToDead(lane, id, count, reason).0.dead, id) {
      assert MoveToDead(lane, id, count, reason).0.dead[|lane.dead|].entry == id;
    }
  }

  /** The branch of `receive` for one entry: too often, deliverable, or malformed. */
  lemma JudgeSettles(q: Queue, c: Id)
    requires c in q.consumers && !q.consumers[c].Looking? && q.consumers[c].ticket.entry in q.lane.entries
    ensures var (next, phase) := (Apply(q, Judge(c)), q.consumers[c]);
      var entry, parsed := phase.ticket.entry, Parse(q.lane.entries[phase.ticket.entry], q.lane.route);
      if (phase.Counted? && phase.count > q.lane.max) || parsed.None? then
        && (c in next.consumers <==> phase.Counted? && entry in q.lane.pending)
        && (c in next.consumers ==> next.consumers[c] == Looking(phase.todo))
        && (if entry in q.lane.pending then IsDead(next.lane.dead, entry) else next.lane == q.lane)
        && (entry in q.lane.pending ==>
              var attempt := DeadAttempt(q.lane.entries[entry]);
              next.lane.dead == q.lane.dead +
                [if phase.Counted? && phase.count > q.lane.max
                 then DeadLetter(entry, attempt, phase.count, VisibilityTimeoutExceeded)
                 else DeadLetter(entry, attempt, 1, InvalidEnvelope)])
      else
        && c !in next.consumers && HandedOver(next, AttemptDelivery(parsed.value.attempt, entry))
        && Handouts(next, entry) == Handouts(q, entry) + 1
  {
    if q.consumers[c].ticket.entry in q.lane.pending { DeadLetterIsLast(q.lane, q.consumers[c].ticket.entry); }
    hide Parse, DeadAttempt;
    var ticket := q.consumers[c].ticket;
    assert ticket in q.handed + {ticket};
  }

  /** The adapter over one lane. Before each command it sends, the rest of the system may make any
      moves of its own: `others`. `trace` is the run so far, from `begin`. */
  class RedisTaskQueue {
    var queue: Queue

    constructor (route: string, max: nat)
      ensures queue == Empty(route, max)
    {
      queue := Empty(route, max);
    }

    method Publish(id: Id, attempt: string) returns (r: Result<()>)
      modifies this
      ensures r.Ok? <==> !(Blank(attempt) || '\0' in attempt)
      ensures queue == if r.Err? then old(queue)
        else Apply(old(queue), RedisLane.Publish(id, EnvelopeOf(old(queue).lane.route, attempt)))
    {
      if Blank(attempt) || '\0' in attempt { return Err(Refused); }
      queue := Apply(queue, RedisLane.Publish(id, EnvelopeOf(queue.lane.route, attempt)));
      return Ok(());
    }

    /** Acknowledging needs the entry's own message id, and refuses what is not pending. */
    method Acknowledge(d: AttemptDelivery) returns (r: Result<()>)
      modifies this
      ensures r.Ok? <==> d.message in old(queue).lane.pending
      ensures queue == Apply(old(queue), Ack(d.message))
      ensures d.message !in queue.lane.pending
      ensures r.Ok? ==> d.message in queue.lane.acked
    {
      var (lane, acknowledged) := RedisLane.Acknowledge(queue.lane, d.message);
      queue := queue.(lane := lane);
      return if acknowledged then Ok(()) else Err(Refused);
    }

    method Send(c: Id, others: seq<Move>, move: Move, ghost begin: Queue, ghost trace: seq<Move>)
      returns (ghost longer: seq<Move>)
      requires Foreign(others, c) && queue == Run(begin, trace)
      modifies this
      ensures queue == Apply(Run(old(queue), others), move) && queue == Run(begin, longer)
      ensures longer == trace + others + [move] && Run(begin, trace + others) == Run(old(queue), others)
    {
      hide Apply;
      queue := Apply(Run(queue, others), move);
      longer := trace + (others + [move]);
      RunJoins(begin, trace, others);
      RunJoins(begin, trace, others + [move]);
      RunJoins(old(queue), others, [move]);
      assert [move][1..] == [];
    }

    method ClaimedEntries(c: Id, others: seq<Move>, wanted: seq<Id>, ghost begin: Queue)
      returns (todo: seq<Ticket>, ghost trace: seq<Move>)
      requires c !in queue.consumers && Foreign(others, c) && Conserved(queue.lane) && queue == begin
      modifies this
      ensures LooksAt(queue, c, todo) && queue == Run(begin, trace)
    {
      hide Apply, Conserved;
      OthersLeave(queue, others, c);
      RunConserves(queue, others);
      var ids := if Claimable(Run(queue, others).lane, wanted) then wanted else [];
      ClaimLooks(Run(queue, others), c, ids);
      trace := Send(c, others, AutoClaim(c, ids), begin, []);
      todo := queue.consumers[c].todo;
    }

    method DeliveryCount(c: Id, others: seq<Move>, ticket: Ticket, rest: seq<Ticket>, ghost begin: Queue,
                         ghost trace: seq<Move>)
      returns (count: Option<nat>, ghost longer: seq<Move>)
      requires LooksAt(queue, c, [ticket] + rest) && Foreign(others, c) && queue == Run(begin, trace)
      modifies this
      ensures queue == Run(begin, longer) && (count.None? <==> c !in queue.consumers)
      ensures count.Some? ==>
        && queue.consumers[c] == Counted(ticket, count.value, rest) && ticket.entry in queue.lane.entries
        && forall t <- rest :: t.entry in queue.lane.entries
    {
      hide Apply;
      OthersLeave(queue, others, c);
      CountLooks(Run(queue, others), c, ticket, rest);
      longer := Send(c, others, Count(c), begin, trace);
      count := if c in queue.consumers then Some(queue.consumers[c].count) else None;
    }

    /** `None` when the entry was dead-lettered; it raises, and nothing changes, when the entry is no
        longer pending. */
    method Settle(c: Id, others: seq<Move>, ticket: Ticket, todo: seq<Ticket>, ghost begin: Queue,
                  ghost trace: seq<Move>)
      returns (r: Result<Option<AttemptDelivery>>, ghost longer: seq<Move>)
      requires Foreign(others, c) && queue == Run(begin, trace) && ticket.entry in queue.lane.entries
      requires c in queue.consumers && forall t <- todo :: t.entry in queue.lane.entries
      requires queue.consumers[c] == Taken(ticket) || (queue.consumers[c].Counted? &&
                 queue.consumers[c] == Counted(ticket, queue.consumers[c].count, todo))
      modifies this
      ensures queue == Run(begin, longer)
      ensures r.Ok? && r.value.Some? ==> HandedOver(queue, r.value.value) && c !in queue.consumers
      ensures r.Ok? && r.value.Some? ==> EndsInHandOut(begin, longer, c, r.value.value)
      ensures r == Ok(None) ==> IsDead(queue.lane.dead, ticket.entry)
      ensures r == Ok(None) && old(queue).consumers[c].Taken? ==> EndsWithNothing(begin, longer, c)
      ensures r.Err? ==> queue.lane == Run(old(queue), others).lane
      ensures r == Ok(None) ==>
                if old(queue).consumers[c].Counted? then LooksAt(queue, c, todo) else c !in queue.consumers
      ensures r.Err? ==> c !in queue.consumers
    {
      hide Apply, Parse, HandedOver;
      OthersLeave(queue, others, c);
      var phase := queue.consumers[c];
      var fields := queue.lane.entries[ticket.entry];
      var parsed := Parse(fields, queue.lane.route);
      JudgeSettles(Run(queue, others), c);
      MoveKeepsEntries(Run(queue, others), Judge(c));
      ghost var max := queue.lane.max;
      var moved := ticket.entry in Run(queue, others).lane.pending;
      longer := Send(c, others, Judge(c), begin, trace);
      assert longer[..|longer| - 1] == trace + others;
      if (phase.Counted? && phase.count > queue.lane.max) || parsed.None? {
        r := if moved then Ok(None) else Err(Refused);
      } else {
        r := Ok(Some(AttemptDelivery(parsed.value.attempt, ticket.entry)));
      }
    }

    /** XREADGROUP of one new entry; `None` when there was none. */
    method ReadOne(c: Id, others: seq<Move>, ghost begin: Queue, ghost trace: seq<Move>)
      returns (ticket: Option<Ticket>, ghost longer: seq<Move>)
      requires LooksAt(queue, c, []) && Foreign(others, c) && queue == Run(begin, trace) && Conserved(queue.lane)
      modifies this
      ensures queue == Run(begin, longer) && (ticket.None? <==> c !in queue.consumers)
      ensures ticket.Some? ==> queue.consumers[c] == Taken(ticket.value) && ticket.value.entry in queue.lane.entries
      ensures ticket.None? ==> EndsWithNothing(begin, longer, c)
    {
      hide Apply, Conserved;
      OthersLeave(queue, others, c);
      RunConserves(queue, others);
      ReadTakes(Run(queue, others), c);
      longer := Send(c, others, Read(c), begin, trace);
      assert longer[..|longer| - 1] == trace + others;
      ticket := if c in queue.consumers then Some(queue.consumers[c].ticket) else None;
    }

    /** `receive`: the claimed entries first, then one new entry; nothing is returned only if there was no
        new entry to take, or a malformed one. `others(n)` is what the rest of
        the system does before the n-th command, and `wanted` what the server would claim. */
    method Receive(c: Id, wanted: seq<Id>, others: nat -> seq<Move>)
      returns (r: Result<Option<AttemptDelivery>>, ghost trace: seq<Move>)
      requires c !in queue.consumers && Conserved(queue.lane) && forall n: nat :: Foreign(others(n), c)
      modifies this
      ensures queue == Run(old(queue), trace)
      ensures r.Ok? && r.value.Some? ==>
                HandedOver(queue, r.value.value) && EndsInHandOut(old(queue), trace, c, r.value.value)
      ensures r == Ok(None) ==> EndsWithNothing(old(queue), trace, c)
      ensures c !in queue.consumers
    {
      hide Conserved, HandedOver, EndsInHandOut, EndsWithNothing, IsDead;
      ghost var begin := queue;
      var todo;
      todo, trace := ClaimedEntries(c, others(0), wanted, begin);
      var n := 1;
      while todo != []
        invariant LooksAt(queue, c, todo) && queue == Run(begin, trace)
        decreases |todo|
      {
        var ticket, rest := todo[0], todo[1..];
        assert todo == [ticket] + rest;
        var count;
        count, trace := DeliveryCount(c, others(n), ticket, rest, begin, trace);
        if count.None? { return Err(Refused), trace; }
        r, trace := Settle(c, others(n + 1), ticket, rest, begin, trace);
        if r.Err? || r.value.Some? { return r, trace; }
        todo, n := rest, n + 2;
      }
      RunConserves(begin, trace);
      var taken;
      taken, trace := ReadOne(c, others(n), begin, trace);
      if taken.None? { return Ok(None), trace; }
      r, trace := Settle(c, others(n + 1), taken.value, [], begin, trace);
    }
  }
}
