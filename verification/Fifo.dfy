/** The order of a message queue: with posts to the back alone, messages leave it in the order in which they came;
    with posts to both ends it is a double-ended queue. */
module Fifo {
  import opened PrioSets
  import opened KernelState
  import opened EventServices
  import opened Runs
  import opened Bystanders
  import opened EventAnswers

  ghost predicate IsQueue(s: State, e: nat) {
    e < |s.events| && s.events[e].body.Queue?
  }

  // The call leaves queue `e` a queue whose messages are put in at the back alone and taken out singly.
  ghost predicate KeepsOrder(op: Op, e: nat) {
    match op
    case OfEvent(PostTo(kind, f, _, opt)) => f == e && kind == Q ==> !opt.front
    case OfEvent(FlushQ(f)) => f != e
    case OfEvent(DeleteEvent(kind, f, _)) => f == e ==> kind != Q
    case _ => true
  }

  // What the call puts in, by its error code: a message that was accepted, once, or once for each waiter of a broadcast.
  ghost function Came(s: State, op: Op, r: Reply, e: nat): seq<nat>
    requires IsQueue(s, e)
  {
    match op
    case OfEvent(PostTo(kind, f, msg, opt)) =>
      if f != e || kind != Q || r.err != ErrNone then []
      else if s.events[e].wait != {} && opt.broadcast then seq(|s.events[e].wait|, (i: nat) => msg)
      else [msg]
    case _ => []
  }

  // What the call takes out: what a pend or an accept returns, by its error code and its value, or what a post hands to
  // waiting tasks.
  ghost function Went(s: State, op: Op, r: Reply, e: nat): seq<nat>
    requires IsQueue(s, e)
  {
    match op
    case OfEvent(PostTo(_, _, _, _)) => if s.events[e].wait != {} then Came(s, op, r, e) else []
    case OfEvent(PendOn(kind, f, _)) => if f == e && kind == Q && r.err == ErrNone then [r.val] else []
    case OfEvent(AcceptFrom(kind, f)) => if f == e && kind == Q && r.err == ErrNone then [r.val] else []
    case _ => []
  }

  // What was there and came is what went and is there.
  ghost predicate InOrder(s: State, op: Op, r: Reply, e: nat)
    requires IsQueue(s, e)
  {
    IsQueue(r.s, e) && s.events[e].body.data + Came(s, op, r, e) == Went(s, op, r, e) + r.s.events[e].body.data
  }

  lemma PostInOrder(s: State, e: nat, msg: nat, opt: PostOpt)
    requires Inv(s) && IsQueue(s, e) && !opt.front
    ensures InOrder(s, OfEvent(PostTo(Q, e, msg, opt)), Post(s, Q, e, msg, opt), e)
  {
    PostAnswer(s, Q, e, msg, opt);
    assert EventOk(s, e);
  }

  lemma PendInOrder(s: State, e: nat, timeout: nat)
    requires Inv(s) && MayBlock(s) && IsQueue(s, e)
    ensures InOrder(s, OfEvent(PendOn(Q, e, timeout)), Pend(s, Q, e, timeout), e)
  {
    PendAnswer(s, Q, e, timeout);
  }

  lemma AcceptInOrder(s: State, e: nat)
    requires IsQueue(s, e)
    ensures InOrder(s, OfEvent(AcceptFrom(Q, e)), Accept(s, Q, e), e)
  {
    AcceptAnswer(s, Q, e);
  }

  lemma AbortInOrder(s: State, e: nat, all: bool)
    requires Inv(s) && IsQueue(s, e)
    ensures InOrder(s, OfEvent(AbortAll(Q, e, all)), Abort(s, Q, e, all), e)
  {
    AbortAnswer(s, Q, e, all);
  }

  // A call that does not name the queue.
  lemma OthersInOrder(s: State, op: Op, e: nat)
    requires Legal(s, op) && IsQueue(s, e) && NamedQueue(s, op) != e
    ensures InOrder(s, op, Step(s, op), e) && Step(s, op).s.events[e].body == s.events[e].body
    ensures Moves(s, op, Step(s, op), e) == []
  {
    StepKeepsQueues(s, op);
  }

  lemma StepInOrder(s: State, op: Op, e: nat)
    requires Legal(s, op) && IsQueue(s, e) && KeepsOrder(op, e)
    ensures InOrder(s, op, Step(s, op), e)
  {
    if NamedQueue(s, op) != e {
      OthersInOrder(s, op, e);
    } else {
      match op
      case OfEvent(PostTo(_, _, msg, opt)) => PostInOrder(s, e, msg, opt);
      case OfEvent(PendOn(_, _, timeout)) => PendInOrder(s, e, timeout);
      case OfEvent(AcceptFrom(_, _)) => AcceptInOrder(s, e);
      case OfEvent(AbortAll(_, _, all)) => AbortInOrder(s, e, all);
    }
  }

  // ---------- runs ----------

  ghost predicate KeepsOrderRun(ops: seq<Op>, e: nat) {
    forall i :: 0 <= i < |ops| ==> KeepsOrder(ops[i], e)
  }

  ghost function AllCame(s: State, ops: seq<Op>, e: nat): seq<nat>
    requires LegalRun(s, ops) && IsQueue(s, e) && KeepsOrderRun(ops, e)
    decreases |ops|
  {
    if ops == [] then []
    else
      StepInOrder(s, ops[0], e);
      Came(s, ops[0], Step(s, ops[0]), e) + AllCame(Step(s, ops[0]).s, ops[1..], e)
  }

  ghost function AllWent(s: State, ops: seq<Op>, e: nat): seq<nat>
    requires LegalRun(s, ops) && IsQueue(s, e) && KeepsOrderRun(ops, e)
    decreases |ops|
  {
    if ops == [] then []
    else
      StepInOrder(s, ops[0], e);
      Went(s, ops[0], Step(s, ops[0]), e) + AllWent(Step(s, ops[0]).s, ops[1..], e)
  }

  // Over any run: the messages that went, followed by those still there, are those that were there, followed by those
  // that came, in the same order.
  lemma {:induction false} FirstInFirstOut(s: State, ops: seq<Op>, e: nat)
    requires LegalRun(s, ops) && IsQueue(s, e) && KeepsOrderRun(ops, e)
    ensures IsQueue(Final(s, ops), e)
    ensures s.events[e].body.data + AllCame(s, ops, e) == AllWent(s, ops, e) + Final(s, ops).events[e].body.data
    decreases |ops|
  {
    if ops == [] {
      assert s.events[e].body.data + [] == [] + s.events[e].body.data;
    } else {
      var r := Step(s, ops[0]);
      StepInOrder(s, ops[0], e);
      FirstInFirstOut(r.s, ops[1..], e);
      Splice(s.events[e].body.data, Came(s, ops[0], r, e), AllCame(r.s, ops[1..], e),
             Went(s, ops[0], r, e), r.s.events[e].body.data, AllWent(r.s, ops[1..], e), Final(s, ops).events[e].body.data);
    }
  }

  lemma Splice(x: seq<nat>, c1: seq<nat>, c2: seq<nat>, w1: seq<nat>, y: seq<nat>, w2: seq<nat>, z: seq<nat>)
    requires x + c1 == w1 + y && y + c2 == w2 + z
    ensures x + (c1 + c2) == (w1 + w2) + z
  {
    assert x + (c1 + c2) == (x + c1) + c2;
    assert (w1 + y) + c2 == w1 + (y + c2);
    assert w1 + (w2 + z) == (w1 + w2) + z;
  }

  // ---------- with posts to the front ----------

  // What a caller sees of a queue that nobody waits for: a message put in at either end, a message taken out, a flush.
  datatype Move = PutBack(msg: nat) | PutFront(msg: nat) | Taken(msg: nat) | Emptied

  // The moves of a call, by its error code and its value.
  ghost function Moves(s: State, op: Op, r: Reply, e: nat): seq<Move>
    requires IsQueue(s, e)
  {
    match op
    case OfEvent(PostTo(kind, f, msg, opt)) =>
      if f != e || kind != Q || r.err != ErrNone || s.events[e].wait != {} then []
      else if opt.front then [PutFront(msg)] else [PutBack(msg)]
    case OfEvent(PendOn(kind, f, _)) => if f == e && kind == Q && r.err == ErrNone then [Taken(r.val)] else []
    case OfEvent(AcceptFrom(kind, f)) => if f == e && kind == Q && r.err == ErrNone then [Taken(r.val)] else []
    case OfEvent(FlushQ(f)) => if f == e then [Emptied] else []
    case _ => []
  }

  // What a double-ended queue holds after the moves; none if a move takes anything but its first message.
  function Replay(data: seq<nat>, moves: seq<Move>): Option<seq<nat>>
    decreases |moves|
  {
    if moves == [] then Some(data)
    else match moves[0]
         case PutBack(msg) => Replay(data + [msg], moves[1..])
         case PutFront(msg) => Replay([msg] + data, moves[1..])
         case Taken(msg) => if data != [] && data[0] == msg then Replay(data[1..], moves[1..]) else None
         case Emptied => Replay([], moves[1..])
  }

  // The call is not a deletion of the queue.
  ghost predicate KeepsQueue(op: Op, e: nat) {
    match op
    case OfEvent(DeleteEvent(kind, f, _)) => f == e ==> kind != Q
    case _ => true
  }

  ghost predicate Replays(s: State, op: Op, r: Reply, e: nat)
    requires IsQueue(s, e)
  {
    && IsQueue(r.s, e) && r.s.events[e].body.size == s.events[e].body.size
    && |Moves(s, op, r, e)| <= 1 && Replay(s.events[e].body.data, Moves(s, op, r, e)) == Some(r.s.events[e].body.data)
  }

  lemma PostReplays(s: State, e: nat, msg: nat, opt: PostOpt)
    requires Inv(s) && IsQueue(s, e)
    ensures Replays(s, OfEvent(PostTo(Q, e, msg, opt)), Post(s, Q, e, msg, opt), e)
  {
    PostAnswer(s, Q, e, msg, opt);
  }

  lemma PendReplays(s: State, e: nat, timeout: nat)
    requires Inv(s) && MayBlock(s) && IsQueue(s, e)
    ensures Replays(s, OfEvent(PendOn(Q, e, timeout)), Pend(s, Q, e, timeout), e)
  {
    PendAnswer(s, Q, e, timeout);
  }

  lemma AbortReplays(s: State, e: nat, all: bool)
    requires Inv(s) && IsQueue(s, e)
    ensures Replays(s, OfEvent(AbortAll(Q, e, all)), Abort(s, Q, e, all), e)
  {
    AbortAnswer(s, Q, e, all);
  }

  lemma StepReplays(s: State, op: Op, e: nat)
    requires Legal(s, op) && IsQueue(s, e) && KeepsQueue(op, e)
    ensures Replays(s, op, Step(s, op), e)
  {
    if NamedQueue(s, op) != e {
      OthersInOrder(s, op, e);
    } else {
      match op
      case OfEvent(PostTo(_, _, msg, opt)) => PostReplays(s, e, msg, opt);
      case OfEvent(PendOn(_, _, timeout)) => PendReplays(s, e, timeout);
      case OfEvent(AcceptFrom(_, _)) => AcceptAnswer(s, Q, e);
      case OfEvent(AbortAll(_, _, all)) => AbortReplays(s, e, all);
      case OfEvent(FlushQ(_)) => FlushAnswer(s, e);
    }
  }

  ghost predicate KeepsQueueRun(ops: seq<Op>, e: nat) {
    forall i :: 0 <= i < |ops| ==> KeepsQueue(ops[i], e)
  }

  ghost function AllMoves(s: State, ops: seq<Op>, e: nat): seq<Move>
    requires LegalRun(s, ops) && IsQueue(s, e) && KeepsQueueRun(ops, e)
    decreases |ops|
  {
    if ops == [] then []
    else
      StepReplays(s, ops[0], e);
      Moves(s, ops[0], Step(s, ops[0]), e) + AllMoves(Step(s, ops[0]).s, ops[1..], e)
  }

  // Over any run, with posts to the back and to the front in any order, a queue is a double-ended queue: every message
  // that a caller takes is the first of those that an ideal one would hold, and what is left is what it would hold.
  lemma {:induction false} QueueIsDeque(s: State, ops: seq<Op>, e: nat)
    requires LegalRun(s, ops) && IsQueue(s, e) && KeepsQueueRun(ops, e)
    ensures IsQueue(Final(s, ops), e)
    ensures Replay(s.events[e].body.data, AllMoves(s, ops, e)) == Some(Final(s, ops).events[e].body.data)
    decreases |ops|
  {
    if ops != [] {
      var r := Step(s, ops[0]);
      StepReplays(s, ops[0], e);
      QueueIsDeque(r.s, ops[1..], e);
      OneMove(s.events[e].body.data, Moves(s, ops[0], r, e), AllMoves(r.s, ops[1..], e));
    }
  }

  lemma OneMove(data: seq<nat>, move: seq<Move>, rest: seq<Move>)
    requires |move| <= 1 && Replay(data, move).Some?
    ensures Replay(data, move + rest) == Replay(Replay(data, move).value, rest)
  {
    if move == [] {
      assert move + rest == rest;
    } else {
      assert (move + rest)[1..] == rest;
    }
  }
}
