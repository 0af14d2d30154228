/**
  Coroutine bodies and their direct-style meaning.

  A body is the tree of everything one coroutine may do between its eager start and its final
  suspension: it starts child coroutines, moves, detaches, destroys and awaits the task objects it
  holds, and awaits UCX operations. What it does after an await depends on the outcome of that await.
 */
module Coroutine {
  import opened Prelude

  /**
    What a coroutine or an operation hands back. With the number of bytes that a receive reports goes
    what it has put into its buffer.
   */
  datatype Value = Unit | Count(n: nat, buffer: seq<byte>) | Tagged(length: nat, tag: nat) | Bytes(data: seq<byte>)

  datatype Outcome = Returned(value: Value) | Threw(code: int)

  /** The three callback shapes of the awaitables. */
  datatype Kind = SendLike | StreamRecv | TagRecv

  /** One operation a coroutine issues; `id` tells different operations of a program apart. */
  datatype Op = Op(kind: Kind, id: nat, length: nat)

  /** How the transport ends an operation: an error code, or success with what was received. */
  datatype Completion = Completion(error: Option<int>, length: nat, tag: nat, buffer: seq<byte>)

  /** The transport's answers, independent of when they are delivered. */
  type Oracle = Op -> Completion

  datatype Body =
    | Return(value: Value)
    | Throw(code: int)
    | Start(child: Body, next: Body)
    | Move(slot: nat, next: Body)
    | Detach(slot: nat, next: Body)
    | Drop(slot: nat, next: Body)
    | AwaitTask(slot: nat, k: imap<Outcome, Body>)
    | AwaitOp(op: Op, k: imap<Outcome, Body>)

  /**
    The rest of a body after an await. An exception the body has no continuation for propagates out
    of it; a value it has no continuation for ends it.
   */
  function Continue(k: imap<Outcome, Body>, o: Outcome): (b: Body) {
    if o in k then k[o]
    else match o
      case Threw(code) => Throw(code)
      case Returned(_) => Return(Unit)
  }

  /** What an await of the operation yields: the value, or the exception made from an error status. */
  function Delivered(kind: Kind, c: Completion): Outcome {
    match c.error
    case Some(code) => Threw(code)
    case None =>
      match kind
      case SendLike => Returned(Unit)
      case StreamRecv => Returned(Count(c.length, c.buffer))
      case TagRecv => Returned(Tagged(c.length, c.tag))
  }

  /** A task object held in a coroutine's scope, as direct-style evaluation sees it. */
  datatype Local =
    | Destroyed               // its destructor has run
    | Released                // detached, or moved from
    | Pending(outcome: Outcome) // started and not yet awaited
    | Consumed                // awaited: the future has been read

  /**
    Direct-style evaluation: a child is evaluated where it is started, an operation where it is
    awaited, and destroying a task object means nothing. The result is None when the body breaks the
    client discipline: a task is awaited at most once, and not used after `detach`.
   */
  ghost function Eval(orc: Oracle, b: Body, env: seq<Local>): (r: Option<Outcome>)
    decreases b
  {
    match b
    case Return(v) => Some(Returned(v))
    case Throw(code) => Some(Threw(code))
    case Start(child, next) =>
      (match Eval(orc, child, [])
       case None => None
       case Some(o) => Eval(orc, next, env + [Pending(o)]))
    case Move(i, next) =>
      if i < |env| && !env[i].Destroyed? then Eval(orc, next, env[i := Released] + [env[i]]) else None
    case Detach(i, next) =>
      if i < |env| && (env[i].Pending? || env[i].Consumed?) then Eval(orc, next, env[i := Released]) else None
    case Drop(i, next) =>
      if i < |env| && !env[i].Destroyed? then Eval(orc, next, env[i := Destroyed]) else None
    case AwaitTask(i, k) =>
      if !(i < |env| && env[i].Pending?) then None
      else if env[i].outcome in k then Eval(orc, k[env[i].outcome], env[i := Consumed])
      else Some(Uncaught(env[i].outcome))
    case AwaitOp(op, k) =>
      var o := Delivered(op.kind, orc(op));
      if o in k then Eval(orc, k[o], env) else Some(Uncaught(o))
  }

  /**
    The body, and every child it starts, destroys no task object before the task was awaited,
    detached or moved from.
   */
  ghost predicate Tidy(orc: Oracle, b: Body, env: seq<Local>)
    decreases b
  {
    match b
    case Return(_) => Settled(env)
    case Throw(_) => Settled(env)
    case Start(child, next) =>
      && Tidy(orc, child, [])
      && (Eval(orc, child, []).Some? ==> Tidy(orc, next, env + [Pending(Eval(orc, child, []).value)]))
    case Move(i, next) => i < |env| ==> Tidy(orc, next, env[i := Released] + [env[i]])
    case Detach(i, next) => i < |env| ==> Tidy(orc, next, env[i := Released])
    case Drop(i, next) => i < |env| ==> !env[i].Pending? && Tidy(orc, next, env[i := Destroyed])
    case AwaitTask(i, k) =>
      i < |env| && env[i].Pending? ==>
        if env[i].outcome in k then Tidy(orc, k[env[i].outcome], env[i := Consumed]) else Settled(env[i := Consumed])
    case AwaitOp(op, k) =>
      var o := Delivered(op.kind, orc(op));
      if o in k then Tidy(orc, k[o], env) else Settled(env)
  }

  ghost predicate Settled(env: seq<Local>) {
    forall i :: 0 <= i < |env| ==> !env[i].Pending?
  }

  function Uncaught(o: Outcome): Outcome {
    match o
    case Threw(code) => Threw(code)
    case Returned(_) => Returned(Unit)
  }

  /** Steps left along the direct-style evaluation; awaits count three: ask, be called back, resume. */
  ghost function Cost(orc: Oracle, b: Body, env: seq<Local>): nat
    decreases b
  {
    match b
    case Return(_) => 1
    case Throw(_) => 1
    case Start(child, next) =>
      1 + Cost(orc, child, [])
        + (match Eval(orc, child, [])
           case None => 0
           case Some(o) => Cost(orc, next, env + [Pending(o)]))
    case Move(i, next) => if i < |env| then 1 + Cost(orc, next, env[i := Released] + [env[i]]) else 0
    case Detach(i, next) => if i < |env| then 1 + Cost(orc, next, env[i := Released]) else 0
    case Drop(i, next) => if i < |env| then 1 + Cost(orc, next, env[i := Destroyed]) else 0
    case AwaitTask(i, k) =>
      if i < |env| && env[i].Pending? && env[i].outcome in k then
        3 + Cost(orc, k[env[i].outcome], env[i := Consumed])
      else 4
    case AwaitOp(op, k) =>
      var o := Delivered(op.kind, orc(op));
      if o in k then 3 + Cost(orc, k[o], env) else 4
  }

  /** Evaluation and cost of an await in terms of the body that continues it. */
  lemma AwaitUnfolds(orc: Oracle, b: Body, env: seq<Local>, o: Outcome)
    requires b.AwaitTask? || b.AwaitOp?
    requires b.AwaitTask? ==> b.slot < |env| && env[b.slot] == Pending(o)
    requires b.AwaitOp? ==> o == Delivered(b.op.kind, orc(b.op))
    ensures var env' := if b.AwaitTask? then env[b.slot := Consumed] else env;
            && Eval(orc, b, env) == Eval(orc, Continue(b.k, o), env')
            && (Tidy(orc, b, env) ==> Tidy(orc, Continue(b.k, o), env'))
            && Cost(orc, b, env) == 3 + Cost(orc, Continue(b.k, o), env')
  {
  }

  /** Evaluation of each form that starts or awaits something, one step at a time. */
  lemma {:induction false} EvalAwaitOp(orc: Oracle, op: Op, k: imap<Outcome, Body>, env: seq<Local>)
    requires Delivered(op.kind, orc(op)) in k
    ensures Eval(orc, AwaitOp(op, k), env) == Eval(orc, k[Delivered(op.kind, orc(op))], env)
  {
  }

  lemma {:induction false} EvalStart(orc: Oracle, child: Body, next: Body, env: seq<Local>, o: Outcome)
    requires Eval(orc, child, []) == Some(o)
    ensures Eval(orc, Start(child, next), env) == Eval(orc, next, env + [Pending(o)])
  {
  }

  /** `co_await` of a task held in a temporary, which is destroyed before the coroutine goes on. */
  ghost function AwaitTemporary(slot: nat, next: imap<Outcome, Body>): Body {
    AwaitTask(slot, imap o: Outcome | o in next :: Drop(slot, next[o]))
  }

  lemma {:induction false} EvalAwaitTemporary(orc: Oracle, slot: nat, next: imap<Outcome, Body>, env: seq<Local>, o: Outcome)
    requires slot < |env| && env[slot] == Pending(o)
    ensures Eval(orc, AwaitTemporary(slot, next), env) ==
            if o in next then Eval(orc, next[o], env[slot := Destroyed])
            else Some(Uncaught(o))
  {
    var k := imap o: Outcome | o in next :: Drop(slot, next[o]);
    var env' := env[slot := Consumed];
    assert env'[slot := Destroyed] == env[slot := Destroyed];
    if o in next {
      assert Eval(orc, k[o], env') == Eval(orc, next[o], env'[slot := Destroyed]);
    }
  }

  /** `co_await f(...)`: start a child, await it at once, and destroy its task object. */
  ghost function Call(child: Body, slot: nat, next: imap<Outcome, Body>): Body {
    Start(child, AwaitTemporary(slot, next))
  }

  lemma {:induction false} EvalCall(orc: Oracle, child: Body, next: imap<Outcome, Body>, env: seq<Local>, o: Outcome)
    requires Eval(orc, child, []) == Some(o)
    ensures Eval(orc, Call(child, |env|, next), env) ==
            if o in next then Eval(orc, next[o], env + [Destroyed]) else Some(Uncaught(o))
  {
    var env1 := env + [Pending(o)];
    EvalStart(orc, child, AwaitTemporary(|env|, next), env, o);
    EvalAwaitTemporary(orc, |env|, next, env1, o);
    assert env1[|env| := Destroyed] == env + [Destroyed];
    assert env1[|env| := Consumed] == env + [Consumed];
  }
}
