/**
  The plain first-in-first-out queue that the transactional ring buffer is
  measured against, and the "overlay" form of the same queue: committed
  elements stay where they are, a transaction only counts how many of them it
  has taken and keeps its own pushes aside.
 */
module Fifo {
  import opened Options

  datatype Op<T> = Push(v: T) | Pop | Front

  datatype Answer<T> = Pushed | Popped(ok: bool) | Seen(front: Option<T>)

  /** One call made by a transaction together with what the call returned. */
  datatype Event<T> = Event(op: Op<T>, answer: Answer<T>)

  // ---------------------------------------------------------------- plain queue

  function After<T>(q: seq<T>, op: Op<T>): seq<T> {
    match op
    case Push(v) => q + [v]
    case Pop => if q == [] then [] else q[1..]
    case Front => q
  }

  function Reply<T>(q: seq<T>, op: Op<T>): Answer<T> {
    match op
    case Push(_) => Pushed
    case Pop => Popped(q != [])
    case Front => Seen(if q == [] then None else Some(q[0]))
  }

  /** Contents of a plain queue that started as q and saw every call of log. */
  function AfterAll<T>(q: seq<T>, log: seq<Event<T>>): seq<T> {
    if log == [] then q else After(AfterAll(q, log[..|log| - 1]), log[|log| - 1].op)
  }

  /** Every recorded answer is the one the plain queue would have given. */
  predicate Agrees<T(==)>(q: seq<T>, log: seq<Event<T>>) {
    log == [] ||
    (Agrees(q, log[..|log| - 1]) &&
     log[|log| - 1].answer == Reply(AfterAll(q, log[..|log| - 1]), log[|log| - 1].op))
  }

  lemma {:induction false} RunsConcatenate<T>(q: seq<T>, a: seq<Event<T>>, b: seq<Event<T>>)
    ensures AfterAll(q, a + b) == AfterAll(AfterAll(q, a), b)
    ensures Agrees(q, a + b) <==> Agrees(q, a) && Agrees(AfterAll(q, a), b)
    decreases |b|
  {
    if b == [] {
      assert a + b == a;
    } else {
      assert (a + b)[..|a + b| - 1] == a + b[..|b| - 1];
      RunsConcatenate(q, a, b[..|b| - 1]);
    }
  }

  // ---------------------------------------------------------------- overlay form

  /**
    taken: committed elements popped so far; own: pushes not yet popped again;
    sawHead: some answer came from a committed element;
    sawTail: some answer needed to know that no further committed element exists.
   */
  datatype Overlay<T> = Overlay(taken: nat, own: seq<T>, sawHead: bool, sawTail: bool)

  function Step<T>(c: seq<T>, o: Overlay<T>, op: Op<T>): Overlay<T> {
    match op
    case Push(v) => o.(own := o.own + [v])
    case Pop =>
      if o.taken < |c| then o.(taken := o.taken + 1, sawHead := true)
      else o.(own := if o.own == [] then [] else o.own[1..], sawTail := true)
    case Front => if o.taken < |c| then o.(sawHead := true) else o.(sawTail := true)
  }

  function StepReply<T>(c: seq<T>, o: Overlay<T>, op: Op<T>): Answer<T> {
    match op
    case Push(_) => Pushed
    case Pop => Popped(o.taken < |c| || o.own != [])
    case Front => Seen(if o.taken < |c| then Some(c[o.taken]) else if o.own != [] then Some(o.own[0]) else None)
  }

  function Steps<T>(c: seq<T>, log: seq<Event<T>>): Overlay<T> {
    if log == [] then Overlay(0, [], false, false)
    else Step(c, Steps(c, log[..|log| - 1]), log[|log| - 1].op)
  }

  predicate StepsAgree<T(==)>(c: seq<T>, log: seq<Event<T>>) {
    log == [] ||
    (StepsAgree(c, log[..|log| - 1]) &&
     log[|log| - 1].answer == StepReply(c, Steps(c, log[..|log| - 1]), log[|log| - 1].op))
  }

  /** The overlay is the plain queue: same contents, and exactly the same logs are accepted. */
  lemma {:induction false} OverlayIsFifo<T>(c: seq<T>, log: seq<Event<T>>)
    ensures var o := Steps(c, log);
            o.taken <= |c| && AfterAll(c, log) == c[o.taken..] + o.own
    ensures StepsAgree(c, log) <==> Agrees(c, log)
  {
    if log != [] {
      OverlayIsFifo(c, log[..|log| - 1]);
    }
  }

  /** Answers that never looked past the committed elements survive pushes by others. */
  lemma {:induction false} OverlaySurvivesPushes<T>(c: seq<T>, d: seq<T>, log: seq<Event<T>>)
    requires !Steps(c, log).sawTail
    ensures Steps(c + d, log) == Steps(c, log)
    ensures StepsAgree(c + d, log) <==> StepsAgree(c, log)
  {
    if log != [] {
      OverlaySurvivesPushes(c, d, log[..|log| - 1]);
    }
  }

  /** A log that only pushed is valid over any committed contents. */
  lemma {:induction false} OverlayOfPushes<T>(c: seq<T>, d: seq<T>, log: seq<Event<T>>)
    requires !Steps(c, log).sawTail && !Steps(c, log).sawHead
    ensures Steps(d, log) == Steps(c, log) && Steps(c, log).taken == 0
    ensures StepsAgree(d, log) <==> StepsAgree(c, log)
  {
    if log != [] {
      OverlayOfPushes(c, d, log[..|log| - 1]);
    }
  }
}
