/** A model of `SynchronizedQueue<T>` (src/sync_collection/synchronized_queue.rs).

    With the mutex, the condition variable and the atomic flag stripped away the
    queue is a state machine over two pieces of state: the `VecDeque` of items
    and the `is_closed` flag.  Items are kept as a sequence whose index 0 is the
    deque's FRONT.  `push` inserts at the front and both pops take from the
    back, so the oldest item leaves first: the queue is FIFO.

    The module has two layers:
      - a value layer (`QueueState` and one step function per operation) on
        which the ordering and monotonicity facts are proved as lemmas;
      - the class `SynchronizedQueue`, whose methods update its two fields in
        place and promise that the new state is the step function applied to
        the old one, so every lemma of the value layer applies to it. */
module SyncCollection {

  datatype Option<T> = None | Some(value: T)

  /** The contents of the guarded deque (front = index 0) and the closed flag. */
  datatype QueueState<T> = QueueState(items: seq<T>, closed: bool)

  /** What a pop hands back: the item, if any, and the state after the call. */
  datatype Taken<T> = Taken(item: Option<T>, state: QueueState<T>)

  /** The state `new` builds: an empty deque, not closed. */
  function Init<T>(): QueueState<T> {
    QueueState([], false)
  }

  /** `push`: `push_front` on the deque; the closed flag is not consulted. */
  function PushStep<T>(s: QueueState<T>, x: T): QueueState<T> {
    s.(items := [x] + s.items)
  }

  /** `close`: stores `true` in the flag; the items are not touched. */
  function CloseStep<T>(s: QueueState<T>): QueueState<T> {
    s.(closed := true)
  }

  /** `pop`: `pop_back` on the deque.  It never reads the closed flag. */
  function PopStep<T>(s: QueueState<T>): (r: Taken<T>)
    ensures r.state.closed == s.closed
    ensures r.item.None? <==> s.items == []
    ensures r.item.None? ==> r.state == s
    ensures r.item.Some? ==> s.items == r.state.items + [r.item.value]
  {
    if |s.items| == 0 then Taken(None, s)
    else Taken(Some(s.items[|s.items| - 1]), s.(items := s.items[..|s.items| - 1]))
  }

  /** The condition under which `pop_wait` stops waiting: the negation of the
      `wait_while` predicate `q.is_empty() && !closed`. */
  predicate CanReturn<T>(s: QueueState<T>) {
    |s.items| != 0 || s.closed
  }

  /** `pop_wait`, in the state in which it wakes up: the same `pop_back`.
      An available item is always delivered, closed or not; "no item" comes
      back only from a queue that is both empty and closed. */
  function PopWaitStep<T>(s: QueueState<T>): (r: Taken<T>)
    requires CanReturn(s)
    ensures r.item.None? <==> s.items == [] && s.closed
    ensures s.items != [] ==> r.item == Some(s.items[|s.items| - 1])
    ensures r.item.Some? ==> s.items == r.state.items + [r.item.value]
    ensures r.item.None? ==> r.state == s
    ensures r.state.closed == s.closed
  {
    PopStep(s)
  }

  /** The items that successive `pop` calls return until the queue is empty,
      in the order they come out: the deque read from back to front. */
  function Drain<T>(s: QueueState<T>): (out: seq<T>)
    ensures |out| == |s.items|
    ensures forall k :: 0 <= k < |out| ==> out[k] == s.items[|s.items| - 1 - k]
    decreases |s.items|
  {
    var t := PopStep(s);
    if t.item.None? then [] else [t.item.value] + Drain(t.state)
  }

  /** Pushing the items of `xs` one after another, `xs[0]` first. */
  function PushAll<T>(s: QueueState<T>, xs: seq<T>): (r: QueueState<T>)
    ensures r.closed == s.closed
    ensures |r.items| == |xs| + |s.items|
    ensures forall k :: 0 <= k < |xs| ==> r.items[k] == xs[|xs| - 1 - k]
    ensures r.items[|xs|..] == s.items
    decreases |xs|
  {
    if |xs| == 0 then s else PushAll(PushStep(s, xs[0]), xs[1..])
  }

  /** FIFO: what was queued before comes out first, then the pushed items in
      the order they were pushed. */
  lemma DrainAfterPush<T>(s: QueueState<T>, x: T)
    ensures Drain(PushStep(s, x)) == Drain(s) + [x]
  {
  }

  lemma {:induction false} DrainAfterPushAll<T>(s: QueueState<T>, xs: seq<T>)
    ensures Drain(PushAll(s, xs)) == Drain(s) + xs
    decreases |xs|
  {
    if |xs| != 0 {
      calc {
        Drain(PushAll(s, xs));
        Drain(PushAll(PushStep(s, xs[0]), xs[1..]));
        { DrainAfterPushAll(PushStep(s, xs[0]), xs[1..]); }
        Drain(PushStep(s, xs[0])) + xs[1..];
        { DrainAfterPush(s, xs[0]); }
        Drain(s) + [xs[0]] + xs[1..];
        { assert [xs[0]] + xs[1..] == xs; }
        Drain(s) + xs;
      }
    }
  }

  /** Pushing v1..vn onto a fresh queue and popping it empty gives v1..vn. */
  lemma FifoFromEmpty<T>(xs: seq<T>)
    ensures Drain(PushAll(Init(), xs)) == xs
  {
    DrainAfterPushAll(Init<T>(), xs);
  }

  /** Round trip: an item pushed onto an empty queue is what `pop` and
      `pop_wait` return next, and the queue is empty again afterwards. */
  lemma PushThenPop<T>(s: QueueState<T>, x: T)
    requires s.items == []
    ensures PopStep(PushStep(s, x)) == Taken(Some(x), s)
    ensures PopWaitStep(PushStep(s, x)) == Taken(Some(x), s)
  {
  }

  /** `pop` returns the same thing whatever the closed flag says. */
  lemma PopIgnoresClosed<T>(s: QueueState<T>, c: bool)
    ensures PopStep(s.(closed := c)).item == PopStep(s).item
    ensures PopStep(s.(closed := c)).state == PopStep(s).state.(closed := c)
  {
  }

  /** `close` is idempotent and leaves the items alone. */
  lemma CloseIdempotent<T>(s: QueueState<T>)
    ensures CloseStep(CloseStep(s)) == CloseStep(s)
    ensures CloseStep(s).items == s.items && CloseStep(s).closed
  {
  }

  /** The operations any thread may perform on a shared queue. */
  datatype Op<T> = Push(item: T) | Pop | PopWait | Close

  /** The effect of one operation on the shared state.  A `pop_wait` whose
      wake-up condition does not hold yet has not returned and has changed
      nothing: `wait_while` gives the lock up while it waits. */
  function Step<T>(s: QueueState<T>, op: Op<T>): (r: QueueState<T>)
    ensures r.closed == (s.closed || op.Close?)
    ensures op.Push? ==> r.items == [op.item] + s.items
    ensures !op.Push? ==> |r.items| <= |s.items|
  {
    match op
    case Push(x) => PushStep(s, x)
    case Pop => PopStep(s).state
    case PopWait => if CanReturn(s) then PopWaitStep(s).state else s
    case Close => CloseStep(s)
  }

  /** The state after the operations of `ops`, in order, from state `s`. */
  function Run<T>(s: QueueState<T>, ops: seq<Op<T>>): QueueState<T>
    decreases |ops|
  {
    if |ops| == 0 then s else Run(Step(s, ops[0]), ops[1..])
  }

  predicate HasClose<T>(ops: seq<Op<T>>) {
    exists i :: 0 <= i < |ops| && ops[i].Close?
  }

  /** The closed flag only goes from false to true: after any interleaving of
      operations it is set exactly when it was set before or a `close` ran. */
  lemma {:induction false} ClosedAfterRun<T>(s: QueueState<T>, ops: seq<Op<T>>)
    ensures Run(s, ops).closed <==> s.closed || HasClose(ops)
    decreases |ops|
  {
    if |ops| != 0 {
      var s' := Step(s, ops[0]);
      ClosedAfterRun(s', ops[1..]);
      if HasClose(ops) && !ops[0].Close? {
        var i :| 0 <= i < |ops| && ops[i].Close?;
        assert ops[1..][i - 1].Close?;
      }
      if HasClose(ops[1..]) {
        var i :| 0 <= i < |ops[1..]| && ops[1..][i].Close?;
        assert ops[i + 1].Close?;
      }
    }
  }

  /** Once closed, a queue stays closed whatever runs next. */
  lemma ClosedStaysClosed<T>(s: QueueState<T>, ops: seq<Op<T>>)
    requires s.closed
    ensures Run(s, ops).closed
  {
    ClosedAfterRun(s, ops);
  }

  /** The queue itself: the deque behind the mutex and the closed flag. */
  class SynchronizedQueue<T> {
    var items: seq<T>
    var closed: bool

    function State(): QueueState<T>
      reads this
    {
      QueueState(items, closed)
    }

    /** `new`: an empty, open queue. */
    constructor ()
      ensures State() == Init()
      ensures items == [] && !closed
    {
      items := [];
      closed := false;
    }

    /** `close`: sets the flag (and would wake every waiter). */
    method Close()
      modifies this
      ensures State() == CloseStep(old(State()))
      ensures closed && items == old(items)
    {
      closed := true;
    }

    /** `push`: `push_front`; accepted on a closed queue too. */
    method Push(item: T)
      modifies this
      ensures State() == PushStep(old(State()), item)
      ensures items == [item] + old(items) && closed == old(closed)
    {
      items := [item] + items;
    }

    /** `pop`: `pop_back`, never blocking and never reading the flag. */
    method Pop() returns (r: Option<T>)
      modifies this
      ensures Taken(r, State()) == PopStep(old(State()))
      ensures closed == old(closed)
      ensures r.None? <==> old(items) == []
      ensures r.None? ==> items == old(items)
      ensures r.Some? ==> old(items) == items + [r.value]
    {
      if |items| == 0 {
        r := None;
      } else {
        r := Some(items[|items| - 1]);
        items := items[..|items| - 1];
      }
    }

    /** `pop_wait`, from the moment its wait ends: the caller is only let
        through once the queue is non-empty or closed. */
    method PopWait() returns (r: Option<T>)
      requires items != [] || closed
      modifies this
      ensures Taken(r, State()) == PopWaitStep(old(State()))
      ensures closed == old(closed)
      ensures r.None? <==> old(items) == [] && old(closed)
      ensures old(items) != [] ==> r == Some(old(items)[|old(items)| - 1])
      ensures r.Some? ==> old(items) == items + [r.value]
      ensures r.None? ==> items == old(items)
    {
      if |items| == 0 {
        r := None;
      } else {
        r := Some(items[|items| - 1]);
        items := items[..|items| - 1];
      }
    }
  }
}
