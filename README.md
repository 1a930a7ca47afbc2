# SynchronizedQueue model

A Dafny model of `SynchronizedQueue<T>` from the `rust-threadpool` crate
(`src/sync_collection/synchronized_queue.rs`). This is the blocking queue that
the thread pool's workers pull jobs from. With the `Mutex`, the `Condvar` and the
`AtomicBool` taken away, the queue is a small state machine with two pieces of state:

- the `VecDeque` of items. It is modelled as a `seq<T>` whose index 0 is the
  deque's front.
- the `is_closed` flag. It is modelled as a `bool` that only ever goes from
  `false` to `true`.

There are five operations: `new`, `push`, `pop`, `pop_wait` and `close`.

`push` inserts with `push_front` and both pops remove with `pop_back`, so the
oldest item always leaves first. The queue is FIFO, not a stack. Some
descriptions of this crate call the reference discipline a stack. The model
follows the code.

The file `synchronized_queue.dfy` holds one module, `SyncCollection`, in two layers:

- **Value layer.** `QueueState` is the state. `PushStep`, `PopStep`,
  `PopWaitStep` and `CloseStep` are one step function per operation.
  `Drain` gives the items that successive pops return. `PushAll` pushes a
  sequence of items. `Op`, `Step` and `Run` describe any interleaving of
  operations by different threads. The ordering and monotonicity facts are
  proved as lemmas at this layer.
- **Class `SynchronizedQueue<T>`.** It has the fields `items` and `closed`. Its
  methods update those fields in place (`modifies this`). Each method promises
  that the new `State()` is the matching step function applied to the old
  state, so every lemma of the value layer holds for the class.

The blocking in `pop_wait` is modelled without threads. `wait_while` keeps the
caller waiting while `q.is_empty() && !closed` holds. `PopWait` therefore
requires the negation of that condition, which is when the call can return.
Its postcondition says what it returns in that state. In the interleaving
model (`Step`), a `pop_wait` that cannot return yet leaves the state
unchanged, because a waiting thread has released the lock.

## Model

| member | source | states |
|---|---|---|
| `SyncCollection.SynchronizedQueue.constructor` | src/sync_collection/synchronized_queue.rs:18-23 | `new` builds an empty deque whose closed flag is false |
| `SyncCollection.SynchronizedQueue.Close` | src/sync_collection/synchronized_queue.rs:25-28 | `close` sets the flag to true and leaves the items as they were |
| `SyncCollection.SynchronizedQueue.Push` | src/sync_collection/synchronized_queue.rs:34-37 | `push` puts the item at the front and keeps the other items in order. The flag is unchanged. The item is accepted on a closed queue too |
| `SyncCollection.SynchronizedQueue.Pop` | src/sync_collection/synchronized_queue.rs:39-42 | `pop` returns `None` exactly when the queue is empty, and then changes nothing. Otherwise it removes and returns the back item and keeps the rest in order. The flag is unchanged |
| `SyncCollection.SynchronizedQueue.PopWait` | src/sync_collection/synchronized_queue.rs:45-50 | `pop_wait` is callable only when the queue is non-empty or closed. It returns the back item whenever there is one, closed or not. It returns `None` only on an empty, closed queue. The flag is unchanged |
| `SyncCollection.Init` | src/sync_collection/synchronized_queue.rs:18-23 | plain definition of the state `new` builds (empty deque, flag unset). Its contract is the `ensures` of `SynchronizedQueue.constructor` |
| `SyncCollection.PushStep` | src/sync_collection/synchronized_queue.rs:34-37 | plain definition of `push_front` on the state. Its contract is the `ensures` of `SynchronizedQueue.Push` |
| `SyncCollection.CloseStep` | src/sync_collection/synchronized_queue.rs:25-28 | plain definition of the store of `true` into the flag. Its contract is the `ensures` of `SynchronizedQueue.Close` |
| `SyncCollection.CanReturn` | src/sync_collection/synchronized_queue.rs:48 | plain definition of the negated `wait_while` predicate: the deque is non-empty or the flag is set. It is the precondition of `PopWaitStep` and `SynchronizedQueue.PopWait` |
| `SyncCollection.Step` | src/sync_collection/synchronized_queue.rs:25-50 | one operation by any thread: the flag ends up set exactly when it was set before or the operation is `close`. A push puts its item at the front. No other operation adds items |
| `SyncCollection.Run` | src/sync_collection/synchronized_queue.rs:25-50 | plain definition of operations applied one after another. Its facts are `ClosedAfterRun` and `ClosedStaysClosed` |
| `SyncCollection.PopStep` | src/sync_collection/synchronized_queue.rs:39-42 | the value-level pop: no item exactly when the deque is empty. Otherwise the remaining items followed by the returned item give back the old deque. The flag is preserved |
| `SyncCollection.PopWaitStep` | src/sync_collection/synchronized_queue.rs:45-50 | an item beats the closed flag: a non-empty queue yields its oldest item, and "no item" means empty and closed |
| `SyncCollection.Drain` | src/sync_collection/synchronized_queue.rs:39-42 | popping until empty yields every item, from the back of the deque to the front |
| `SyncCollection.PushAll` | src/sync_collection/synchronized_queue.rs:34-37 | pushing `xs` in order leaves `xs` reversed in front of the old items, with the flag unchanged |
| `SyncCollection.DrainAfterPush` | src/sync_collection/synchronized_queue.rs:34-42 | FIFO for one push: the items already queued come out first, then the pushed item |
| `SyncCollection.DrainAfterPushAll` | src/sync_collection/synchronized_queue.rs:34-42 | FIFO: after pushing `xs`, the pops return the old items and then `xs` in push order |
| `SyncCollection.FifoFromEmpty` | src/sync_collection/synchronized_queue.rs:18-42 | pushing v1..vn onto a new queue and popping it empty returns v1..vn |
| `SyncCollection.PushThenPop` | src/sync_collection/synchronized_queue.rs:76-102 | on an empty queue, push then `pop` or `pop_wait` returns the pushed item and leaves the queue empty |
| `SyncCollection.PopIgnoresClosed` | src/sync_collection/synchronized_queue.rs:39-42 | `pop` gives the same result whatever the closed flag is |
| `SyncCollection.CloseIdempotent` | src/sync_collection/synchronized_queue.rs:25-28 | closing twice is the same as closing once, and closing does not touch the items |
| `SyncCollection.ClosedAfterRun` | src/sync_collection/synchronized_queue.rs:18-50 | after any sequence of operations the flag is set exactly when it was set before or a `close` ran. No operation clears it |
| `SyncCollection.ClosedStaysClosed` | src/sync_collection/synchronized_queue.rs:25-28 | a closed queue stays closed whatever runs after it |

## Left out

- `Mutex`, `Condvar`, `notify_one`/`notify_all` and the `AtomicBool` memory orderings are not modelled. They are synchronisation machinery. The blocking of `pop_wait` is modelled only as a precondition on its wake-up condition.
- `SyncCollection.SynchronizedQueue.PopWait`: does not model the waiting itself, or that a waiter is woken by `push`/`close`. These are liveness properties across threads. In the source, `close` (lines 25-27) stores `is_closed` and calls `notify_all` without taking the mutex. A waiter that has just checked the `wait_while` predicate under the lock (line 48), but has not yet parked, can therefore miss that notify and sleep on an empty, closed queue. The one-operation-at-a-time `Step`/`Run` model cannot show this. Its state-level facts still hold: the flag only goes from false to true, and `pop_back` runs under the same lock as the last check of the predicate.
- Lock poisoning (`.lock().unwrap()` panicking) is not modelled. It is a panic path of the Rust runtime, not queue logic.
- `lock_unwrap` is not modelled on its own. It only acquires the lock. The tests use it to read the deque, which the model reads as the `items` field.
- The multithreaded tests (lines 87-128) depend on timing across threads. Only their sequential consequences are stated. `PushThenPop` covers one push followed by one `pop`/`pop_wait` (lines 87-102). `FifoFromEmpty` covers the ten pushes and ten `pop_wait`s of lines 104-128 run without interleaving: every item is delivered, in push order.
- `src/sync_collection/thread_pool.rs` is not part of this model. It spawns scoped worker threads, and its only queue bookkeeping is `submit` forwarding to `push`.
- `src/main.rs` is not part of this model. It is a demo and timing harness.
- `src/sync_collection/executor.rs` is not part of this model. It is a trait declaration with no logic.
- Dropping the queue discards any items still queued. Memory release is not modelled.
