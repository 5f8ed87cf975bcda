/**
 * The buffered logging worker: messages are appended to a buffer under a
 * lock, a full buffer wakes the worker through a one-slot channel, and a
 * flush hands the whole buffer to the message repository, putting it back
 * in front of newer messages when the write fails.
 *
 * Each method is one atomic step under the lock. `flush` is split at the
 * repository call into `BeginFlush` and `EndFlush`, so that injections (and
 * a second flush, as when `Stop` races the worker) can run while a batch is
 * being written. The repository's and the client's answers are inputs.
 */
module LoggingWorkers {
  import opened Wrappers
  import opened Errors
  import opened Entities

  /** The batches still being written, in the order they were taken. */
  function Flatten(batches: seq<seq<Message>>): seq<Message>
    decreases |batches|
  {
    if |batches| == 0 then [] else Flatten(batches[..|batches| - 1]) + batches[|batches| - 1]
  }

  lemma FlattenAppend(batches: seq<seq<Message>>, b: seq<Message>)
    ensures Flatten(batches + [b]) == Flatten(batches) + b
  {
    assert (batches + [b])[..|batches|] == batches;
  }

  /** Taking any one batch out of the in-flight list removes exactly its messages. */
  lemma {:induction false} FlattenRemove(batches: seq<seq<Message>>, k: nat)
    requires k < |batches|
    ensures multiset(Flatten(batches)) == multiset(Flatten(batches[..k] + batches[k + 1..])) + multiset(batches[k])
    decreases |batches|
  {
    var n := |batches| - 1;
    assert Flatten(batches) == Flatten(batches[..n]) + batches[n];
    if k == n {
      assert batches[..k] + batches[k + 1..] == batches[..n];
    } else {
      var init := batches[..n];
      FlattenRemove(init, k);
      var rest := init[..k] + init[k + 1..];
      assert init[k] == batches[k];
      assert batches[..k] + batches[k + 1..] == rest + [batches[n]];
      FlattenAppend(rest, batches[n]);
      calc {
        multiset(Flatten(batches));
        multiset(Flatten(init)) + multiset(batches[n]);
        multiset(Flatten(rest)) + multiset(batches[k]) + multiset(batches[n]);
        multiset(Flatten(rest + [batches[n]])) + multiset(batches[k]);
      }
    }
  }

  /**
   * How many of `n` injections into a buffer of `len0` messages signal: the
   * `i`-th one does when the buffer then holds at least `capacity`.
   */
  function SignalsFor(len0: nat, n: nat, capacity: int): nat
    decreases n
  {
    if n == 0 then 0 else SignalsFor(len0, n - 1, capacity) + (if len0 + n >= capacity then 1 else 0)
  }

  /** Only the injections that bring the buffer to `capacity` or beyond signal. */
  lemma {:induction false} SignalsForCount(len0: nat, n: nat, capacity: int)
    ensures SignalsFor(len0, n, capacity) ==
      if len0 + 1 >= capacity then n
      else if len0 + n < capacity then 0
      else len0 + n - capacity + 1
    decreases n
  {
    if n > 0 {
      SignalsForCount(len0, n - 1, capacity);
    }
  }

  /** Counting the first injection on its own. */
  lemma SignalsForFront(len0: nat, n: nat, capacity: int)
    requires n > 0
    ensures SignalsFor(len0, n, capacity) == (if len0 + 1 >= capacity then 1 else 0) + SignalsFor(len0 + 1, n - 1, capacity)
  {
    SignalsForCount(len0, n, capacity);
    SignalsForCount(len0 + 1, n - 1, capacity);
  }

  /** Appending one message to both the injected messages and the buffer keeps both accounts. */
  lemma AppendKeeps(injected: seq<Message>, written: seq<Message>, others: seq<Message>, buffer: seq<Message>, msg: Message)
    ensures multiset(injected) == multiset(written) + multiset(others) + multiset(buffer) ==>
      multiset(injected + [msg]) == multiset(written) + multiset(others) + multiset(buffer + [msg])
    ensures injected == written + others + buffer ==> injected + [msg] == written + others + (buffer + [msg])
  {
  }

  /** A lone in-flight batch is all there is in flight. */
  lemma OnlyBatch(batches: seq<seq<Message>>, k: nat)
    requires |batches| <= 1 && k < |batches|
    ensures Flatten(batches) == batches[k]
    ensures batches[..k] + batches[k + 1..] == [] && Flatten([]) == []
  {
    assert k == 0 && |batches| == 1;
    assert batches[..0] == [] && batches[1..] == [];
    assert Flatten(batches) == Flatten(batches[..0]) + batches[0];
  }

  /** Writing a batch or putting it in front of the buffer both keep every message accounted for, in order too. */
  lemma RequeueOrWrite(injected: seq<Message>, written: seq<Message>, others: seq<Message>, tmp: seq<Message>, buffer: seq<Message>)
    ensures multiset(injected) == multiset(written) + (multiset(others) + multiset(tmp)) + multiset(buffer) ==>
      && multiset(injected) == multiset(written + tmp) + multiset(others) + multiset(buffer)
      && multiset(injected) == multiset(written) + multiset(others) + multiset(tmp + buffer)
    ensures others == [] && injected == written + tmp + buffer ==>
      && injected == (written + tmp) + others + buffer
      && injected == written + others + (tmp + buffer)
  {
  }

  /** What the worker's `select` picks. */
  datatype Event = Done | Tick | Signal

  class LoggingWorker {
    /** `BufferCapacity`. */
    const capacity: int
    /** Whether a client was given (`Send` on a nil client panics). */
    const hasClient: bool
    var buffer: seq<Message>
    /** The one-slot `signalChan` holds a wake-up. */
    var signalPending: bool
    /** `signalChan` has been closed by `Stop`. */
    var closed: bool
    /** `cancelFunc` has run: the worker's `Done` case is ready. */
    var cancelled: bool

    /** Every message injected, in order. */
    ghost var injected: seq<Message>
    /** The batches written successfully, concatenated in completion order. */
    ghost var written: seq<Message>
    /** The batches taken by flushes whose write has not returned yet. */
    ghost var inFlight: seq<seq<Message>>
    /** Wake-ups sent so far. */
    ghost var signals: nat

    /** Nothing is lost or duplicated: each injected message is written, being written, or buffered. */
    ghost predicate Valid()
      reads this
    {
      multiset(injected) == multiset(written) + multiset(Flatten(inFlight)) + multiset(buffer)
    }

    /** With at most one flush in flight, the same holds in injection order. */
    ghost predicate InOrder()
      reads this
    {
      |inFlight| <= 1 && injected == written + Flatten(inFlight) + buffer
    }

    /** `NewLoggingWorker`: an empty buffer, an empty signal slot, nothing closed or cancelled. */
    constructor (capacity: int, hasClient: bool)
      requires capacity >= 0
      ensures this.capacity == capacity && this.hasClient == hasClient
      ensures buffer == [] && !signalPending && !closed && !cancelled
      ensures injected == [] && written == [] && inFlight == [] && signals == 0
      ensures Valid() && InOrder()
    {
      this.capacity := capacity;
      this.hasClient := hasClient;
      buffer := [];
      signalPending := false;
      closed := false;
      cancelled := false;
      injected := [];
      written := [];
      inFlight := [];
      signals := 0;
    }

    /** A full buffer must signal; the send would block on a pending wake-up and panic on a closed channel. */
    predicate CanInject()
      reads this
    {
      |buffer| + 1 >= capacity ==> !signalPending && !closed
    }

    /** `Inject`: append, and signal when the buffer has reached its capacity. */
    method Inject(msg: Message)
      requires Valid() && CanInject()
      modifies this`buffer, this`signalPending, this`injected, this`signals
      ensures buffer == old(buffer) + [msg] && injected == old(injected) + [msg]
      ensures signalPending == (old(signalPending) || |buffer| >= capacity)
      ensures signals == old(signals) + (if |buffer| >= capacity then 1 else 0)
      ensures Valid() && (old(InOrder()) ==> InOrder())
    {
      AppendKeeps(injected, written, Flatten(inFlight), buffer, msg);
      buffer := buffer + [msg];
      injected := injected + [msg];
      if |buffer| >= capacity {
        signalPending := true;
        signals := signals + 1;
      }
    }

    /**
     * `Inject` called once per message, in order, without the worker taking
     * a turn in between, as long as the buffer does not pass `capacity`:
     * the wake-ups raised are those `SignalsFor` counts, which is one
     * exactly when the last message fills the buffer.
     */
    method InjectAll(msgs: seq<Message>)
      requires Valid() && !signalPending && !closed && |buffer| + |msgs| <= capacity
      modifies this`buffer, this`signalPending, this`injected, this`signals
      ensures buffer == old(buffer) + msgs && injected == old(injected) + msgs
      ensures signals == old(signals) + SignalsFor(|old(buffer)|, |msgs|, capacity)
      ensures signals == old(signals) + (if |msgs| > 0 && |old(buffer)| + |msgs| == capacity then 1 else 0)
      ensures signalPending <==> |msgs| > 0 && |old(buffer)| + |msgs| == capacity
      ensures Valid() && (old(InOrder()) ==> InOrder())
      decreases |msgs|
    {
      if |msgs| == 0 {
        return;
      }
      ghost var len0 := |buffer|;
      Inject(msgs[0]);
      if |msgs| > 1 {
        InjectAll(msgs[1..]);
      }
      assert [msgs[0]] + msgs[1..] == msgs;
      SignalsForFront(len0, |msgs|, capacity);
    }

    /**
     * The first half of `flush`: an empty buffer ends it with no write;
     * otherwise the buffer is swapped for an empty one and its old contents
     * become the batch to write.
     */
    method BeginFlush() returns (batch: Option<seq<Message>>)
      requires Valid()
      modifies this`buffer, this`inFlight
      ensures old(buffer) == [] ==> batch.None? && buffer == [] && inFlight == old(inFlight)
      ensures old(buffer) != [] ==> batch == Some(old(buffer)) && buffer == [] && inFlight == old(inFlight) + [old(buffer)]
      ensures Valid() && (old(InOrder()) && old(inFlight) == [] ==> InOrder())
    {
      if |buffer| == 0 {
        return None;
      }
      var tmp := buffer;
      buffer := [];
      FlattenAppend(inFlight, tmp);
      inFlight := inFlight + [tmp];
      batch := Some(tmp);
    }

    /**
     * The second half of `flush`, once `CreateMany` has answered `writeErr`
     * for batch `k`: a written batch is done; a failed one goes back in
     * front of whatever was injected meanwhile, and the error is returned.
     */
    method EndFlush(tmp: seq<Message>, ghost k: nat, writeErr: MaybeError) returns (err: MaybeError)
      requires Valid() && k < |inFlight| && inFlight[k] == tmp
      modifies this`buffer, this`inFlight, this`written
      ensures inFlight == old(inFlight[..k] + inFlight[k + 1..])
      ensures writeErr.None? ==> err.None? && written == old(written) + tmp && buffer == old(buffer)
      ensures writeErr.Some? ==> err == writeErr && written == old(written) && buffer == tmp + old(buffer)
      ensures Valid() && (old(InOrder()) ==> InOrder())
    {
      FlattenRemove(inFlight, k);
      ghost var wasInOrder := InOrder();
      ghost var rest := inFlight[..k] + inFlight[k + 1..];
      if wasInOrder {
        OnlyBatch(inFlight, k);
      }
      RequeueOrWrite(injected, written, Flatten(rest), tmp, buffer);
      inFlight := rest;
      if writeErr.Some? {
        buffer := tmp + buffer;
        return writeErr;
      }
      written := written + tmp;
      err := None;
    }

    /**
     * `flush` with nothing interleaved (the steps of `BeginFlush` and then
     * `EndFlush`, with no batch left in flight in between): the batch handed
     * to `CreateMany` (`None` when it is not called) and the error returned.
     */
    method Flush(writeErr: MaybeError) returns (err: MaybeError, batch: Option<seq<Message>>)
      requires Valid()
      modifies this`buffer, this`written
      ensures inFlight == old(inFlight)
      ensures old(buffer) == [] ==> err.None? && batch.None? && buffer == [] && written == old(written)
      ensures old(buffer) != [] ==> batch == Some(old(buffer))
      ensures old(buffer) != [] && writeErr.None? ==> err.None? && buffer == [] && written == old(written) + old(buffer)
      ensures old(buffer) != [] && writeErr.Some? ==> err == writeErr && buffer == old(buffer) && written == old(written)
      ensures Valid() && (old(InOrder()) && old(inFlight) == [] ==> InOrder())
    {
      if |buffer| == 0 {
        return None, None;
      }
      var tmp := buffer;
      buffer := [];
      batch := Some(tmp);
      if writeErr.Some? {
        assert tmp + buffer == tmp;
        buffer := tmp + buffer;
        return writeErr, batch;
      }
      RequeueOrWrite(injected, written, Flatten(inFlight), tmp, []);
      written := written + tmp;
      err := None;
    }

    /**
     * One turn of `worker`'s `select`: `Done` ends the loop; a tick or a
     * wake-up flushes (its error is only logged). A closed channel is always
     * ready to receive, so after `Stop` the `Signal` case can be taken again
     * and again.
     */
    method WorkerStep(ev: Event, writeErr: MaybeError) returns (exit: bool, err: MaybeError, batch: Option<seq<Message>>)
      requires Valid()
      requires ev == Done ==> cancelled
      requires ev == Signal ==> signalPending || closed
      modifies this`buffer, this`inFlight, this`written, this`signalPending
      ensures exit <==> ev == Done
      ensures ev == Done ==> err.None? && batch.None? && buffer == old(buffer) && written == old(written)
      ensures signalPending == (old(signalPending) && ev != Signal)
      ensures ev != Done ==> batch == (if old(buffer) == [] then None else Some(old(buffer)))
      ensures ev != Done && old(buffer) == [] ==> err.None? && buffer == [] && written == old(written)
      ensures ev != Done && old(buffer) != [] ==>
        if writeErr.None? then err.None? && buffer == [] && written == old(written) + old(buffer)
        else err == writeErr && buffer == old(buffer) && written == old(written)
      ensures inFlight == old(inFlight)
      ensures Valid() && (old(InOrder()) && old(inFlight) == [] ==> InOrder())
    {
      if ev == Done {
        return true, None, None;
      }
      if ev == Signal {
        signalPending := false;
      }
      err, batch := Flush(writeErr);
      exit := false;
    }

    /**
     * `Stop`: close the signal channel, flush once more, and cancel the
     * worker only when that flush succeeded.
     */
    method Stop(writeErr: MaybeError) returns (err: MaybeError)
      requires Valid() && !closed
      modifies this`closed, this`cancelled, this`buffer, this`inFlight, this`written
      ensures closed && inFlight == old(inFlight)
      ensures old(buffer) == [] || writeErr.None? ==> err.None? && cancelled && buffer == [] && written == old(written) + old(buffer)
      ensures old(buffer) != [] && writeErr.Some? ==>
        && err == Some(Wrapf("failed to flush buffer on stop", writeErr.value))
        && cancelled == old(cancelled) && buffer == old(buffer) && written == old(written)
      ensures Valid() && (old(InOrder()) && old(inFlight) == [] ==> InOrder())
    {
      closed := true;
      var ferr, _ := Flush(writeErr);
      if ferr.Some? {
        return Some(Wrapf("failed to flush buffer on stop", ferr.value));
      }
      cancelled := true;
      err := None;
    }

    /** `LogAndSend`: buffer the message, then send it; only the send's failure is reported. */
    method LogAndSend(msg: Message, sendErr: MaybeError) returns (err: MaybeError)
      requires Valid() && CanInject() && hasClient
      modifies this`buffer, this`signalPending, this`injected, this`signals
      ensures buffer == old(buffer) + [msg] && injected == old(injected) + [msg]
      ensures signalPending == (old(signalPending) || |buffer| >= capacity)
      ensures signals == old(signals) + (if |buffer| >= capacity then 1 else 0)
      ensures err.None? <==> sendErr.None?
      ensures sendErr.Some? ==> err == Some(Wrapf("failed to send message", sendErr.value))
      ensures Valid() && (old(InOrder()) ==> InOrder())
    {
      Inject(msg);
      if sendErr.Some? {
        return Some(Wrapf("failed to send message", sendErr.value));
      }
      err := None;
    }
  }

  /**
   * A new worker given `capacity` messages: the first `capacity - 1`
   * injections leave the wake-up slot empty, and the `capacity`-th fills it,
   * so the wake-up can be received; exactly one is raised.
   */
  method CapacityInjectionsSignalOnce(capacity: nat, msgs: seq<Message>) returns (w: LoggingWorker, pendingBefore: bool)
    requires capacity >= 1 && |msgs| == capacity
    ensures fresh(w) && w.Valid() && w.InOrder()
    ensures !pendingBefore && w.signalPending && w.signals == 1
    ensures w.buffer == msgs && w.injected == msgs && w.written == []
  {
    w := new LoggingWorker(capacity, false);
    w.InjectAll(msgs[..capacity - 1]);
    pendingBefore := w.signalPending;
    w.InjectAll(msgs[capacity - 1..]);
    assert msgs[..capacity - 1] + msgs[capacity - 1..] == msgs;
  }

  /** Ordered conservation implies the multiset one. */
  lemma InOrderIsValid(injected: seq<Message>, written: seq<Message>, inFlight: seq<seq<Message>>, buffer: seq<Message>)
    requires injected == written + Flatten(inFlight) + buffer
    ensures multiset(injected) == multiset(written) + multiset(Flatten(inFlight)) + multiset(buffer)
  {
  }
}
