/**
 * `Repository.RunTx` of the storage backends: run the handler functions in
 * order inside one database transaction and report the outcome through
 * `handleTransactionError`. Two shapes exist: the plain one (mysql and
 * internal postgres) where handlers only return an error, and the
 * data-threading one (internal sqlite and both uberfx backends) where each
 * handler also passes a value on and may stop the chain early.
 *
 * The database itself is not modelled: what the handlers do to it is their
 * business. gorm's `Transaction` adds two errors the database may report:
 * the one from `Begin` (`beginErr`), which is returned without calling the
 * callback at all, and the one from the commit (`commitErr`), which is
 * consulted only when the callback returned nil.
 */
module Transactions {
  import opened Wrappers
  import opened Errors
  import opened StoreErrors
  import opened GrpcCodes
  import opened ErrorCodes

  /** `fmt.Errorf("%w - input no handler function", ErrInternal)`. */
  function NoHandlerError(): (r: Error)
    ensures r.tags == {ErrInternal}
    ensures r.msg == "internal error" + " - " + "input no handler function"
  {
    Categorized(ErrInternal, "input no handler function")
  }

  // ---------------------------------------------------------------------
  // Plain handlers
  // ---------------------------------------------------------------------

  /** A handler of the plain shape: `None` is a nil function, `Some(e)` one that returns `e`. */
  type Handler = Option<MaybeError>

  predicate Fails(h: Handler) {
    h.Some? && h.value.Some?
  }

  /** The index of the first handler that returns an error, `|funcs|` when none does. */
  function FirstFailure(funcs: seq<Handler>): (k: nat)
    ensures k <= |funcs|
    ensures k < |funcs| ==> Fails(funcs[k])
    ensures forall j :: 0 <= j < k ==> !Fails(funcs[j])
    decreases |funcs|
  {
    if |funcs| == 0 then 0
    else if Fails(funcs[0]) then 0
    else 1 + FirstFailure(funcs[1..])
  }

  /** The indices below `n` of the non-nil handlers, in increasing order. */
  function NonNil(funcs: seq<Handler>, n: nat): (r: seq<nat>)
    requires n <= |funcs|
    ensures forall j: nat :: j in r <==> j < n && funcs[j].Some?
    ensures forall p, q :: 0 <= p < q < |r| ==> r[p] < r[q]
  {
    if n == 0 then []
    else
      var r := NonNil(funcs, n - 1);
      assert forall p :: 0 <= p < |r| ==> r[p] in r;
      r + (if funcs[n - 1].Some? then [n - 1] else [])
  }

  /** The handlers the loop calls: every non-nil one up to and including the first failing one. */
  function Called(funcs: seq<Handler>): seq<nat> {
    var k := FirstFailure(funcs);
    NonNil(funcs, if k < |funcs| then k + 1 else k)
  }

  /** What the transaction reports: the first handler error, or else the commit's error. */
  function TxError(funcs: seq<Handler>, commitErr: MaybeError): MaybeError {
    var k := FirstFailure(funcs);
    if k < |funcs| then funcs[k].value else commitErr
  }

  /** What gorm's `Transaction` returns: a failed `Begin` ends it before the callback runs. */
  function TxOutcome(funcs: seq<Handler>, beginErr: MaybeError, commitErr: MaybeError): MaybeError {
    if beginErr.Some? then beginErr else TxError(funcs, commitErr)
  }

  /** The error the plain `RunTx` returns. */
  function RunTxResult(b: Backend, funcs: seq<Handler>, beginErr: MaybeError, commitErr: MaybeError): MaybeError {
    if |funcs| == 0 then Some(NoHandlerError())
    else HandleTransactionError(b, TxOutcome(funcs, beginErr, commitErr))
  }

  /** The callback handed to gorm's `Transaction`: the first handler error, and the handlers it called. */
  method Callback(funcs: seq<Handler>) returns (ferr: MaybeError, ran: seq<nat>)
    ensures ferr == TxError(funcs, None)
    ensures ran == Called(funcs)
  {
    ran := [];
    ferr := None;
    var i := 0;
    while i < |funcs|
      invariant 0 <= i <= FirstFailure(funcs)
      invariant ran == NonNil(funcs, i)
      invariant ferr.None?
    {
      if funcs[i].Some? {
        ran := ran + [i];
        if funcs[i].value.Some? {
          ferr := funcs[i].value;
          return;
        }
      }
      i := i + 1;
    }
  }

  /** The plain `RunTx`: returns the error and the indices of the handlers it called. */
  method RunTx(b: Backend, funcs: seq<Handler>, beginErr: MaybeError, commitErr: MaybeError)
    returns (err: MaybeError, ran: seq<nat>)
    ensures err == RunTxResult(b, funcs, beginErr, commitErr)
    ensures ran == if |funcs| == 0 || beginErr.Some? then [] else Called(funcs)
  {
    if |funcs| == 0 {
      return Some(NoHandlerError()), [];
    }
    if beginErr.Some? {
      return HandleTransactionError(b, beginErr), [];
    }
    var ferr;
    ferr, ran := Callback(funcs);
    var txErr := if ferr.Some? then ferr else commitErr;
    err := HandleTransactionError(b, txErr);
  }

  /** The handlers that run: all non-nil, in order, none failing but possibly the last, stopping at the first failure. */
  lemma CalledShape(funcs: seq<Handler>)
    ensures forall j :: j in Called(funcs) ==> funcs[j].Some?
    ensures forall j :: j in Called(funcs) && j != FirstFailure(funcs) ==> !Fails(funcs[j])
    ensures forall j :: j in Called(funcs) ==> j <= FirstFailure(funcs)
    ensures forall j :: 0 <= j < |funcs| && funcs[j].Some? && j <= FirstFailure(funcs) ==> j in Called(funcs)
  {
  }

  lemma {:induction false} NonNilOfNils(funcs: seq<Handler>, n: nat)
    requires n <= |funcs|
    requires forall j :: 0 <= j < |funcs| ==> funcs[j].None?
    ensures NonNil(funcs, n) == []
  {
    if n > 0 {
      NonNilOfNils(funcs, n - 1);
    }
  }

  /** No handlers: the `ErrInternal` error is returned as is, never categorized. */
  lemma RunTxNoHandlers(b: Backend, beginErr: MaybeError, commitErr: MaybeError)
    ensures RunTxResult(b, [], beginErr, commitErr) == Some(NoHandlerError())
    ensures !IsCategorized(RunTxResult(b, [], beginErr, commitErr))
    ensures HandleError(RunTxResult(b, [], beginErr, commitErr)).value.code == Internal
  {
  }

  /** Only nil handlers: nothing runs and the outcome is the transaction's own. */
  lemma RunTxAllNil(b: Backend, funcs: seq<Handler>, beginErr: MaybeError, commitErr: MaybeError)
    requires |funcs| > 0
    requires forall j :: 0 <= j < |funcs| ==> funcs[j].None?
    ensures Called(funcs) == []
    ensures RunTxResult(b, funcs, beginErr, commitErr)
      == HandleTransactionError(b, if beginErr.Some? then beginErr else commitErr)
  {
    NonNilOfNils(funcs, |funcs|);
  }

  /** Handlers that all succeed, with a clean commit, leave a nil error. */
  lemma RunTxSucceeds(b: Backend, funcs: seq<Handler>)
    requires |funcs| > 0
    requires forall j :: 0 <= j < |funcs| ==> !Fails(funcs[j])
    ensures RunTxResult(b, funcs, None, None) == None
  {
  }

  /** A failed `Begin` is reported, categorized, whatever the handlers would have done. */
  lemma RunTxBeginFails(b: Backend, funcs: seq<Handler>, beginErr: MaybeError, commitErr: MaybeError)
    requires |funcs| > 0 && beginErr.Some?
    ensures RunTxResult(b, funcs, beginErr, commitErr) == HandleTransactionError(b, beginErr)
    ensures RunTxResult(b, funcs, beginErr, commitErr).Some?
  {
  }

  /** Whatever comes back from a non-empty call is nil or categorized, and keeps the failing error's chain. */
  lemma RunTxCategorizes(b: Backend, funcs: seq<Handler>, beginErr: MaybeError, commitErr: MaybeError)
    requires |funcs| > 0
    ensures var r := RunTxResult(b, funcs, beginErr, commitErr);
      && (r.None? <==> TxOutcome(funcs, beginErr, commitErr).None?)
      && (r.Some? ==> IsCategorized(r) && TxOutcome(funcs, beginErr, commitErr).value.tags <= r.value.tags)
  {
    HandleTransactionErrorCategorizes(b, TxOutcome(funcs, beginErr, commitErr));
  }

  /**
   * Through the error middleware, a failed transaction is never reported as
   * `Internal`, not even when the handler failed with `ErrInternal`: the
   * categorization always adds a sentinel that ranks higher.
   */
  lemma TransactionFailureCode(b: Backend, funcs: seq<Handler>, beginErr: MaybeError, commitErr: MaybeError)
    requires |funcs| > 0
    requires TxOutcome(funcs, beginErr, commitErr).Some?
    ensures HandleError(RunTxResult(b, funcs, beginErr, commitErr)).value.code
      in {Canceled, ResourceExhausted, Unavailable, InvalidArgument, NotFound}
  {
    RunTxCategorizes(b, funcs, beginErr, commitErr);
  }

  // ---------------------------------------------------------------------
  // Data-threading handlers
  // ---------------------------------------------------------------------

  /** What a data-threading handler returns: the data passed on, whether to go on, and an error. */
  datatype Step<D> = Step(out: D, cont: bool, err: MaybeError)

  /** A data-threading handler; `None` is a nil function. */
  type DataHandler<!D> = Option<D -> Step<D>>

  /** The callback's loop: the final data and the error the callback returns. */
  function Thread<D>(funcs: seq<DataHandler<D>>, data: D): (D, MaybeError)
    decreases |funcs|
  {
    if |funcs| == 0 then (data, None)
    else if funcs[0].None? then Thread(funcs[1..], data)
    else
      var s := funcs[0].value(data);
      if s.err.Some? then (s.out, s.err)
      else if !s.cont then (s.out, None)
      else Thread(funcs[1..], s.out)
  }

  /** The data-threading `RunTx`: the last data handed back, and the error. */
  function RunTxDataResult<D>(b: Backend, data: D, funcs: seq<DataHandler<D>>, beginErr: MaybeError, commitErr: MaybeError)
    : (D, MaybeError)
  {
    if |funcs| == 0 then (data, Some(NoHandlerError()))
    else if beginErr.Some? then (data, HandleTransactionError(b, beginErr))
    else
      var (out, ferr) := Thread(funcs, data);
      (out, HandleTransactionError(b, if ferr.Some? then ferr else commitErr))
  }

  method RunTxData<D>(b: Backend, data: D, funcs: seq<DataHandler<D>>, beginErr: MaybeError, commitErr: MaybeError)
    returns (out: D, err: MaybeError)
    ensures (out, err) == RunTxDataResult(b, data, funcs, beginErr, commitErr)
  {
    if |funcs| == 0 {
      return data, Some(NoHandlerError());
    }
    if beginErr.Some? {
      return data, HandleTransactionError(b, beginErr);
    }
    out := data;
    var ferr: MaybeError := None;
    var i := 0;
    while i < |funcs|
      invariant 0 <= i <= |funcs|
      invariant Thread(funcs, data) == Thread(funcs[i..], out)
    {
      if funcs[i].Some? {
        var s := funcs[i].value(out);
        out := s.out;
        if s.err.Some? {
          ferr := s.err;
          break;
        }
        if !s.cont {
          break;
        }
      }
      i := i + 1;
    }
    err := HandleTransactionError(b, if ferr.Some? then ferr else commitErr);
  }

  /** Only nil handlers: the data comes back untouched. */
  lemma {:induction false} ThreadAllNil<D>(funcs: seq<DataHandler<D>>, data: D)
    requires forall j :: 0 <= j < |funcs| ==> funcs[j].None?
    ensures Thread(funcs, data) == (data, None)
    decreases |funcs|
  {
    if |funcs| > 0 {
      ThreadAllNil(funcs[1..], data);
    }
  }

  /** The data handler `k` receives when every non-nil handler before it went on. */
  function InputAt<D>(funcs: seq<DataHandler<D>>, data: D, k: nat): D
    requires k <= |funcs|
    decreases k
  {
    if k == 0 then data
    else
      var d := InputAt(funcs, data, k - 1);
      if funcs[k - 1].None? then d else funcs[k - 1].value(d).out
  }

  /** Non-nil handler `j`, given its threaded input, returns no error and asks to go on. */
  predicate GoesOn<D>(funcs: seq<DataHandler<D>>, data: D, j: nat)
    requires j < |funcs|
  {
    funcs[j].Some? ==> funcs[j].value(InputAt(funcs, data, j)).err.None? && funcs[j].value(InputAt(funcs, data, j)).cont
  }

  /** Handler `k` is the one that ends the chain: every handler before it went on, and it errs or asks to stop. */
  predicate StopsAt<D>(funcs: seq<DataHandler<D>>, data: D, k: nat) {
    && k < |funcs| && funcs[k].Some? && !GoesOn(funcs, data, k)
    && forall j :: 0 <= j < k ==> GoesOn(funcs, data, j)
  }

  /** Up to a handler that goes on, the loop is where the threaded inputs say it is. */
  lemma {:induction false} ThreadReaches<D>(funcs: seq<DataHandler<D>>, rest: seq<DataHandler<D>>, data: D, i: nat)
    requires i <= |funcs|
    requires forall j :: 0 <= j < i ==> GoesOn(funcs, data, j)
    ensures Thread(funcs + rest, data) == Thread((funcs + rest)[i..], InputAt(funcs, data, i))
    decreases i
  {
    if i > 0 {
      ThreadReaches(funcs, rest, data, i - 1);
      var xs := funcs + rest;
      assert GoesOn(funcs, data, i - 1);
      assert |xs[i - 1..]| > 0 && xs[i - 1..][0] == funcs[i - 1];
      assert xs[i - 1..][1..] == xs[i..];
      var d := InputAt(funcs, data, i - 1);
      assert Thread(xs[i - 1..], d) == Thread(xs[i..], InputAt(funcs, data, i));
    }
  }

  /**
   * The handler that errs or asks to stop, wherever it stands and whatever
   * the handlers before it did to the data, hides every later handler: the
   * chain returns its output on its threaded input, and its error.
   */
  lemma ThreadBreakIgnoresRest<D>(funcs: seq<DataHandler<D>>, rest: seq<DataHandler<D>>, data: D, k: nat)
    requires StopsAt(funcs, data, k)
    ensures Thread(funcs + rest, data) == Thread(funcs, data)
    ensures var s := funcs[k].value(InputAt(funcs, data, k));
      Thread(funcs, data) == (s.out, s.err)
  {
    var s := funcs[k].value(InputAt(funcs, data, k));
    ThreadReaches(funcs, rest, data, k);
    ThreadReaches(funcs, [], data, k);
    assert funcs + [] == funcs;
    assert (funcs + rest)[k..][0] == funcs[k] && funcs[k..][0] == funcs[k];
  }

  /** A plain handler seen as a data-threading one that carries no data and always goes on. */
  function Lift(h: Handler): DataHandler<()> {
    if h.None? then None else Some((d: ()) => Step(d, true, h.value))
  }

  function LiftAll(funcs: seq<Handler>): (r: seq<DataHandler<()>>)
    ensures |r| == |funcs|
    ensures forall j :: 0 <= j < |funcs| ==> r[j] == Lift(funcs[j])
  {
    seq(|funcs|, j requires 0 <= j < |funcs| => Lift(funcs[j]))
  }

  lemma {:induction false} ThreadLifted(funcs: seq<Handler>)
    ensures Thread(LiftAll(funcs), ()).1 == TxError(funcs, None)
    decreases |funcs|
  {
    if |funcs| > 0 {
      assert LiftAll(funcs)[1..] == LiftAll(funcs[1..]);
      ThreadLifted(funcs[1..]);
      if !Fails(funcs[0]) {
        assert FirstFailure(funcs) == 1 + FirstFailure(funcs[1..]);
      }
    }
  }

  /** The two shapes agree: the plain `RunTx` is the data-threading one with the handlers lifted. */
  lemma PlainIsThreaded(b: Backend, funcs: seq<Handler>, beginErr: MaybeError, commitErr: MaybeError)
    ensures RunTxResult(b, funcs, beginErr, commitErr) == RunTxDataResult(b, (), LiftAll(funcs), beginErr, commitErr).1
  {
    ThreadLifted(funcs);
  }
}
