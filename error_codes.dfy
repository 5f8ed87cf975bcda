/** The gRPC error-mapping middleware: application sentinels become status codes. */
module ErrorCodes {
  import opened Wrappers
  import opened Errors
  import opened GrpcCodes

  /** `HandleError`: a `switch` over `errors.Is`, the first matching case wins. */
  function HandleError(err: MaybeError): (r: Option<Status>)
    ensures r.None? <==> err.None?
    ensures r.Some? ==> r.value.message == Text(err.value)
  {
    if err.None? then None
    else
      var errString := Text(err.value);
      if Is(err, ErrCanceled) then Some(Status(Canceled, errString))
      else if Is(err, ErrTooManyRequests) then Some(Status(ResourceExhausted, errString))
      else if Is(err, ErrDatabase) then Some(Status(Unavailable, errString))
      else if Is(err, ErrInvalid) then Some(Status(InvalidArgument, errString))
      else if Is(err, ErrNotFound) then Some(Status(NotFound, errString))
      else if Is(err, ErrUnauthorized) then Some(Status(Unauthenticated, errString))
      else if Is(err, ErrInternal) then Some(Status(Internal, errString))
      else Some(Status(Unknown, errString))
  }

  /** The same mapping written as a precedence table, highest priority first. */
  const Precedence: seq<(Sentinel, Code)> := [
    (ErrCanceled, Canceled),
    (ErrTooManyRequests, ResourceExhausted),
    (ErrDatabase, Unavailable),
    (ErrInvalid, InvalidArgument),
    (ErrNotFound, NotFound),
    (ErrUnauthorized, Unauthenticated),
    (ErrInternal, Internal)
  ]

  /** The code of the first table row whose sentinel is among `tags`; `Unknown` when none is. */
  function FirstMatch(table: seq<(Sentinel, Code)>, tags: set<Sentinel>): Code
    decreases |table|
  {
    if |table| == 0 then Unknown
    else if table[0].0 in tags then table[0].1
    else FirstMatch(table[1..], tags)
  }

  /** Row `k` decides when its sentinel is present and no earlier one is. */
  lemma {:induction false} FirstMatchAt(table: seq<(Sentinel, Code)>, tags: set<Sentinel>, k: nat)
    requires k < |table| && table[k].0 in tags
    requires forall j :: 0 <= j < k ==> table[j].0 !in tags
    ensures FirstMatch(table, tags) == table[k].1
    decreases k
  {
    if k > 0 {
      assert table[0].0 !in tags;
      FirstMatchAt(table[1..], tags, k - 1);
    }
  }

  /** With no row's sentinel present the table falls through to `Unknown`. */
  lemma {:induction false} FirstMatchNone(table: seq<(Sentinel, Code)>, tags: set<Sentinel>)
    requires forall j :: 0 <= j < |table| ==> table[j].0 !in tags
    ensures FirstMatch(table, tags) == Unknown
    decreases |table|
  {
    if |table| > 0 {
      assert table[0].0 !in tags;
      FirstMatchNone(table[1..], tags);
    }
  }

  /** `HandleError` is exactly the precedence table applied to the error's chain. */
  lemma HandleErrorIsPrecedence(e: Error)
    ensures HandleError(Some(e)) == Some(Status(FirstMatch(Precedence, e.tags), e.msg))
  {
    var t, tags := Precedence, e.tags;
    if ErrCanceled in tags { FirstMatchAt(t, tags, 0); }
    else if ErrTooManyRequests in tags { FirstMatchAt(t, tags, 1); }
    else if ErrDatabase in tags { FirstMatchAt(t, tags, 2); }
    else if ErrInvalid in tags { FirstMatchAt(t, tags, 3); }
    else if ErrNotFound in tags { FirstMatchAt(t, tags, 4); }
    else if ErrUnauthorized in tags { FirstMatchAt(t, tags, 5); }
    else if ErrInternal in tags { FirstMatchAt(t, tags, 6); }
    else { FirstMatchNone(t, tags); }
  }

  /**
   * What a caller sees: the code is row `k`'s exactly when row `k`'s sentinel is
   * present and no higher-priority one is.
   */
  lemma HandleErrorCodeAt(e: Error, k: nat)
    requires k < |Precedence|
    requires Precedence[k].0 in e.tags
    requires forall j :: 0 <= j < k ==> Precedence[j].0 !in e.tags
    ensures HandleError(Some(e)).value.code == Precedence[k].1
  {
    HandleErrorIsPrecedence(e);
    FirstMatchAt(Precedence, e.tags, k);
  }

  /** An error carrying none of the seven sentinels maps to `Unknown`. */
  lemma HandleErrorUnknown(e: Error)
    requires forall j :: 0 <= j < |Precedence| ==> Precedence[j].0 !in e.tags
    ensures HandleError(Some(e)).value.code == Unknown
  {
    HandleErrorIsPrecedence(e);
    FirstMatchNone(Precedence, e.tags);
  }

  /** A database failure that is also tagged invalid is reported as `Unavailable`. */
  lemma DatabaseBeatsInvalid(e: Error)
    requires ErrDatabase in e.tags && ErrInvalid in e.tags
    requires ErrCanceled !in e.tags && ErrTooManyRequests !in e.tags
    ensures HandleError(Some(e)).value.code == Unavailable
  {
  }

  /** The test table: `fmt.Errorf("%w - test err", s)` keeps the sentinel's text and gets its row's code. */
  lemma HandleErrorWrappedSentinel(k: nat)
    requires k < |Precedence|
    ensures HandleError(Some(Categorized(Precedence[k].0, "test err")))
         == Some(Status(Precedence[k].1, SentinelText(Precedence[k].0) + " - " + "test err"))
  {
    var e := Categorized(Precedence[k].0, "test err");
    forall j | 0 <= j < k ensures Precedence[j].0 !in e.tags {
      PrecedenceDistinct(j, k);
    }
    HandleErrorCodeAt(e, k);
  }

  /** The table names each sentinel once. */
  lemma PrecedenceDistinct(i: nat, j: nat)
    requires i < j < |Precedence|
    ensures Precedence[i].0 != Precedence[j].0
  {
  }

  /** `HandleErrorCodes`: the handler's response passes through, only its error is mapped. */
  function HandleErrorCodes<Req, Resp>(handler: Req -> (Resp, MaybeError), req: Req): (r: (Resp, Option<Status>))
    ensures r.0 == handler(req).0
    ensures r.1 == HandleError(handler(req).1)
  {
    var (out, err) := handler(req);
    (out, HandleError(err))
  }
}
