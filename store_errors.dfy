/**
 * Database error classification shared by the storage backends. The five
 * backends carry copies of the same functions; the only difference is the
 * text the invalid-input check looks for, so the backend is a parameter.
 */
module StoreErrors {
  import opened Wrappers
  import opened Errors
  import opened Strings

  /** mysql, internal postgres and internal sqlite, and the two uberfx copies. */
  datatype Backend = Mysql | Postgres | Sqlite | FxPostgres | FxSqlite

  /** The constraint-violation text the invalid-input check looks for. */
  function ConstraintNeedle(b: Backend): string {
    if b == FxSqlite then "constraint failed" else "constraint"
  }

  /** The gorm validation sentinels `isInvalidInputError` accepts. */
  const GormValidation: set<Sentinel> :=
    {GormErrInvalidData, GormErrInvalidField, GormErrInvalidValue, GormErrInvalidValueOfLength}

  /** A chain meets a set of sentinels exactly when it holds one of them. */
  lemma Meets(tags: set<Sentinel>, those: set<Sentinel>)
    ensures tags * those != {} <==> exists x :: x in those && x in tags
  {
    if tags * those != {} {
      var x :| x in tags * those;
    }
    if exists x :: x in those && x in tags {
      var x :| x in those && x in tags;
      assert x in tags * those;
    }
  }

  /**
   * `isInvalidInputError`: nil never is; a gorm validation sentinel anywhere
   * in the chain always is, whatever the text; otherwise only the backend's
   * constraint text decides.
   */
  predicate IsInvalidInputError(b: Backend, err: MaybeError): (r: bool)
    ensures err.None? ==> !r
    ensures err.Some? && err.value.tags * GormValidation != {} ==> r
    ensures err.Some? && err.value.tags * GormValidation == {} ==> (r <==> Contains(Text(err.value), ConstraintNeedle(b)))
  {
    if err.None? then false
    else
      Meets(err.value.tags, GormValidation);
      || Contains(Text(err.value), ConstraintNeedle(b))
      || Is(err, GormErrInvalidData)
      || Is(err, GormErrInvalidField)
      || Is(err, GormErrInvalidValue)
      || Is(err, GormErrInvalidValueOfLength)
  }

  /** `isNotFoundError`: the chain holds either not-found sentinel; the text plays no part. */
  predicate IsNotFoundError(err: MaybeError): (r: bool)
    ensures r <==> err.Some? && err.value.tags * {SqlErrNoRows, GormErrRecordNotFound} != {}
  {
    if err.None? then false
    else
      Meets(err.value.tags, {SqlErrNoRows, GormErrRecordNotFound});
      Is(err, SqlErrNoRows) || Is(err, GormErrRecordNotFound)
  }

  /**
   * `isCanceledError`: nil never is; `context.Canceled` in the chain always
   * is; otherwise only the driver's cancellation text decides.
   */
  predicate IsCanceledError(err: MaybeError): (r: bool)
    ensures err.None? ==> !r
    ensures err.Some? && ContextCanceled in err.value.tags ==> r
    ensures err.Some? && ContextCanceled !in err.value.tags ==> (r <==> Contains(Text(err.value), "operation was canceled"))
  {
    err.Some? && (Is(err, ContextCanceled) || Contains(Text(err.value), "operation was canceled"))
  }

  /** The categories `getEntityError` can produce. */
  const Categories: set<Sentinel> := {ErrCanceled, ErrInvalid, ErrNotFound, ErrDatabase}

  /** The category `getEntityError` picks for a non-nil error. */
  function Category(b: Backend, e: Error): Sentinel {
    if IsCanceledError(Some(e)) then ErrCanceled
    else if IsInvalidInputError(b, Some(e)) then ErrInvalid
    else if IsNotFoundError(Some(e)) then ErrNotFound
    else ErrDatabase
  }

  /** `getEntityError`: nil stays nil, anything else becomes its category's sentinel. */
  function GetEntityError(b: Backend, err: MaybeError): (r: MaybeError)
    ensures r.None? <==> err.None?
    ensures r.Some? ==> r.value.tags <= Categories && |r.value.tags| == 1
  {
    if err.None? then None else Some(New(Category(b, err.value)))
  }

  /**
   * The priority among the checks: canceled beats invalid input, which beats
   * not found; whatever is none of these is a database error.
   */
  lemma GetEntityErrorPriority(b: Backend, e: Error)
    ensures GetEntityError(b, Some(e)) == Some(New(ErrCanceled)) <==> IsCanceledError(Some(e))
    ensures GetEntityError(b, Some(e)) == Some(New(ErrInvalid))
        <==> !IsCanceledError(Some(e)) && IsInvalidInputError(b, Some(e))
    ensures GetEntityError(b, Some(e)) == Some(New(ErrNotFound))
        <==> !IsCanceledError(Some(e)) && !IsInvalidInputError(b, Some(e)) && IsNotFoundError(Some(e))
    ensures GetEntityError(b, Some(e)) == Some(New(ErrDatabase))
        <==> !IsCanceledError(Some(e)) && !IsInvalidInputError(b, Some(e)) && !IsNotFoundError(Some(e))
  {
    assert New(ErrCanceled) != New(ErrInvalid) && New(ErrCanceled) != New(ErrNotFound);
    assert New(ErrCanceled) != New(ErrDatabase) && New(ErrInvalid) != New(ErrNotFound);
    assert New(ErrInvalid) != New(ErrDatabase) && New(ErrNotFound) != New(ErrDatabase);
  }

  /** `GenerateError` (`generateError` in uberfx sqlite): `fmt.Errorf("%w - %s, err: %w", category, errStr, err)`. */
  function GenerateError(b: Backend, errStr: string, err: MaybeError): (r: MaybeError)
    ensures r.None? <==> err.None?
    ensures r.Some? ==> r.value.tags == {Category(b, err.value)} + err.value.tags
    ensures r.Some? ==> r.value.msg == SentinelText(Category(b, err.value)) + " - " + errStr + ", err: " + Text(err.value)
  {
    if err.None? then None
    else
      var ps := [W(GetEntityError(b, err).value), Lit(" - " + errStr + ", err: "), W(err.value)];
      ThreePieces(ps[0], ps[1], ps[2]);
      Some(Errorf(ps))
  }

  /** Whether an error already carries one of the categories (the `eligibleErr` test). */
  predicate IsCategorized(err: MaybeError) {
    Is(err, ErrCanceled) || Is(err, ErrInvalid) || Is(err, ErrNotFound) || Is(err, ErrDatabase)
  }

  /** `handleTransactionError`: categorized errors pass unchanged, the rest are categorized now. */
  function HandleTransactionError(b: Backend, err: MaybeError): (r: MaybeError)
    ensures r.None? <==> err.None?
    ensures IsCategorized(err) ==> r == err
    ensures err.Some? && !IsCategorized(err) ==> r == GenerateError(b, "transaction error", err)
  {
    if err.None? then None
    else if IsCategorized(err) then err
    else GenerateError(b, "transaction error", err)
  }

  /** Whatever `handleTransactionError` returns is nil or categorized, and keeps the original chain. */
  lemma HandleTransactionErrorCategorizes(b: Backend, err: MaybeError)
    ensures var r := HandleTransactionError(b, err);
      (r.None? <==> err.None?) && (r.Some? ==> IsCategorized(r) && err.value.tags <= r.value.tags)
  {
    if err.Some? && !IsCategorized(err) {
      var c := Category(b, err.value);
      assert c in HandleTransactionError(b, err).value.tags;
    }
  }

  /** Applying `handleTransactionError` twice is the same as once. */
  lemma HandleTransactionErrorIdempotent(b: Backend, err: MaybeError)
    ensures HandleTransactionError(b, HandleTransactionError(b, err)) == HandleTransactionError(b, err)
  {
    HandleTransactionErrorCategorizes(b, err);
  }

  /** uberfx sqlite's check is the narrower one: what it calls invalid input, every backend does. */
  lemma FxSqliteInvalidIsInvalidEverywhere(b: Backend, err: MaybeError)
    requires IsInvalidInputError(FxSqlite, err)
    ensures IsInvalidInputError(b, err)
  {
    if Contains(Text(err.value), "constraint failed") {
      assert "constraint failed" == "constraint" + " failed";
      ContainsLongerNeedle(Text(err.value), "constraint", " failed");
    }
  }

  /**
   * A text with "constraint" in it but no 'p' and no 'f' (so neither
   * "operation was canceled" nor "constraint failed") is invalid input for
   * mysql and the postgres and internal sqlite backends, but a database error
   * for uberfx sqlite.
   */
  lemma FxSqliteDivergesOnConstraintText(b: Backend, t: string)
    requires b != FxSqlite && Contains(t, "constraint") && 'p' !in t && 'f' !in t
    ensures GetEntityError(b, Some(Error({}, t))) == Some(New(ErrInvalid))
    ensures GetEntityError(FxSqlite, Some(Error({}, t))) == Some(New(ErrDatabase))
  {
    MissingChar(t, "operation was canceled", 'p');
    MissingChar(t, "constraint failed", 'f');
  }

  /** The text of the backends' divergence example. */
  const ConstraintViolated: string := "xxx constraint violated"

  /** "xxx constraint violated" is such a text. */
  lemma ConstraintViolatedDiverges()
    ensures Contains(ConstraintViolated, "constraint") && 'p' !in ConstraintViolated && 'f' !in ConstraintViolated
  {
    assert OccursAt(ConstraintViolated, "constraint", 4);
  }

  /**
   * An error whose text has no 'p' and no 'a' (so neither
   * "operation was canceled" nor either constraint text) is classified by its
   * sentinels alone.
   */
  lemma ClassifiedByTags(b: Backend, e: Error)
    requires 'p' !in e.msg && 'a' !in e.msg
    ensures !Contains(e.msg, "operation was canceled") && !Contains(e.msg, ConstraintNeedle(b))
    ensures GetEntityError(b, Some(e)) == Some(New(
      if ContextCanceled in e.tags then ErrCanceled
      else if GormErrInvalidData in e.tags || GormErrInvalidField in e.tags
           || GormErrInvalidValue in e.tags || GormErrInvalidValueOfLength in e.tags then ErrInvalid
      else if SqlErrNoRows in e.tags || GormErrRecordNotFound in e.tags then ErrNotFound
      else ErrDatabase))
  {
    MissingChar(e.msg, "operation was canceled", 'p');
    if b == FxSqlite {
      MissingChar(e.msg, "constraint failed", 'a');
    } else {
      MissingChar(e.msg, "constraint", 'a');
    }
  }

  /** The uncategorized `errors.New("error")` of the tests becomes a database error in every backend. */
  lemma PlainErrorIsDatabaseError(b: Backend)
    ensures GetEntityError(b, Some(Error({}, "error"))) == Some(New(ErrDatabase))
  {
    ClassifiedByTags(b, Error({}, "error"));
  }

  /** `context.Canceled` is classified as cancellation by every backend. */
  lemma ContextCanceledIsCanceled(b: Backend)
    ensures GetEntityError(b, Some(New(ContextCanceled))) == Some(New(ErrCanceled))
  {
  }

  /** gorm's `ErrInvalidField` is invalid input in every backend. */
  lemma InvalidFieldIsInvalid(b: Backend)
    ensures GetEntityError(b, Some(New(GormErrInvalidField))) == Some(New(ErrInvalid))
  {
    ShortTextContainsNothing(SentinelText(GormErrInvalidField), "operation was canceled");
  }

  lemma RecordNotFoundTextChars()
    ensures 'p' !in SentinelText(GormErrRecordNotFound) && 'a' !in SentinelText(GormErrRecordNotFound)
  {
  }

  /** gorm's `ErrRecordNotFound` is a missing entity in every backend. */
  lemma RecordNotFoundIsNotFound(b: Backend)
    ensures GetEntityError(b, Some(New(GormErrRecordNotFound))) == Some(New(ErrNotFound))
  {
    RecordNotFoundTextChars();
    ClassifiedByTags(b, New(GormErrRecordNotFound));
  }

  lemma NoRowsTextChars()
    ensures 'p' !in SentinelText(SqlErrNoRows) && 'a' !in SentinelText(SqlErrNoRows)
  {
  }

  /** `sql.ErrNoRows` is a missing entity in every backend. */
  lemma NoRowsIsNotFound(b: Backend)
    ensures GetEntityError(b, Some(New(SqlErrNoRows))) == Some(New(ErrNotFound))
  {
    NoRowsTextChars();
    ClassifiedByTags(b, New(SqlErrNoRows));
  }
}
