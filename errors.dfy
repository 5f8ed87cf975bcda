/**
 * Go errors as the model sees them: the set of sentinel values that
 * `errors.Is` finds in an error's chain, and the text `Error()` returns.
 * A nil `error` is `None`.
 */
module Errors {
  import opened Wrappers

  /** The sentinel errors the core compares against with `errors.Is`. */
  datatype Sentinel =
    // the application's own categories (entities / models packages)
    | ErrDatabase | ErrNotFound | ErrInternal | ErrInvalid | ErrCanceled
    | ErrUnauthorized | ErrTooManyRequests | ErrConflicted | ErrMalformed
    // gorm
    | GormErrInvalidData | GormErrInvalidField | GormErrInvalidValue
    | GormErrInvalidValueOfLength | GormErrRecordNotFound
    // database/sql and context
    | SqlErrNoRows | ContextCanceled

  /** What `Error()` returns for a bare sentinel. */
  function SentinelText(s: Sentinel): string {
    match s
    case ErrDatabase => "database error"
    case ErrNotFound => "not found"
    case ErrInternal => "internal error"
    case ErrInvalid => "invalid input"
    case ErrCanceled => "canceled"
    case ErrUnauthorized => "unauthorized"
    case ErrTooManyRequests => "too many requests"
    case ErrConflicted => "conflicted"
    case ErrMalformed => "malformed"
    case GormErrInvalidData => "unsupported data"
    case GormErrInvalidField => "invalid field"
    case GormErrInvalidValue => "invalid value, should be pointer to struct or slice"
    case GormErrInvalidValueOfLength => "invalid association values, length doesn't match"
    case GormErrRecordNotFound => "record not found"
    case SqlErrNoRows => "sql: no rows in result set"
    case ContextCanceled => "context canceled"
  }

  datatype Error = Error(tags: set<Sentinel>, msg: string)

  /** A Go `error` value; `None` is nil. */
  type MaybeError = Option<Error>

  /** The sentinel itself, as returned by `errors.New`. */
  function New(s: Sentinel): Error {
    Error({s}, SentinelText(s))
  }

  /** `errors.Is(err, s)`: never true of a nil error. */
  predicate Is(err: MaybeError, s: Sentinel) {
    err.Some? && s in err.value.tags
  }

  /** `err.Error()`; the model only asks it of non-nil errors. */
  function Text(err: Error): string {
    err.msg
  }

  /** One piece of an `fmt.Errorf` format: literal text (including `%s` arguments) or a `%w` operand. */
  datatype Piece = Lit(text: string) | W(wrapped: Error)

  function PieceText(p: Piece): string {
    match p
    case Lit(t) => t
    case W(e) => e.msg
  }

  function PieceTags(p: Piece): set<Sentinel> {
    match p
    case Lit(_) => {}
    case W(e) => e.tags
  }

  function PiecesText(ps: seq<Piece>): string
    decreases |ps|
  {
    if |ps| == 0 then "" else PieceText(ps[0]) + PiecesText(ps[1..])
  }

  function PiecesTags(ps: seq<Piece>): set<Sentinel>
    decreases |ps|
  {
    if |ps| == 0 then {} else PieceTags(ps[0]) + PiecesTags(ps[1..])
  }

  /** Every `%w` operand's chain is part of the pieces' chain. */
  lemma {:induction false} WrappedTagsKept(ps: seq<Piece>)
    ensures forall i :: 0 <= i < |ps| && ps[i].W? ==> ps[i].wrapped.tags <= PiecesTags(ps)
    decreases |ps|
  {
    if |ps| > 0 {
      WrappedTagsKept(ps[1..]);
      forall i | 1 <= i < |ps| && ps[i].W?
        ensures ps[i].wrapped.tags <= PiecesTags(ps)
      {
        assert ps[1..][i - 1] == ps[i];
      }
    }
  }

  /**
   * `fmt.Errorf` with `%w` verbs: the text is the pieces in order, and the
   * chain keeps every `%w` operand's chain; a format without operands has an
   * empty chain.
   */
  function Errorf(ps: seq<Piece>): (r: Error)
    ensures forall i :: 0 <= i < |ps| && ps[i].W? ==> ps[i].wrapped.tags <= r.tags
    ensures (forall i :: 0 <= i < |ps| ==> ps[i].Lit?) ==> r.tags == {}
  {
    WrappedTagsKept(ps);
    LiteralsOnly(ps);
    Error(PiecesTags(ps), PiecesText(ps))
  }

  /** A format of literals alone wraps nothing. */
  lemma {:induction false} LiteralsOnly(ps: seq<Piece>)
    ensures (forall i :: 0 <= i < |ps| ==> ps[i].Lit?) ==> PiecesTags(ps) == {}
    decreases |ps|
  {
    if |ps| > 0 {
      LiteralsOnly(ps[1..]);
      if forall i :: 0 <= i < |ps| ==> ps[i].Lit? {
        assert forall i :: 0 <= i < |ps[1..]| ==> ps[1..][i] == ps[i + 1];
      }
    }
  }

  /** Three pieces: the text and the chain of each, in order. */
  lemma ThreePieces(a: Piece, b: Piece, c: Piece)
    ensures PiecesText([a, b, c]) == PieceText(a) + PieceText(b) + PieceText(c)
    ensures PiecesTags([a, b, c]) == PieceTags(a) + PieceTags(b) + PieceTags(c)
  {
    assert [a, b, c][1..] == [b, c] && [b, c][1..] == [c] && [c][1..] == [];
    assert PiecesText([c]) == PieceText(c);
    assert PiecesTags([c]) == PieceTags(c) + PiecesTags([]);
    assert PiecesText([b, c]) == PieceText(b) + PieceText(c);
  }

  /** `errors.Is` on an `fmt.Errorf` result asks each wrapped operand. */
  lemma {:induction false} IsErrorf(ps: seq<Piece>, s: Sentinel)
    ensures Is(Some(Errorf(ps)), s) <==> exists i :: 0 <= i < |ps| && ps[i].W? && s in ps[i].wrapped.tags
    decreases |ps|
  {
    if |ps| > 0 {
      IsErrorf(ps[1..], s);
      if Is(Some(Errorf(ps[1..])), s) {
        var i :| 0 <= i < |ps[1..]| && ps[1..][i].W? && s in ps[1..][i].wrapped.tags;
        assert ps[i + 1] == ps[1..][i];
      }
      forall i | 1 <= i < |ps| && ps[i].W? && s in ps[i].wrapped.tags
        ensures s in PiecesTags(ps[1..])
      {
        assert ps[1..][i - 1] == ps[i];
      }
    }
  }

  /** `fmt.Errorf("<prefix>: %w", err)`: the call sites that add context to an error. */
  function Wrapf(prefix: string, err: Error): (r: Error)
    ensures r.tags == err.tags
    ensures r.msg == prefix + ": " + err.msg
  {
    var ps := [Lit(prefix + ": "), W(err)];
    assert ps[1..][1..] == [];
    assert PiecesText(ps[1..]) == PieceText(ps[1]) && PiecesTags(ps[1..]) == PieceTags(ps[1]);
    Errorf(ps)
  }

  /** `fmt.Errorf("%w - <detail>", sentinel)`: a category with an explanation. */
  function Categorized(s: Sentinel, detail: string): (r: Error)
    ensures r.tags == {s}
    ensures r.msg == SentinelText(s) + " - " + detail
  {
    var ps := [W(New(s)), Lit(" - " + detail)];
    assert ps[1..][1..] == [];
    assert PiecesText(ps[1..]) == PieceText(ps[1]) && PiecesTags(ps[1..]) == PieceTags(ps[1]);
    Errorf(ps)
  }
}
