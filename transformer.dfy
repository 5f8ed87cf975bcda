/**
 * `ExtendedDataTransformer`: the element transformer of an entity type,
 * lifted to slices. Each of the eight variants walks its input in order,
 * stops at the first element error with a nil result, and otherwise
 * collects one output per input element.
 *
 * A Go slice is `Option<seq<X>>` (a nil slice is `None`), a pointer is
 * `Option<X>`. An element transformer returns a possibly nil pointer and
 * an error.
 */
module Transformer {
  import opened Wrappers
  import opened Errors

  /** A nil-able slice. */
  type Slice<X> = Option<seq<X>>

  /** What an element transformer returns: `(*X, error)`. */
  datatype Ret<X> = Ret(val: Option<X>, err: MaybeError)

  /** `DataTransformer[T, E]`: data (row or protobuf) `T` to entity `E` and back. */
  datatype DataTransformer<!T, !E> = DataTransformer(
    toEntity: Option<T> -> Ret<E>,
    fromEntity: Option<E> -> Ret<T>)

  /** `NewExtendedDataTransformer`: the extension only wraps the element transformer. */
  function NewExtendedDataTransformer<T, E>(t: DataTransformer<T, E>): (r: DataTransformer<T, E>)
    ensures r.toEntity == t.toEntity && r.fromEntity == t.fromEntity
  {
    t
  }

  /** The instance variants hand each element over by address: the transformer sees a non-nil pointer. */
  function OnInstance<A, B>(f: Option<A> -> Ret<B>): A -> Ret<B> {
    a => f(Some(a))
  }

  /** The index of the first element whose transform errs, `|xs|` when none does. */
  function FirstError<A, B>(f: A -> Ret<B>, xs: seq<A>): (k: nat)
    ensures k <= |xs|
    ensures k < |xs| ==> f(xs[k]).err.Some?
    ensures forall j :: 0 <= j < k ==> f(xs[j]).err.None?
    decreases |xs|
  {
    if |xs| == 0 then 0
    else if f(xs[0]).err.Some? then 0
    else 1 + FirstError(f, xs[1..])
  }

  /** The outcome of a pointer-output variant. */
  function ConvertPointers<A, B>(f: A -> Ret<B>, xs: Slice<A>): (Slice<Option<B>>, MaybeError) {
    if xs.None? then (None, None)
    else
      var s := xs.value;
      var k := FirstError(f, s);
      if k < |s| then (None, f(s[k]).err)
      else (Some(seq(|s|, i requires 0 <= i < |s| => f(s[i]).val)), None)
  }

  /**
   * The instance-output variants dereference every result they keep: each
   * element transformed before the first error must come back non-nil.
   */
  predicate DerefSafe<A, B>(f: A -> Ret<B>, xs: Slice<A>) {
    xs.Some? ==> forall j :: 0 <= j < FirstError(f, xs.value) ==> f(xs.value[j]).val.Some?
  }

  /** The outcome of an instance-output variant. */
  function ConvertInstances<A, B>(f: A -> Ret<B>, xs: Slice<A>): (Slice<B>, MaybeError)
    requires DerefSafe(f, xs)
  {
    if xs.None? then (None, None)
    else
      var s := xs.value;
      var k := FirstError(f, s);
      if k < |s| then (None, f(s[k]).err)
      else (Some(seq(|s|, i requires 0 <= i < |s| => f(s[i]).val.value)), None)
  }

  /** The loop shared by the pointer-output variants. */
  method MapPointers<A, B>(f: A -> Ret<B>, xs: Slice<A>) returns (out: Slice<Option<B>>, err: MaybeError)
    ensures (out, err) == ConvertPointers(f, xs)
  {
    if xs.None? {
      return None, None;
    }
    var s := xs.value;
    var acc: seq<Option<B>> := [];
    for i := 0 to |s|
      invariant i <= FirstError(f, s)
      invariant |acc| == i
      invariant forall j :: 0 <= j < i ==> acc[j] == f(s[j]).val
    {
      var r := f(s[i]);
      if r.err.Some? {
        return None, r.err;
      }
      acc := acc + [r.val];
    }
    assert acc == seq(|s|, i requires 0 <= i < |s| => f(s[i]).val);
    return Some(acc), None;
  }

  /** The loop shared by the instance-output variants; `*data` needs a non-nil result. */
  method MapInstances<A, B>(f: A -> Ret<B>, xs: Slice<A>) returns (out: Slice<B>, err: MaybeError)
    requires DerefSafe(f, xs)
    ensures (out, err) == ConvertInstances(f, xs)
  {
    if xs.None? {
      return None, None;
    }
    var s := xs.value;
    var acc: seq<B> := [];
    for i := 0 to |s|
      invariant i <= FirstError(f, s)
      invariant |acc| == i
      invariant forall j :: 0 <= j < i ==> f(s[j]).val.Some? && acc[j] == f(s[j]).val.value
    {
      var r := f(s[i]);
      if r.err.Some? {
        return None, r.err;
      }
      acc := acc + [r.val.value];
    }
    assert acc == seq(|s|, i requires 0 <= i < |s| => f(s[i]).val.value);
    return Some(acc), None;
  }

  // The eight variants: From/To direction, instance (I) or pointer (P) input and output.

  method FromEntityArrayI2I<T, E>(t: DataTransformer<T, E>, entities: Slice<E>) returns (data: Slice<T>, err: MaybeError)
    requires DerefSafe(OnInstance(t.fromEntity), entities)
    ensures (data, err) == ConvertInstances(OnInstance(t.fromEntity), entities)
  {
    data, err := MapInstances(OnInstance(t.fromEntity), entities);
  }

  method FromEntityArrayI2P<T, E>(t: DataTransformer<T, E>, entities: Slice<E>) returns (data: Slice<Option<T>>, err: MaybeError)
    ensures (data, err) == ConvertPointers(OnInstance(t.fromEntity), entities)
  {
    data, err := MapPointers(OnInstance(t.fromEntity), entities);
  }

  method FromEntityArrayP2I<T, E>(t: DataTransformer<T, E>, entities: Slice<Option<E>>) returns (data: Slice<T>, err: MaybeError)
    requires DerefSafe(t.fromEntity, entities)
    ensures (data, err) == ConvertInstances(t.fromEntity, entities)
  {
    data, err := MapInstances(t.fromEntity, entities);
  }

  method FromEntityArrayP2P<T, E>(t: DataTransformer<T, E>, entities: Slice<Option<E>>) returns (data: Slice<Option<T>>, err: MaybeError)
    ensures (data, err) == ConvertPointers(t.fromEntity, entities)
  {
    data, err := MapPointers(t.fromEntity, entities);
  }

  method ToEntityArrayI2I<T, E>(t: DataTransformer<T, E>, dataArray: Slice<T>) returns (entities: Slice<E>, err: MaybeError)
    requires DerefSafe(OnInstance(t.toEntity), dataArray)
    ensures (entities, err) == ConvertInstances(OnInstance(t.toEntity), dataArray)
  {
    entities, err := MapInstances(OnInstance(t.toEntity), dataArray);
  }

  method ToEntityArrayI2P<T, E>(t: DataTransformer<T, E>, dataArray: Slice<T>) returns (entities: Slice<Option<E>>, err: MaybeError)
    ensures (entities, err) == ConvertPointers(OnInstance(t.toEntity), dataArray)
  {
    entities, err := MapPointers(OnInstance(t.toEntity), dataArray);
  }

  method ToEntityArrayP2I<T, E>(t: DataTransformer<T, E>, dataArray: Slice<Option<T>>) returns (entities: Slice<E>, err: MaybeError)
    requires DerefSafe(t.toEntity, dataArray)
    ensures (entities, err) == ConvertInstances(t.toEntity, dataArray)
  {
    entities, err := MapInstances(t.toEntity, dataArray);
  }

  method ToEntityArrayP2P<T, E>(t: DataTransformer<T, E>, dataArray: Slice<Option<T>>) returns (entities: Slice<Option<E>>, err: MaybeError)
    ensures (entities, err) == ConvertPointers(t.toEntity, dataArray)
  {
    entities, err := MapPointers(t.toEntity, dataArray);
  }

  // Properties of the two outcomes.

  /** Success: one output per input, in order, each the element's own transform. */
  lemma ConvertSuccess<A, B>(f: A -> Ret<B>, xs: Slice<A>)
    requires xs.Some? && FirstError(f, xs.value) == |xs.value|
    ensures var (out, err) := ConvertPointers(f, xs);
      && err.None? && out.Some? && |out.value| == |xs.value|
      && forall i :: 0 <= i < |xs.value| ==> out.value[i] == f(xs.value[i]).val
    ensures DerefSafe(f, xs) ==> var (out, err) := ConvertInstances(f, xs);
      && err.None? && out.Some? && |out.value| == |xs.value|
      && forall i :: 0 <= i < |xs.value| ==> Some(out.value[i]) == f(xs.value[i]).val
  {
  }

  /** An element error: a nil slice and that element's error. */
  lemma ConvertFailure<A, B>(f: A -> Ret<B>, xs: seq<A>, k: nat)
    requires k < |xs| && f(xs[k]).err.Some?
    requires forall j :: 0 <= j < k ==> f(xs[j]).err.None?
    ensures ConvertPointers(f, Some(xs)) == (None, f(xs[k]).err)
    ensures DerefSafe(f, Some(xs)) ==> ConvertInstances(f, Some(xs)) == (None, f(xs[k]).err)
  {
    FirstErrorIs(f, xs, k);
  }

  lemma {:induction false} FirstErrorIs<A, B>(f: A -> Ret<B>, xs: seq<A>, k: nat)
    requires k < |xs| && f(xs[k]).err.Some?
    requires forall j :: 0 <= j < k ==> f(xs[j]).err.None?
    ensures FirstError(f, xs) == k
  {
  }

  /**
   * Nothing after the failing element is transformed: the outcome is the
   * same for any transformer that agrees up to and including it.
   */
  lemma ConvertStopsAtError<A, B>(f: A -> Ret<B>, g: A -> Ret<B>, xs: seq<A>, k: nat)
    requires k < |xs| && f(xs[k]).err.Some?
    requires forall j :: 0 <= j <= k ==> g(xs[j]) == f(xs[j])
    requires forall j :: 0 <= j < k ==> f(xs[j]).err.None?
    ensures ConvertPointers(f, Some(xs)) == ConvertPointers(g, Some(xs))
    ensures DerefSafe(f, Some(xs)) ==>
      && DerefSafe(g, Some(xs))
      && ConvertInstances(f, Some(xs)) == ConvertInstances(g, Some(xs))
  {
    FirstErrorIs(f, xs, k);
    FirstErrorIs(g, xs, k);
  }

  /** A non-nil empty slice stays a non-nil empty slice. */
  lemma ConvertEmpty<A, B>(f: A -> Ret<B>)
    ensures ConvertPointers(f, Some([])) == (Some([]), None)
    ensures ConvertInstances(f, Some([])) == (Some([]), None)
  {
    var none: seq<A> := [];
    assert |ConvertPointers(f, Some(none)).0.value| == 0;
    assert |ConvertInstances(f, Some(none)).0.value| == 0;
  }

  /** A nil slice stays nil, with no error, in every variant. */
  lemma ConvertNil<A, B>(f: A -> Ret<B>)
    ensures ConvertPointers(f, None) == (None, None)
    ensures ConvertInstances(f, None) == (None, None)
  {
  }

  /**
   * When the element transformers invert each other and never fail,
   * `FromEntityArray_I2I(ToEntityArray_I2I(xs)) == xs`.
   */
  lemma InstancesRoundTrip<T, E>(t: DataTransformer<T, E>, xs: seq<T>)
    requires forall x :: t.toEntity(Some(x)).err.None? && t.toEntity(Some(x)).val.Some?
    requires forall x :: t.fromEntity(t.toEntity(Some(x)).val) == Ret(Some(x), None)
    ensures DerefSafe(OnInstance(t.toEntity), Some(xs))
    ensures var (es, err) := ConvertInstances(OnInstance(t.toEntity), Some(xs));
      && err.None? && DerefSafe(OnInstance(t.fromEntity), es)
      && ConvertInstances(OnInstance(t.fromEntity), es) == (Some(xs), None)
  {
    var to := OnInstance(t.toEntity);
    var from := OnInstance(t.fromEntity);
    NoErrors(to, xs);
    var es := seq(|xs|, i requires 0 <= i < |xs| => to(xs[i]).val.value);
    assert ConvertInstances(to, Some(xs)) == (Some(es), None);
    assert forall i :: 0 <= i < |xs| ==> from(es[i]) == Ret(Some(xs[i]), None);
    NoErrors(from, es);
    assert ConvertInstances(from, Some(es)).0.value == xs;
  }

  lemma NoErrors<A, B>(f: A -> Ret<B>, xs: seq<A>)
    requires forall i :: 0 <= i < |xs| ==> f(xs[i]).err.None?
    ensures FirstError(f, xs) == |xs|
  {
  }
}
