/**
 * The users use case: creating a user with its attributes in one
 * transaction, and looking a user up by name. The stores and the UUID
 * generator are inputs: `create` and `createMany` are the stores' answers,
 * and the UUID is the generator's output.
 */
module Users {
  import opened Wrappers
  import opened Errors
  import opened Entities
  import opened Transformer
  import opened StoreErrors
  import opened Transactions
  import opened GrpcCodes
  import opened ErrorCodes

  /** `IUserStore.Create`: the created user (nil-able) and an error. */
  type CreateFn = User -> (Option<User>, MaybeError)

  /** `IUserAttributeStore.CreateMany`: the created attributes (nil-able) and an error. */
  type CreateManyFn = seq<UserAttribute> -> (Slice<UserAttribute>, MaybeError)

  /** What the use case hands back: user, attributes, error. */
  datatype Outcome = Outcome(user: Option<User>, attributes: Slice<UserAttribute>, err: MaybeError)

  /** A zero `entities.UserAttribute`, as `make` fills the slice. */
  const ZeroAttribute: UserAttribute := UserAttribute(0, ZeroTime, ZeroTime, 0, "", "")

  /** Attribute `i` to store: owned by the new user, key and value from the input, every other field zero. */
  function AttributesFor(userId: Uint, attributes: seq<KeyValuePair>): (r: seq<UserAttribute>)
    ensures |r| == |attributes|
    ensures forall i :: 0 <= i < |r| ==>
      r[i] == ZeroAttribute.(userId := userId, key := attributes[i].key, value := attributes[i].value)
  {
    seq(|attributes|, i requires 0 <= i < |attributes| =>
      UserAttribute(0, ZeroTime, ZeroTime, userId, attributes[i].key, attributes[i].value))
  }

  /**
   * `outUser.ID` is read only when attributes are stored; by then the store
   * must have returned a user, or the code dereferences nil.
   */
  predicate CreatedUserPresent(create: CreateFn, user: User, attributes: seq<KeyValuePair>) {
    create(user).1.None? && |attributes| > 0 ==> create(user).0.Some?
  }

  /** The outcome of `createUserImpl`, and the slice handed to `CreateMany` (`None` when it is not called). */
  function CreateUserImplResult(create: CreateFn, createMany: CreateManyFn, user: User, attributes: seq<KeyValuePair>)
    : (Outcome, Option<seq<UserAttribute>>)
    requires CreatedUserPresent(create, user, attributes)
  {
    var (outUser, err) := create(user);
    if err.Some? then (Outcome(None, None, Some(Wrapf("failed to create user", err.value))), None)
    else if |attributes| == 0 then (Outcome(outUser, Some([]), None), None)
    else
      var atts := AttributesFor(outUser.value.id, attributes);
      var (outAttributes, err2) := createMany(atts);
      if err2.Some? then (Outcome(None, None, Some(Wrapf("failed to create user attributes", err2.value))), Some(atts))
      else (Outcome(outUser, outAttributes, None), Some(atts))
  }

  /** `createUserImpl`: create the user, then its attributes, filled into a fresh slice by index. */
  method CreateUserImpl(create: CreateFn, createMany: CreateManyFn, user: User, attributes: seq<KeyValuePair>)
    returns (out: Outcome, sent: Option<seq<UserAttribute>>)
    requires CreatedUserPresent(create, user, attributes)
    ensures (out, sent) == CreateUserImplResult(create, createMany, user, attributes)
  {
    var (outUser, err) := create(user);
    if err.Some? {
      return Outcome(None, None, Some(Wrapf("failed to create user", err.value))), None;
    }
    var atts := new UserAttribute[|attributes|](_ => ZeroAttribute);
    if |attributes| == 0 {
      assert atts[..] == [];
      return Outcome(outUser, Some(atts[..]), None), None;
    }
    for i := 0 to |attributes|
      invariant forall j :: 0 <= j < i ==>
        atts[j] == UserAttribute(0, ZeroTime, ZeroTime, outUser.value.id, attributes[j].key, attributes[j].value)
    {
      atts[i] := UserAttribute(0, ZeroTime, ZeroTime, outUser.value.id, attributes[i].key, attributes[i].value);
    }
    assert atts[..] == AttributesFor(outUser.value.id, attributes);
    var (outAttributes, err2) := createMany(atts[..]);
    if err2.Some? {
      return Outcome(None, None, Some(Wrapf("failed to create user attributes", err2.value))), Some(atts[..]);
    }
    return Outcome(outUser, outAttributes, None), Some(atts[..]);
  }

  /** A failed user insert: nothing comes back, the error is wrapped, and the attribute store is never called. */
  lemma CreateUserImplCreateFails(create: CreateFn, createMany: CreateManyFn, user: User, attributes: seq<KeyValuePair>)
    requires create(user).1.Some?
    ensures var (out, sent) := CreateUserImplResult(create, createMany, user, attributes);
      && out.user.None? && out.attributes.None? && sent.None?
      && out.err == Some(Wrapf("failed to create user", create(user).1.value))
  {
  }

  /** No attributes: the created user and a non-nil empty slice, without calling `CreateMany`. */
  lemma CreateUserImplNoAttributes(create: CreateFn, createMany: CreateManyFn, user: User)
    requires create(user).1.None?
    ensures CreateUserImplResult(create, createMany, user, []) == (Outcome(create(user).0, Some([]), None), None)
  {
  }

  /**
   * With attributes, `CreateMany` receives one attribute per input pair, in
   * order, owned by the created user; its failure discards the created user
   * as well.
   */
  lemma CreateUserImplAttributes(create: CreateFn, createMany: CreateManyFn, user: User, attributes: seq<KeyValuePair>)
    requires create(user).1.None? && create(user).0.Some? && |attributes| > 0
    ensures var (out, sent) := CreateUserImplResult(create, createMany, user, attributes);
      && sent.Some? && |sent.value| == |attributes|
      && (forall i :: 0 <= i < |attributes| ==>
            (sent.value[i].userId == create(user).0.value.id
             && sent.value[i].key == attributes[i].key && sent.value[i].value == attributes[i].value))
      && (createMany(sent.value).1.Some? ==>
            out == Outcome(None, None, Some(Wrapf("failed to create user attributes", createMany(sent.value).1.value))))
      && (createMany(sent.value).1.None? ==> out == Outcome(create(user).0, createMany(sent.value).0, None))
  {
  }

  /** The error the transaction's single handler returns. */
  function HandlerError(out: Outcome): MaybeError {
    if out.err.Some? then Some(Wrapf("failed to create user", out.err.value)) else None
  }

  /**
   * The outcome of `CreateUser`, and the caller's user after the call (its
   * `Uuid` is overwritten through the pointer). The single handler runs in
   * a mysql transaction; `beginErr` is what starting it reports and
   * `commitErr` what the commit reports.
   */
  function CreateUserResult(create: CreateFn, createMany: CreateManyFn, beginErr: MaybeError, commitErr: MaybeError,
                            user: User, attributes: seq<KeyValuePair>, uuid: string): (Outcome, User)
    requires CreatedUserPresent(create, user.(uuid := uuid), attributes)
  {
    var withUuid := user.(uuid := uuid);
    var (impl, _) := CreateUserImplResult(create, createMany, withUuid, attributes);
    var err := RunTxResult(Mysql, [Some(HandlerError(impl))], beginErr, commitErr);
    if err.Some? then (Outcome(None, None, err), withUuid)
    else (Outcome(impl.user, impl.attributes, None), withUuid)
  }

  /**
   * `CreateUser`: set the new UUID, then run `createUserImpl` as the one
   * handler of a transaction. The handler, and with it both stores, runs
   * only once the transaction has begun (`handlerRan`); `sent` is the slice
   * `CreateMany` received, `None` when it was not called.
   */
  method CreateUser(create: CreateFn, createMany: CreateManyFn, beginErr: MaybeError, commitErr: MaybeError,
                    user: User, attributes: seq<KeyValuePair>, uuid: string)
    returns (out: Outcome, callerUser: User, handlerRan: bool, sent: Option<seq<UserAttribute>>)
    requires CreatedUserPresent(create, user.(uuid := uuid), attributes)
    ensures (out, callerUser) == CreateUserResult(create, createMany, beginErr, commitErr, user, attributes, uuid)
    ensures handlerRan <==> beginErr.None?
    ensures sent == if handlerRan then CreateUserImplResult(create, createMany, user.(uuid := uuid), attributes).1 else None
  {
    callerUser := user.(uuid := uuid);
    var outUser: Option<User> := None;
    var outAttributes: Slice<UserAttribute> := Some([]);
    var handlerErr: MaybeError := None;
    sent := None;
    if beginErr.None? {
      var impl;
      impl, sent := CreateUserImpl(create, createMany, callerUser, attributes);
      outUser, outAttributes, handlerErr := impl.user, impl.attributes, HandlerError(impl);
    }
    var err, ran := RunTx(Mysql, [Some(handlerErr)], beginErr, commitErr);
    handlerRan := ran != [];
    if err.Some? {
      return Outcome(None, None, err), callerUser, handlerRan, sent;
    }
    return Outcome(outUser, outAttributes, None), callerUser, handlerRan, sent;
  }

  /** The caller's user, and the user handed to the store, carry the generated UUID. */
  lemma CreateUserSetsUuid(create: CreateFn, createMany: CreateManyFn, beginErr: MaybeError, commitErr: MaybeError,
                           user: User, attributes: seq<KeyValuePair>, uuid: string)
    requires CreatedUserPresent(create, user.(uuid := uuid), attributes)
    ensures var (_, callerUser) := CreateUserResult(create, createMany, beginErr, commitErr, user, attributes, uuid);
      callerUser.uuid == uuid && callerUser.(uuid := user.uuid) == user
  {
  }

  /**
   * A user insert failing with an already categorized store error comes back
   * with that error wrapped twice, its sentinels intact, and nothing else.
   */
  lemma CreateUserStoreFailure(create: CreateFn, createMany: CreateManyFn, beginErr: MaybeError, commitErr: MaybeError,
                               user: User, attributes: seq<KeyValuePair>, uuid: string)
    requires CreatedUserPresent(create, user.(uuid := uuid), attributes)
    requires beginErr.None?
    requires create(user.(uuid := uuid)).1.Some? && IsCategorized(create(user.(uuid := uuid)).1)
    ensures var (out, _) := CreateUserResult(create, createMany, beginErr, commitErr, user, attributes, uuid);
      var e := create(user.(uuid := uuid)).1.value;
      && out.user.None? && out.attributes.None?
      && out.err == Some(Wrapf("failed to create user", Wrapf("failed to create user", e)))
      && out.err.value.tags == e.tags
  {
  }

  /**
   * Every failure of `CreateUser` is reported nil-handed and categorized, so
   * the error middleware never answers `Internal` or `Unknown` for it.
   */
  lemma CreateUserFailureCategorized(create: CreateFn, createMany: CreateManyFn, beginErr: MaybeError, commitErr: MaybeError,
                                     user: User, attributes: seq<KeyValuePair>, uuid: string)
    requires CreatedUserPresent(create, user.(uuid := uuid), attributes)
    ensures var (out, _) := CreateUserResult(create, createMany, beginErr, commitErr, user, attributes, uuid);
      out.err.Some? ==> && out.user.None? && out.attributes.None? && IsCategorized(out.err)
                        && HandleError(out.err).value.code
                             in {Canceled, ResourceExhausted, Unavailable, InvalidArgument, NotFound}
  {
    var (impl, _) := CreateUserImplResult(create, createMany, user.(uuid := uuid), attributes);
    var funcs := [Some(HandlerError(impl))];
    RunTxCategorizes(Mysql, funcs, beginErr, commitErr);
    if TxOutcome(funcs, beginErr, commitErr).Some? {
      TransactionFailureCode(Mysql, funcs, beginErr, commitErr);
    }
  }

  /** Everything succeeds: the created user and attributes come back. */
  lemma CreateUserSucceeds(create: CreateFn, createMany: CreateManyFn,
                           user: User, attributes: seq<KeyValuePair>, uuid: string)
    requires CreatedUserPresent(create, user.(uuid := uuid), attributes)
    requires CreateUserImplResult(create, createMany, user.(uuid := uuid), attributes).0.err.None?
    ensures var (out, _) := CreateUserResult(create, createMany, None, None, user, attributes, uuid);
      var (impl, _) := CreateUserImplResult(create, createMany, user.(uuid := uuid), attributes);
      out == impl
  {
  }

  /** A failing commit discards a successful handler's results. */
  lemma CreateUserCommitFails(create: CreateFn, createMany: CreateManyFn, beginErr: MaybeError, commitErr: MaybeError,
                              user: User, attributes: seq<KeyValuePair>, uuid: string)
    requires CreatedUserPresent(create, user.(uuid := uuid), attributes)
    requires CreateUserImplResult(create, createMany, user.(uuid := uuid), attributes).0.err.None?
    requires beginErr.None? && commitErr.Some?
    ensures var (out, _) := CreateUserResult(create, createMany, beginErr, commitErr, user, attributes, uuid);
      out == Outcome(None, None, HandleTransactionError(Mysql, commitErr))
  {
  }

  /** A transaction that cannot begin runs no handler and reports the categorized `Begin` error. */
  lemma CreateUserBeginFails(create: CreateFn, createMany: CreateManyFn, beginErr: MaybeError, commitErr: MaybeError,
                             user: User, attributes: seq<KeyValuePair>, uuid: string)
    requires CreatedUserPresent(create, user.(uuid := uuid), attributes)
    requires beginErr.Some?
    ensures var (out, _) := CreateUserResult(create, createMany, beginErr, commitErr, user, attributes, uuid);
      out == Outcome(None, None, HandleTransactionError(Mysql, beginErr))
  {
  }

  // ---------------------------------------------------------------------
  // Lookup
  // ---------------------------------------------------------------------

  /** `IUserStore.FindByUsername`. */
  type FindFn = string -> (Option<User>, MaybeError)

  /** `IUserAttributeStore.GetByUserID`. */
  type AttributesFn = Uint -> (Slice<UserAttribute>, MaybeError)

  /** A lookup that reports no error returns a user (the code reads `user.ID` without a nil check). */
  predicate FoundUserPresent(find: FindFn, username: string) {
    username != "" && find(username).1.None? ==> find(username).0.Some?
  }

  /**
   * `GetUserByUsername`: guard the name, find the user, then fetch the user's
   * attributes. It succeeds exactly when the name is not empty and both
   * lookups succeed, and then it returns a user.
   */
  function GetUserByUsername(find: FindFn, getByUserId: AttributesFn, username: string): (out: Outcome)
    requires FoundUserPresent(find, username)
    ensures out.err.None? <==>
      username != "" && find(username).1.None? && getByUserId(find(username).0.value.id).1.None?
    ensures out.err.None? ==> out.user.Some?
  {
    if username == "" then Outcome(None, None, Some(Categorized(ErrInvalid, "input username is empty")))
    else
      var (user, err) := find(username);
      if err.Some? then Outcome(None, None, Some(Wrapf("failed to find user by username", err.value)))
      else
        var (atts, err2) := getByUserId(user.value.id);
        if err2.Some? then Outcome(None, None, Some(Wrapf("failed to get user attributes", err2.value)))
        else Outcome(user, atts, None)
  }

  /** The empty name is refused with `ErrInvalid` before any store is asked. */
  lemma GetUserEmptyName(find: FindFn, find2: FindFn, getByUserId: AttributesFn, getByUserId2: AttributesFn)
    ensures GetUserByUsername(find, getByUserId, "") == GetUserByUsername(find2, getByUserId2, "")
    ensures var out := GetUserByUsername(find, getByUserId, "");
      && out.user.None? && out.attributes.None? && out.err.Some? && out.err.value.tags == {ErrInvalid}
      && HandleError(out.err).value.code == InvalidArgument
  {
  }

  /** Either both results or an error with neither; a store error keeps its sentinels. */
  lemma GetUserFailures(find: FindFn, getByUserId: AttributesFn, username: string)
    requires FoundUserPresent(find, username)
    requires username != ""
    ensures var out := GetUserByUsername(find, getByUserId, username);
      && (out.err.Some? ==> out.user.None? && out.attributes.None?)
      && (find(username).1.Some? ==> out.err.Some? && out.err.value.tags == find(username).1.value.tags)
      && (find(username).1.None? && getByUserId(find(username).0.value.id).1.Some? ==>
            out.err.Some? && out.err.value.tags == getByUserId(find(username).0.value.id).1.value.tags)
  {
  }

  /** Success: the found user and the attributes stored for that user's id. */
  lemma GetUserSucceeds(find: FindFn, getByUserId: AttributesFn, username: string)
    requires FoundUserPresent(find, username)
    requires username != "" && find(username).1.None?
    requires getByUserId(find(username).0.value.id).1.None?
    ensures GetUserByUsername(find, getByUserId, username)
      == Outcome(find(username).0, getByUserId(find(username).0.value.id).0, None)
  {
  }
}
