/**
 * The controllers' protobuf transformers: protobuf messages to entities and
 * back. Each returns `(nil, nil)` for a nil input and never fails. Ids are
 * `uint32` on the wire and `uint` in the entities: widening on the way in,
 * truncation to the low 32 bits on the way out.
 */
module PbTransformers {
  import opened Wrappers
  import opened Entities
  import opened Transformer

  /** A `timestamppb.Timestamp`. */
  datatype Timestamp = Timestamp(seconds: int, nanos: int)

  /**
   * `utils.ToTimepb` and `utils.FromTimepb`, which delegate to the protobuf
   * library: time values are opaque to the model, so the conversions are an
   * input too.
   */
  datatype TimeCodec = TimeCodec(toPb: Time -> Timestamp, fromPb: Option<Timestamp> -> Time)

  datatype PbKeyValuePair = PbKeyValuePair(key: string, value: string)

  datatype PbUser = PbUser(
    id: Uint32,
    createdAt: Option<Timestamp>,
    updatedAt: Option<Timestamp>,
    username: string,
    password: string,
    uuid: string,
    name: string,
    email: Option<string>)

  datatype PbUserAttribute = PbUserAttribute(
    id: Uint32,
    createdAt: Option<Timestamp>,
    updatedAt: Option<Timestamp>,
    userId: Uint32,
    key: string,
    value: string)

  // ---------------------------------------------------------------------
  // Key-value pairs
  // ---------------------------------------------------------------------

  function KvToEntity(data: Option<PbKeyValuePair>): (r: Ret<KeyValuePair>)
    ensures r.err.None? && (r.val.None? <==> data.None?)
    ensures data.Some? ==> r.val.value.key == data.value.key && r.val.value.value == data.value.value
  {
    if data.None? then Ret(None, None)
    else Ret(Some(KeyValuePair(data.value.key, data.value.value)), None)
  }

  function KvFromEntity(entity: Option<KeyValuePair>): (r: Ret<PbKeyValuePair>)
    ensures r.err.None? && (r.val.None? <==> entity.None?)
    ensures entity.Some? ==> r.val.value.key == entity.value.key && r.val.value.value == entity.value.value
  {
    if entity.None? then Ret(None, None)
    else Ret(Some(PbKeyValuePair(entity.value.key, entity.value.value)), None)
  }

  /** `NewPbKeyValuePairTransformer`. */
  function PbKeyValuePairTransformer(): DataTransformer<PbKeyValuePair, KeyValuePair> {
    NewExtendedDataTransformer(DataTransformer(KvToEntity, KvFromEntity))
  }

  /** The two directions invert each other, nil included. */
  lemma KvRoundTrips(p: Option<PbKeyValuePair>, e: Option<KeyValuePair>)
    ensures KvFromEntity(KvToEntity(p).val) == Ret(p, None)
    ensures KvToEntity(KvFromEntity(e).val) == Ret(e, None)
  {
  }

  /** Lifted to slices: `FromEntityArray_I2I(ToEntityArray_I2I(xs)) == xs` for key-value pairs. */
  lemma KvArrayRoundTrip(xs: seq<PbKeyValuePair>)
    ensures var t := PbKeyValuePairTransformer();
      && DerefSafe(OnInstance(t.toEntity), Some(xs))
      && var (es, err) := ConvertInstances(OnInstance(t.toEntity), Some(xs));
         && err.None? && DerefSafe(OnInstance(t.fromEntity), es)
         && ConvertInstances(OnInstance(t.fromEntity), es) == (Some(xs), None)
  {
    var t := PbKeyValuePairTransformer();
    forall x ensures t.fromEntity(t.toEntity(Some(x)).val) == Ret(Some(x), None) {
      KvRoundTrips(Some(x), None);
    }
    InstancesRoundTrip(t, xs);
  }

  // ---------------------------------------------------------------------
  // Users
  // ---------------------------------------------------------------------

  function UserToEntity(c: TimeCodec, user: Option<PbUser>): (r: Ret<User>)
    ensures r.err.None? && (r.val.None? <==> user.None?)
    ensures user.Some? ==> var (u, e) := (user.value, r.val.value);
      && e.id == u.id
      && e.createdAt == c.fromPb(u.createdAt) && e.updatedAt == c.fromPb(u.updatedAt)
      && e.username == u.username && e.password == u.password && e.uuid == u.uuid && e.name == u.name
      && e.email == u.email
  {
    if user.None? then Ret(None, None)
    else
      var u := user.value;
      Ret(Some(User(u.id, c.fromPb(u.createdAt), c.fromPb(u.updatedAt), u.username, u.password, u.uuid, u.name, u.email)), None)
  }

  function UserFromEntity(c: TimeCodec, user: Option<User>): (r: Ret<PbUser>)
    ensures r.err.None? && (r.val.None? <==> user.None?)
    ensures user.Some? ==> var (u, p) := (user.value, r.val.value);
      && p.id == Narrow(u.id)
      && p.createdAt == Some(c.toPb(u.createdAt)) && p.updatedAt == Some(c.toPb(u.updatedAt))
      && p.username == u.username && p.password == u.password && p.uuid == u.uuid && p.name == u.name
      && p.email == u.email
  {
    if user.None? then Ret(None, None)
    else
      var u := user.value;
      Ret(Some(PbUser(Narrow(u.id), Some(c.toPb(u.createdAt)), Some(c.toPb(u.updatedAt)), u.username, u.password, u.uuid, u.name, u.email)), None)
  }

  /** `NewPbUserTransformer`. */
  function PbUserTransformer(c: TimeCodec): DataTransformer<PbUser, User> {
    NewExtendedDataTransformer(DataTransformer(p => UserToEntity(c, p), e => UserFromEntity(c, e)))
  }

  /** The time conversions give `t` back. */
  predicate TimeKept(c: TimeCodec, t: Time) {
    c.fromPb(Some(c.toPb(t))) == t
  }

  /** The protobuf timestamp survives a trip through the entity. */
  predicate StampKept(c: TimeCodec, ts: Option<Timestamp>) {
    Some(c.toPb(c.fromPb(ts))) == ts
  }

  /** entity -> protobuf -> entity gives the user back iff its id fits in 32 bits (and the times survive). */
  lemma UserEntityRoundTrip(c: TimeCodec, u: User)
    ensures UserToEntity(c, UserFromEntity(c, Some(u)).val) == Ret(Some(u), None)
      <==> u.id < 0x1_0000_0000 && TimeKept(c, u.createdAt) && TimeKept(c, u.updatedAt)
  {
  }

  /** With the times set aside, entity -> protobuf -> entity keeps everything but the id's high bits. */
  lemma UserEntityTruncatesId(c: TimeCodec, u: User)
    ensures var e := UserToEntity(c, UserFromEntity(c, Some(u)).val).val.value;
      && e.id == u.id % 0x1_0000_0000
      && e.(id := u.id, createdAt := u.createdAt, updatedAt := u.updatedAt) == u
  {
  }

  /** protobuf -> entity -> protobuf gives the message back iff both timestamps survive. */
  lemma UserPbRoundTrip(c: TimeCodec, p: PbUser)
    ensures UserFromEntity(c, UserToEntity(c, Some(p)).val) == Ret(Some(p), None)
      <==> StampKept(c, p.createdAt) && StampKept(c, p.updatedAt)
  {
  }

  // ---------------------------------------------------------------------
  // User attributes
  // ---------------------------------------------------------------------

  function AttributeToEntity(c: TimeCodec, data: Option<PbUserAttribute>): (r: Ret<UserAttribute>)
    ensures r.err.None? && (r.val.None? <==> data.None?)
    ensures data.Some? ==> var (d, e) := (data.value, r.val.value);
      && e.id == d.id && e.userId == d.userId
      && e.createdAt == c.fromPb(d.createdAt) && e.updatedAt == c.fromPb(d.updatedAt)
      && e.key == d.key && e.value == d.value
  {
    if data.None? then Ret(None, None)
    else
      var d := data.value;
      Ret(Some(UserAttribute(d.id, c.fromPb(d.createdAt), c.fromPb(d.updatedAt), d.userId, d.key, d.value)), None)
  }

  function AttributeFromEntity(c: TimeCodec, entity: Option<UserAttribute>): (r: Ret<PbUserAttribute>)
    ensures r.err.None? && (r.val.None? <==> entity.None?)
    ensures entity.Some? ==> var (e, p) := (entity.value, r.val.value);
      && p.id == Narrow(e.id) && p.userId == Narrow(e.userId)
      && p.createdAt == Some(c.toPb(e.createdAt)) && p.updatedAt == Some(c.toPb(e.updatedAt))
      && p.key == e.key && p.value == e.value
  {
    if entity.None? then Ret(None, None)
    else
      var e := entity.value;
      Ret(Some(PbUserAttribute(Narrow(e.id), Some(c.toPb(e.createdAt)), Some(c.toPb(e.updatedAt)), Narrow(e.userId), e.key, e.value)), None)
  }

  /** `NewPbUserAttributesTransformer`. */
  function PbUserAttributesTransformer(c: TimeCodec): DataTransformer<PbUserAttribute, UserAttribute> {
    NewExtendedDataTransformer(DataTransformer(p => AttributeToEntity(c, p), e => AttributeFromEntity(c, e)))
  }

  /** entity -> protobuf -> entity gives the attribute back iff both ids fit in 32 bits (and the times survive). */
  lemma AttributeEntityRoundTrip(c: TimeCodec, a: UserAttribute)
    ensures AttributeToEntity(c, AttributeFromEntity(c, Some(a)).val) == Ret(Some(a), None)
      <==> a.id < 0x1_0000_0000 && a.userId < 0x1_0000_0000 && TimeKept(c, a.createdAt) && TimeKept(c, a.updatedAt)
  {
  }

  /** protobuf -> entity -> protobuf gives the message back iff both timestamps survive. */
  lemma AttributePbRoundTrip(c: TimeCodec, p: PbUserAttribute)
    ensures AttributeFromEntity(c, AttributeToEntity(c, Some(p)).val) == Ret(Some(p), None)
      <==> StampKept(c, p.createdAt) && StampKept(c, p.updatedAt)
  {
  }
}
