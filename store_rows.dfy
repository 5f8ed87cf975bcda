/**
 * The gorm rows of the user and user-attribute tables, their transformers to
 * and from the entities, and the two store queries built on the generic
 * store. The user-attribute row and its transformer are the same in the
 * stores and the repositories package, so one model serves both.
 *
 * The row transformers dereference their argument without a nil check; the
 * model takes a row or entity value, so a nil argument cannot be passed.
 */
module StoreRows {
  import opened Wrappers
  import opened Errors
  import opened Entities

  /** `sql.NullString`. */
  datatype NullString = NullString(str: string, valid: bool)

  /** `gorm.DeletedAt`, a `sql.NullTime`. */
  datatype NullTime = NullTime(time: Time, valid: bool)

  const NotDeleted: NullTime := NullTime(ZeroTime, false)

  /** The embedded `gorm.Model`. */
  datatype GormModel = GormModel(id: Uint, createdAt: Time, updatedAt: Time, deletedAt: NullTime)

  datatype UserRow = UserRow(
    model: GormModel,
    username: string,
    password: string,
    uuid: string,
    name: string,
    email: NullString)

  datatype UserAttributeRow = UserAttributeRow(model: GormModel, userId: Uint, key: string, value: string)

  // ---------------------------------------------------------------------
  // Users
  // ---------------------------------------------------------------------

  /** A valid `NullString` becomes a pointer to its text, an invalid one nil. */
  function EmailToEntity(n: NullString): (r: Option<string>)
    ensures r.Some? <==> n.valid
    ensures r.Some? ==> r.value == n.str
  {
    if n.valid then Some(n.str) else None
  }

  /** A nil pointer becomes the zero (invalid, empty) `NullString`, any other a valid one. */
  function EmailFromEntity(e: Option<string>): (r: NullString)
    ensures r.valid <==> e.Some?
    ensures r.str == e.GetOr("")
  {
    if e.Some? then NullString(e.value, true) else NullString("", false)
  }

  function UserToEntity(data: UserRow): (r: User)
    ensures r.id == data.model.id && r.createdAt == data.model.createdAt && r.updatedAt == data.model.updatedAt
    ensures r.username == data.username && r.password == data.password && r.uuid == data.uuid && r.name == data.name
    ensures r.email == EmailToEntity(data.email)
  {
    User(data.model.id, data.model.createdAt, data.model.updatedAt, data.username, data.password, data.uuid,
      data.name, EmailToEntity(data.email))
  }

  function UserFromEntity(entity: User): (r: UserRow)
    ensures r.model == GormModel(entity.id, entity.createdAt, entity.updatedAt, NotDeleted)
    ensures r.username == entity.username && r.password == entity.password && r.uuid == entity.uuid
    ensures r.name == entity.name && r.email == EmailFromEntity(entity.email)
  {
    UserRow(GormModel(entity.id, entity.createdAt, entity.updatedAt, NotDeleted), entity.username,
      entity.password, entity.uuid, entity.name, EmailFromEntity(entity.email))
  }

  /** entity -> row -> entity is the identity. */
  lemma UserEntityRoundTrip(u: User)
    ensures UserToEntity(UserFromEntity(u)) == u
  {
  }

  /**
   * row -> entity -> row resets the deletion time and the text of an invalid
   * `NullString`; so it is the identity exactly on rows that have neither.
   */
  lemma UserRowRoundTrip(r: UserRow)
    ensures UserFromEntity(UserToEntity(r))
      == r.(model := r.model.(deletedAt := NotDeleted), email := if r.email.valid then r.email else NullString("", false))
    ensures UserFromEntity(UserToEntity(r)) == r <==> r.model.deletedAt == NotDeleted && (r.email.valid || r.email.str == "")
  {
  }

  // ---------------------------------------------------------------------
  // User attributes
  // ---------------------------------------------------------------------

  function AttributeToEntity(data: UserAttributeRow): (r: UserAttribute)
    ensures r.id == data.model.id && r.createdAt == data.model.createdAt && r.updatedAt == data.model.updatedAt
    ensures r.userId == data.userId && r.key == data.key && r.value == data.value
  {
    UserAttribute(data.model.id, data.model.createdAt, data.model.updatedAt, data.userId, data.key, data.value)
  }

  function AttributeFromEntity(entity: UserAttribute): (r: UserAttributeRow)
    ensures r.model == GormModel(entity.id, entity.createdAt, entity.updatedAt, NotDeleted)
    ensures r.userId == entity.userId && r.key == entity.key && r.value == entity.value
  {
    UserAttributeRow(GormModel(entity.id, entity.createdAt, entity.updatedAt, NotDeleted), entity.userId, entity.key, entity.value)
  }

  /** entity -> row -> entity is the identity. */
  lemma AttributeEntityRoundTrip(a: UserAttribute)
    ensures AttributeToEntity(AttributeFromEntity(a)) == a
  {
  }

  /** row -> entity -> row is the identity exactly on rows that are not soft-deleted. */
  lemma AttributeRowRoundTrip(r: UserAttributeRow)
    ensures AttributeFromEntity(AttributeToEntity(r)) == r.(model := r.model.(deletedAt := NotDeleted))
    ensures AttributeFromEntity(AttributeToEntity(r)) == r <==> r.model.deletedAt == NotDeleted
  {
  }

  // ---------------------------------------------------------------------
  // Queries
  // ---------------------------------------------------------------------

  /** A criteria value of the generic store (`map[string]any`). */
  datatype Value = Text(s: string) | Number(n: int)

  /** The arguments of `GetByCriterias`: selected fields (nil for all), criteria and orderings. */
  datatype Criteria = Criteria(fields: Option<seq<string>>, criteria: map<string, Value>, orderBys: seq<string>)

  /** The criteria of `FindByUsername`: one condition on the name and an ordering by id. */
  function UsernameCriteria(username: string): (q: Criteria)
    ensures q.fields.None? && q.orderBys == ["id"]
    ensures q.criteria.Keys == {"username"} && q.criteria["username"] == Text(username)
  {
    Criteria(None, map["username" := Text(username)], ["id"])
  }

  /**
   * `FindByUsername`: an empty name is refused before any query; otherwise one
   * lookup by name. The call succeeds exactly when the name is not empty and
   * the lookup succeeds, and no user comes back beside an error.
   */
  function FindByUsername(getByCriterias: Criteria -> (Option<User>, MaybeError), username: string): (r: (Option<User>, MaybeError))
    ensures r.1.None? <==> username != "" && getByCriterias(UsernameCriteria(username)).1.None?
    ensures r.1.Some? ==> r.0.None?
  {
    if username == "" then (None, Some(Categorized(ErrInvalid, "input username is empty")))
    else
      var (user, err) := getByCriterias(UsernameCriteria(username));
      if err.Some? then (None, err) else (user, None)
  }

  /** The empty name is refused with `ErrInvalid` alone, whatever the store would have answered. */
  lemma FindByEmptyUsername(getByCriterias: Criteria -> (Option<User>, MaybeError))
    ensures var (user, err) := FindByUsername(getByCriterias, "");
      user.None? && err.Some? && err.value.tags == {ErrInvalid}
  {
  }

  /** Any other name is the store's answer to the lookup by that name, with no user beside an error. */
  lemma FindByUsernameDelegates(getByCriterias: Criteria -> (Option<User>, MaybeError), username: string)
    requires username != ""
    ensures var (user, err) := FindByUsername(getByCriterias, username);
      && err == getByCriterias(UsernameCriteria(username)).1
      && user == (if err.Some? then None else getByCriterias(UsernameCriteria(username)).0)
  {
  }

  /** The criteria of `GetByUserID`: one condition on the owner and an ordering by id. */
  function UserIdCriteria(userId: Uint): (q: Criteria)
    ensures q.fields.None? && q.orderBys == ["id"]
    ensures q.criteria.Keys == {"user_id"} && q.criteria["user_id"] == Number(userId)
  {
    Criteria(None, map["user_id" := Number(userId)], ["id"])
  }

  /**
   * `GetByUserID`: every attribute of one user, ordered by id, with offset 0
   * and limit 0; what the generic store makes of a zero limit is not modelled.
   */
  function GetByUserID<R>(getManyByCriterias: (Criteria, int, int) -> R, userId: Uint): R {
    getManyByCriterias(UserIdCriteria(userId), 0, 0)
  }

  /** Different users are asked for with different criteria, on the first page. */
  lemma GetByUserIDQuery<R>(getManyByCriterias: (Criteria, int, int) -> R, a: Uint, b: Uint)
    ensures GetByUserID(getManyByCriterias, a) == getManyByCriterias(UserIdCriteria(a), 0, 0)
    ensures UserIdCriteria(a) == UserIdCriteria(b) <==> a == b
  {
    if UserIdCriteria(a) == UserIdCriteria(b) {
      assert UserIdCriteria(a).criteria["user_id"] == UserIdCriteria(b).criteria["user_id"];
    }
  }
}
