/**
 * The user profile value and its JSON mapping.
 */
module UserModel {
  import opened Js

  datatype User = User(
    id: JsValue, cedula: JsValue, firstName: JsValue, lastName: JsValue,
    isActive: JsValue, createdAt: JsValue, updatedAt: JsValue)

  const UserKeys: set<string> := {"id", "cedula", "firstName", "lastName", "isActive", "createdAt", "updatedAt"}

  /** `User.fromJson(json)`: the first read, `json.id`, raises a TypeError on
      undefined or null; every other read gives undefined for a missing key. */
  function FromJson(json: JsValue): (r: Result<User, JsError>)
    ensures r.Err? <==> Nullish(json)
    ensures r.Err? ==> r.error.kind == TypeError
  {
    match Prop(json, "id")
    case Err(e) => Err(e)
    case Ok(id) =>
      Ok(User(id, OptProp(json, "cedula"), OptProp(json, "firstName"), OptProp(json, "lastName"),
              OptProp(json, "isActive"), OptProp(json, "createdAt"), OptProp(json, "updatedAt")))
  }

  /** `user.toJson()` */
  function ToJson(u: User): (j: JsValue)
    ensures j.Obj? && j.props.Keys == UserKeys
  {
    Obj(map[
      "id" := u.id,
      "cedula" := u.cedula,
      "firstName" := u.firstName,
      "lastName" := u.lastName,
      "isActive" := u.isActive,
      "createdAt" := u.createdAt,
      "updatedAt" := u.updatedAt])
  }

  /** `user.getFullName()`: the template literal `${firstName} ${lastName}`. */
  function FullName(u: User): string {
    ToStr(u.firstName) + " " + ToStr(u.lastName)
  }

  lemma FromJsonToJson(u: User)
    ensures FromJson(ToJson(u)) == Ok(u)
  {
  }

  /** toJson after fromJson keeps the seven keys and drops every other. */
  lemma ToJsonFromJson(json: JsValue)
    requires json.Obj?
    ensures FromJson(json).Ok?
    ensures ToJson(FromJson(json).value).props.Keys == UserKeys
    ensures forall k :: k in UserKeys ==> ToJson(FromJson(json).value).props[k] == OptProp(json, k)
  {
  }

  /** When all seven keys are present, toJson(fromJson(j)) is j restricted to them. */
  lemma ToJsonFromJsonRestricts(json: JsValue)
    requires json.Obj? && UserKeys <= json.props.Keys
    ensures FromJson(json).Ok?
    ensures ToJson(FromJson(json).value) == Obj(map k | k in json.props && k in UserKeys :: json.props[k])
  {
    var r := map k | k in json.props && k in UserKeys :: json.props[k];
    var t := ToJson(FromJson(json).value).props;
    assert t.Keys == r.Keys;
    forall k | k in t ensures t[k] == r[k] {
    }
    assert t == r;
  }

  lemma FullNameOfStrings(u: User, first: string, last: string)
    requires u.firstName == Str(first) && u.lastName == Str(last)
    ensures FullName(u) == first + " " + last
    ensures FullName(u)[|first|] == ' '
  {
  }

  /** A missing name still prints: `${undefined}` is "undefined". */
  lemma FullNameOfMissingNames(u: User)
    requires u.firstName == Undefined && u.lastName == Undefined
    ensures FullName(u) == "undefined undefined"
  {
  }
}
