/**
 * The profile record: the Python dictionary that `fetch_instagram_preview`
 * returns and the cache stores. Its keys are the fields below; its values are
 * `None`, an integer (from the JSON endpoint) or a string (from the page).
 */
module Profile {
  import opened Decimal

  datatype Field = DisplayName | Bio | Posts | Followers | Following | AvatarUrl | RawHtml | Error

  datatype Value = Null | Int(i: int) | Str(s: string)

  type Record = map<Field, Value>

  /** The seven keys of a successfully fetched record. */
  const ProfileFields: set<Field> := {DisplayName, Bio, Posts, Followers, Following, AvatarUrl, RawHtml}

  /** `record.get(field)`. */
  function Get(record: Record, field: Field): (v: Value)
    ensures field in record ==> v == record[field]
    ensures field !in record ==> v == Null
  {
    if field in record then record[field] else Null
  }

  /** Python truthiness: `None`, `0` and `""` are false. */
  predicate Truthy(v: Value)
    ensures Truthy(v) <==> v != Null && v != Int(0) && v != Str("")
  {
    match v
    case Null => false
    case Int(i) => i != 0
    case Str(s) => s != ""
  }

  /** `v or default`. */
  function Or(v: Value, default: Value): (r: Value)
    ensures Truthy(v) ==> r == v
    ensures !Truthy(v) ==> r == default
    ensures Truthy(default) ==> Truthy(r)
  {
    if Truthy(v) then v else default
  }

  /** `str(v)`, as an f-string renders it. */
  function Show(v: Value): (s: string)
    ensures v.Str? ==> s == v.s
    ensures v.Int? ==> s == IntText(v.i)
    ensures v.Null? ==> s == "None"
  {
    match v
    case Null => "None"
    case Int(i) => IntText(i)
    case Str(s) => s
  }
}
