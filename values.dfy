/** The request and response vocabulary of the Flask layer: the scalar values a JSON
    dictionary holds, Python's truthiness of them, the caller's identity and the
    status codes the routes answer with. */
module Values {
  import opened Wrappers
  import Text

  /** A scalar JSON / Python value as it appears in a payload or a returned dict. */
  datatype Value = VNull | VBool(b: bool) | VInt(i: int) | VStr(s: string)

  /** A Python dict with string keys and scalar values, as `to_dict()` builds it. */
  type Dict = map<string, Value>

  /** `bool(v)` in Python: None, False, 0 and "" are false, everything else true. */
  predicate Truthy(v: Value)
  {
    match v
    case VNull => false
    case VBool(b) => b
    case VInt(i) => i != 0
    case VStr(s) => s != ""
  }

  /** A string field read with `data.get(key)` that passes `if not value`. */
  predicate FilledStr(o: Option<string>)
  {
    o.Some? && o.value != ""
  }

  /** An integer field read with `data.get(key)` that passes `if not value`. */
  predicate FilledInt(o: Option<int>)
  {
    o.Some? && o.value != 0
  }

  /** `str(v)`, as an f-string renders a value. */
  function PyStr(v: Value): string
  {
    match v
    case VNull => "None"
    case VBool(b) => if b then "True" else "False"
    case VInt(i) => Text.IntToString(i)
    case VStr(s) => s
  }

  /** `data.get(key)`: None, rendered as null, for a missing key. */
  function Get(data: Dict, key: string): Value
  {
    if key in data then data[key] else VNull
  }

  /** `data.get(key)` passes `if not value`. */
  predicate Filled(data: Dict, key: string)
  {
    key in data && Truthy(data[key])
  }

  /** A query-string argument, `request.args.get(name)`: text, or None when absent. */
  function ArgValue(arg: Option<string>): Value
  {
    if arg.Some? then VStr(arg.value) else VNull
  }

  /** The range of PostgreSQL's 32-bit `Integer`, the type of every id column. */
  const IntegerMin := -0x8000_0000
  const IntegerMax := 0x7FFF_FFFF

  predicate InIntegerRange(i: int)
  {
    IntegerMin <= i <= IntegerMax
  }

  /** A decimal text the engine casts to an `Integer` key. */
  predicate IntegerText(s: string)
  {
    Text.IsIntLiteral(s) && InIntegerRange(Text.ParseInt(s))
  }

  /** What an `Integer` column makes of a JSON value written to it or compared with it: an
      integer as it is; a text cast to `Integer`, which fails unless it is decimal and in
      range; no other value at all. */
  function AsKey(v: Value): (r: Option<int>)
    ensures r.Some? <==> v.VInt? || (v.VStr? && IntegerText(v.s))
    ensures v.VStr? && r.Some? ==> InIntegerRange(r.value)
  {
    if v.VInt? then Some(v.i)
    else if v.VStr? && IntegerText(v.s) then Some(Text.ParseInt(v.s))
    else None
  }

  /** A filter on an integer key (`if course_id:`): not applied when falsy; otherwise compared with the
      integer key as `AsKey` reads it, and an engine error when it cannot be. */
  function IdFilter(v: Value): (r: Result<Option<int>>)
    ensures !Truthy(v) ==> r == Success(None)
    ensures v.VInt? && v.i != 0 ==> r == Success(Some(v.i))
    ensures v.VStr? && v.s != "" ==>
              r == if IntegerText(v.s) then Success(Some(Text.ParseInt(v.s))) else Failure(EngineError)
    ensures Truthy(v) && !v.VInt? && !v.VStr? ==> r == Failure(EngineError)
    ensures r.Failure? ==> r.error == EngineError
  {
    if !Truthy(v) then Success(None)
    else if AsKey(v).Some? then Success(AsKey(v))
    else Failure(EngineError)
  }

  /** A decimal text in the `Integer` range is read as the number it spells, both when it
      is written to a key column and when it filters on one. */
  lemma IdFilterReadsDecimal(i: int)
    requires InIntegerRange(i)
    ensures AsKey(VStr(Text.IntToString(i))) == Some(i)
    ensures IdFilter(VStr(Text.IntToString(i))) == Success(Some(i))
  {
    Text.IntToStringRoundTrip(i);
  }

  /** A decimal text outside the `Integer` range is refused by the cast, even though no
      row could match it. */
  lemma IdFilterRefusesWide(i: int)
    requires !InIntegerRange(i)
    ensures AsKey(VStr(Text.IntToString(i))) == None
    ensures IdFilter(VStr(Text.IntToString(i))) == Failure(EngineError)
  {
    Text.IntToStringRoundTrip(i);
  }

  /** A payload field that the source inspects with `isinstance`: missing (or null),
      present with the wrong JSON type, or present with the expected one. */
  datatype Field<T> = Absent | WrongType | Given(value: T)

  datatype Role = Professor | Student | OtherRole

  /** The identity carried by the JWT: `current_user["user_id"]` and `current_user["role"]`. */
  datatype Principal = Principal(userId: int, role: Role)

  datatype Status = Ok | Created | BadRequest | Forbidden | NotFound | ServerError

  function Code(s: Status): (c: int)
    ensures 200 <= c < 600
  {
    match s
    case Ok => 200
    case Created => 201
    case BadRequest => 400
    case Forbidden => 403
    case NotFound => 404
    case ServerError => 500
  }
}
