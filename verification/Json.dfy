/** JSON values and the accessors of the codecs. */
module Json {
  import opened Wrappers

  datatype Json =
    | Null
    | Bool(b: bool)
    | Num(n: int)
    | Real(r: real)
    | Str(s: string)
    | Arr(items: seq<Json>)
    | Obj(fields: map<string, Json>)

  datatype JsonError = MissingKey(key: string) | WrongType | NotExact | InvalidEnum(text: string) | UnlistedEnum

  type Fields = map<string, Json>

  function AsObject(j: Json): Result<Fields, JsonError> {
    if j.Obj? then Ok(j.fields) else Err(WrongType)
  }

  function At(obj: Fields, key: string): Result<Json, JsonError> {
    if key in obj then Ok(obj[key]) else Err(MissingKey(key))
  }

  function ToText(j: Json): Result<string, JsonError> {
    if j.Str? then Ok(j.s) else Err(WrongType)
  }

  function ToBool(j: Json): Result<bool, JsonError> {
    if j.Bool? then Ok(j.b) else Err(WrongType)
  }

  type Int32 = n: int | -0x8000_0000 <= n < 0x8000_0000

  predicate FitsInt32(n: int) {
    -0x8000_0000 <= n < 0x8000_0000
  }

  /** A number that the target type cannot hold exactly is an error; a floating-point number of
      integral value is none. */
  function ToInt(j: Json): Result<Int32, JsonError> {
    match j
    case Num(n) => if FitsInt32(n) then Ok(n) else Err(NotExact)
    case Real(r) => if r == r.Floor as real && FitsInt32(r.Floor) then Ok(r.Floor) else Err(NotExact)
    case _ => Err(WrongType)
  }

  function TextAt(obj: Fields, key: string): Result<string, JsonError> {
    var j :- At(obj, key);
    ToText(j)
  }

  function BoolAt(obj: Fields, key: string): Result<bool, JsonError> {
    var j :- At(obj, key);
    ToBool(j)
  }

  /** The value under a key that is there and not null. */
  function Present(obj: Fields, key: string): Option<Json> {
    if key in obj && obj[key] != Null then Some(obj[key]) else None
  }

  function OptionalText(obj: Fields, key: string): Result<Option<string>, JsonError> {
    match Present(obj, key)
    case None => Ok(None)
    case Some(j) =>
      var s :- ToText(j);
      Ok(Some(s))
  }

  // ---- Building an object key by key ----

  type Entry = (string, Option<Json>)

  function Assemble(entries: seq<Entry>): Fields {
    if entries == [] then map[]
    else
      var rest, last := Assemble(entries[..|entries| - 1]), entries[|entries| - 1];
      match last.1
      case None => rest
      case Some(j) => rest[last.0 := j]
  }

  predicate DistinctKeys(entries: seq<Entry>) {
    forall i, j :: 0 <= i < j < |entries| ==> entries[i].0 != entries[j].0
  }

  /** The object has exactly the entries with a value. */
  lemma {:induction false} AssembleHas(entries: seq<Entry>)
    requires DistinctKeys(entries)
    ensures forall i :: 0 <= i < |entries| ==>
              match entries[i].1
              case None => entries[i].0 !in Assemble(entries)
              case Some(j) => entries[i].0 in Assemble(entries) && Assemble(entries)[entries[i].0] == j
    ensures forall key :: key in Assemble(entries) ==> exists i :: 0 <= i < |entries| && entries[i].0 == key
  {
    if entries != [] {
      var was := entries[..|entries| - 1];
      AssembleHas(was);
      forall key | key in Assemble(entries)
        ensures exists i :: 0 <= i < |entries| && entries[i].0 == key
      {
        if key in Assemble(was) {
          var i :| 0 <= i < |was| && was[i].0 == key;
          assert entries[i].0 == key;
        } else {
          assert entries[|entries| - 1].0 == key;
        }
      }
    }
  }
}
