/**
 * Document field values as the store hands them to the client, and the
 * timestamp normaliser `convertTimestamps` (src/utils/firestore.ts).
 */
module Values {

  /**
   * A JSON-like field value. `Timestamp` is the store's own time type and
   * `Date` the JavaScript date it converts to; both hold an instant in
   * milliseconds. Arrays and plain objects nest further values.
   */
  datatype Value =
    | Null
    | Bool(b: bool)
    | Num(n: int)
    | Str(s: string)
    | Timestamp(millis: int)
    | Date(millis: int)
    | Arr(items: seq<Value>)
    | Obj(fields: map<string, Value>)

  /** The fields of one document or plain object, by key. */
  type Fields = map<string, Value>

  /**
   * The JavaScript test `v && typeof v === 'object' && !Array.isArray(v)`
   * for a value that is not a timestamp: a plain object, or a `Date`
   * (which is an object too).
   */
  predicate IsPlainObject(v: Value)
  {
    v.Obj? || v.Date?
  }

  /** The own enumerable keys of an object and their values; a `Date` has none. */
  function OwnFields(v: Value): Fields
    requires IsPlainObject(v)
  {
    if v.Obj? then v.fields else map[]
  }

  /**
   * The value convertTimestamps leaves under a key that held `v`: a timestamp
   * becomes a date, a plain object (or a `Date`) is rebuilt from its own
   * fields with each converted in turn, and everything else — null,
   * booleans, numbers, strings and arrays with whatever they contain — is
   * kept as it is.
   */
  function Normalize(v: Value): Value
  {
    match v
    case Timestamp(ms) => Date(ms)
    case Obj(m) => Obj(map k | k in m :: Normalize(m[k]))
    case Date(_) => Obj(map[])
    case _ => v
  }

  /** convertTimestamps applied to an object with the given own fields. */
  function NormalizeFields(obj: Fields): (r: Fields)
    ensures r.Keys == obj.Keys
  {
    map k | k in obj :: Normalize(obj[k])
  }

  lemma NormalizePlainObject(v: Value)
    requires IsPlainObject(v)
    ensures Normalize(v) == Obj(NormalizeFields(OwnFields(v)))
  {
  }

  /**
   * convertTimestamps: copy the object, then visit each own key, replacing a
   * timestamp by its date and a nested plain object by its own conversion.
   */
  method ConvertTimestamps(obj: Value) returns (result: Fields)
    requires IsPlainObject(obj)
    ensures result == NormalizeFields(OwnFields(obj))
    decreases obj
  {
    var own := OwnFields(obj);
    result := own;
    var pending := own.Keys;
    while pending != {}
      invariant pending <= own.Keys
      invariant result.Keys == own.Keys
      invariant forall k :: k in pending ==> result[k] == own[k]
      invariant forall k :: k in own && k !in pending ==> result[k] == Normalize(own[k])
      decreases pending
    {
      var key :| key in pending;
      var v := own[key];
      if v.Timestamp? {
        result := result[key := Date(v.millis)];
      } else if IsPlainObject(v) {
        assert v in own.Values;
        var nested := ConvertTimestamps(v);
        NormalizePlainObject(v);
        result := result[key := Obj(nested)];
      }
      pending := pending - {key};
    }
  }

  /**
   * No timestamp is left anywhere a chain of plain-object keys reaches;
   * arrays are not looked into.
   */
  predicate TimestampFree(v: Value)
  {
    match v
    case Timestamp(_) => false
    case Obj(m) => forall k :: k in m ==> TimestampFree(m[k])
    case _ => true
  }

  /** Holds of values that contain neither timestamps nor dates outside arrays. */
  predicate Plain(v: Value)
  {
    match v
    case Timestamp(_) => false
    case Date(_) => false
    case Obj(m) => forall k :: k in m ==> Plain(m[k])
    case _ => true
  }

  /** Every timestamp reachable through plain objects is converted. */
  lemma {:induction false} NormalizeRemovesTimestamps(v: Value)
    ensures TimestampFree(Normalize(v))
  {
    match v
    case Obj(m) =>
      var r := map k | k in m :: Normalize(m[k]);
      forall k | k in r
        ensures TimestampFree(r[k])
      {
        NormalizeRemovesTimestamps(m[k]);
      }
    case _ =>
  }

  /** The same for a whole converted object. */
  lemma NormalizeFieldsRemovesTimestamps(obj: Fields)
    ensures TimestampFree(Obj(NormalizeFields(obj)))
  {
    NormalizeRemovesTimestamps(Obj(obj));
    assert Normalize(Obj(obj)) == Obj(NormalizeFields(obj));
  }

  /** A value with no timestamps or dates outside arrays comes back unchanged. */
  lemma {:induction false} NormalizeKeepsPlain(v: Value)
    requires Plain(v)
    ensures Normalize(v) == v
  {
    match v
    case Obj(m) =>
      forall k | k in m
        ensures Normalize(m[k]) == m[k]
      {
        NormalizeKeepsPlain(m[k]);
      }
      assert (map k | k in m :: Normalize(m[k])) == m;
    case _ =>
  }

  /** The fields themselves: key set kept, each value treated as above. */
  lemma FieldNormalization(obj: Fields, k: string)
    requires k in obj
    ensures k in NormalizeFields(obj)
    ensures obj[k].Timestamp? ==> NormalizeFields(obj)[k] == Date(obj[k].millis)
    ensures obj[k].Obj? ==> NormalizeFields(obj)[k] == Obj(NormalizeFields(obj[k].fields))
    ensures !obj[k].Timestamp? && !IsPlainObject(obj[k]) ==> NormalizeFields(obj)[k] == obj[k]
  {
  }

  /**
   * Arrays are passed through: a timestamp inside an array element stays a
   * timestamp, while the same timestamp one object level down is converted.
   */
  lemma ArraysAreNotEntered(t: int)
    ensures NormalizeFields(map["a" := Arr([Obj(map["ts" := Timestamp(t)])])])
         == map["a" := Arr([Obj(map["ts" := Timestamp(t)])])]
    ensures NormalizeFields(map["a" := Obj(map["ts" := Timestamp(t)])])
         == map["a" := Obj(map["ts" := Date(t)])]
  {
    var inner := map["ts" := Timestamp(t)];
    assert Normalize(Obj(inner)) == Obj(map["ts" := Date(t)]);
  }

  /**
   * The normaliser is not idempotent: a second pass enters the `Date` a
   * first pass produced and leaves an empty object in its place.
   */
  lemma NormalizeTwiceLosesDates(t: int)
    ensures NormalizeFields(map["createdAt" := Timestamp(t)]) == map["createdAt" := Date(t)]
    ensures NormalizeFields(NormalizeFields(map["createdAt" := Timestamp(t)]))
         == map["createdAt" := Obj(map[])]
  {
    assert NormalizeFields(map["createdAt" := Timestamp(t)]) == map["createdAt" := Date(t)];
  }
}
