/**
 * The structured records the facade hands to the backend. Each record has
 * a level and a message, the request identifier under the key "requestId",
 * for LogError the cause text under "error", and the caller's field map
 * under "fields" when the caller passed a non-nil map.
 */
module Records {

  import opened Wrappers
  import opened Severity

  /** The values of a field map (Go's interface{}); the model never looks inside. */
  type Value

  type Fields = map<string, Value>

  datatype Record = Record(
    level: Level,
    message: string,
    requestId: string,
    cause: Option<string>,
    fields: Option<Fields>)

  const REQUEST_ID_KEY := "requestId"
  const ERROR_KEY := "error"
  const FIELDS_KEY := "fields"

  /** The structured keys a record carries besides its level and message. */
  function Keys(r: Record): set<string>
  {
    {REQUEST_ID_KEY}
    + (if r.cause.Some? then {ERROR_KEY} else {})
    + (if r.fields.Some? then {FIELDS_KEY} else {})
  }

  /** What the backend emits for one call: the record if its level passes the threshold, else nothing. */
  function Emitted(threshold: Level, r: Record): seq<Record>
  {
    if Enabled(threshold, r.level) then [r] else []
  }

  /** A record has a "fields" key exactly when a field map was passed. */
  lemma FieldsKeyExactlyWhenGiven(r: Record)
    ensures FIELDS_KEY in Keys(r) <==> r.fields.Some?
    ensures REQUEST_ID_KEY in Keys(r)
    ensures ERROR_KEY in Keys(r) <==> r.cause.Some?
  {
  }

  /** An empty non-nil field map gives a different record, with a "fields" key, than a nil map. */
  lemma EmptyFieldsDistinguishable(l: Level, message: string, requestId: string, cause: Option<string>)
    ensures var empty := Record(l, message, requestId, cause, Some(map[]));
            var absent := Record(l, message, requestId, cause, None);
            empty != absent && FIELDS_KEY in Keys(empty) && FIELDS_KEY !in Keys(absent)
  {
  }
}
