/**
 * The audit event record delivered by the audit service and shared by the
 * classifier and the accumulator.
 */
module Audit {

  /** An event category code, compared as the literal string the web client uses. */
  type EventCode = string

  /**
   * An audit event. `raw` is the event's untyped field bag; only string-valued
   * fields are modelled. `time` is an opaque timestamp.
   */
  datatype Event = Event(id: string, code: EventCode, time: string, user: string, raw: map<string, string>)

  /** JavaScript truthiness of `raw?.key` for a string field: present and non-empty. */
  predicate Truthy(raw: map<string, string>, key: string)
  {
    key in raw && raw[key] != ""
  }

  /** `raw?.key || fallback`: the field when it is truthy, otherwise the fallback. */
  function FieldOr(raw: map<string, string>, key: string, fallback: string): (v: string)
    ensures Truthy(raw, key) ==> v == raw[key]
    ensures !Truthy(raw, key) ==> v == fallback
    ensures fallback != "" ==> v != ""
  {
    if Truthy(raw, key) then raw[key] else fallback
  }
}
