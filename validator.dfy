/** The payload validator: the minimum shape an inbound Sendblue message event
    must have before the webhook acknowledges it. */
module Validation {
  import opened Wrappers
  import opened Json

  /** `typeof x === 'string' && x.length > 0` for a property read (a string's
      UTF-16 length is positive exactly when it has a character). */
  predicate IsNonEmptyString(x: Option<Value>) {
    x.Some? && x.value.Str? && |x.value.s| > 0
  }

  /** Member `key` of an object's field map is a non-empty string. */
  predicate HasNonEmptyString(fields: map<string, Value>, key: string) {
    key in fields && fields[key].Str? && fields[key].s != ""
  }

  /** isValidSendbluePayload: a total test on any decoded JSON value. It is true
      exactly for a JSON object whose `message_handle` and `from_number` are both
      non-empty strings; null, scalars and arrays are rejected, and extra members
      are not looked at. */
  function IsValidSendbluePayload(payload: Value): (valid: bool)
    ensures valid <==>
      payload.Object? &&
      HasNonEmptyString(payload.fields, "message_handle") &&
      HasNonEmptyString(payload.fields, "from_number")
  {
    if !IsObjectLike(payload) then
      false
    else
      IsNonEmptyString(Get(payload, "message_handle")) && IsNonEmptyString(Get(payload, "from_number"))
  }

  /** Members other than the two required ones never change the verdict: unknown
      provider fields pass through unvalidated. */
  lemma ExtraFieldsIgnored(fields: map<string, Value>, key: string, x: Value)
    requires key != "message_handle" && key != "from_number"
    ensures IsValidSendbluePayload(Object(fields[key := x])) == IsValidSendbluePayload(Object(fields))
  {
    assert HasNonEmptyString(fields[key := x], "message_handle") == HasNonEmptyString(fields, "message_handle");
    assert HasNonEmptyString(fields[key := x], "from_number") == HasNonEmptyString(fields, "from_number");
  }

  /** Removing either required member, or making it empty or a non-string,
      makes any object invalid. */
  lemma RequiredFieldsNeeded(fields: map<string, Value>, key: string, x: Value)
    requires key == "message_handle" || key == "from_number"
    requires !(x.Str? && x.s != "")
    ensures !IsValidSendbluePayload(Object(fields - {key}))
    ensures !IsValidSendbluePayload(Object(fields[key := x]))
  {
  }

  /** The accepted message of the example exchange: a handle, a sender and
      `is_outbound: false`. */
  lemma ExampleInboundMessage()
    ensures var m := Object(map["message_handle" := Str("abc123"), "from_number" := Str("+15551234567"),
                                "is_outbound" := Bool(false)]);
            IsValidSendbluePayload(m) && !Truthy(Get(m, "is_outbound"))
  {
  }

  /** A sender without a handle is rejected. */
  lemma ExampleMissingHandle()
    ensures !IsValidSendbluePayload(Object(map["from_number" := Str("+15551234567")]))
  {
  }
}
