/**
 * The inbound command record and the JSON values the processors send
 * back. `serde_json` text encoding and decoding are library calls: the
 * model keeps JSON as a value and takes decoding as a partial function.
 */
module Models {
  import opened Wrappers
  import opened Ints

  /** A `serde_json::Value`; an object keeps its members in the order the source writes them. */
  datatype Json =
    | JNull
    | JBool(b: bool)
    | JNumber(n: int)
    | JString(s: string)
    | JArray(items: seq<Json>)
    | JObject(members: seq<(string, Json)>)

  /** The value of the first member called `key`, if the value is an object that has one. */
  function Member(v: Json, key: string): Option<Json>
    decreases if v.JObject? then |v.members| else 0
  {
    if !v.JObject? || v.members == [] then None
    else if v.members[0].0 == key then Some(v.members[0].1)
    else Member(JObject(v.members[1..]), key)
  }

  /**
   * A command as the processors read it: the `type` tag and the optional
   * fields `spawn_task_processor` consults.
   */
  datatype Command = Command(
    cmd: string,
    sessionId: string,
    aiOn: Option<bool>,
    motorId: Option<u8>,
    steps: Option<(i32, i32)>,
    meta: Option<Json>)

  /** `serde_json` writes an absent optional as `null`. */
  function OptionalJson(v: Option<Json>): Json
  {
    v.UnwrapOr(JNull)
  }
}
