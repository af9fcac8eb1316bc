/**
 * The structured JSON document the profile is exported to and imported from
 * (FJsonObject / FJsonValue), with the typed field accessors the profile uses.
 * Text serialization is not part of the model.
 */
module Json {
  import opened Wrappers

  datatype Json =
    | JNull
    | JBool(b: bool)
    | JNumber(n: int)
    | JString(s: string)
    | JArray(items: seq<Json>)
    | JObject(fields: map<string, Json>)

  /** FJsonObject::TryGetStringField. */
  function TryGetString(fields: map<string, Json>, key: string): (r: Option<string>)
    ensures r.Some? <==> key in fields && fields[key].JString?
    ensures r.Some? ==> fields[key] == JString(r.value)
  {
    if key in fields && fields[key].JString? then Some(fields[key].s) else None
  }

  /** FJsonObject::TryGetBoolField. */
  function TryGetBool(fields: map<string, Json>, key: string): (r: Option<bool>)
    ensures r.Some? <==> key in fields && fields[key].JBool?
    ensures r.Some? ==> fields[key] == JBool(r.value)
  {
    if key in fields && fields[key].JBool? then Some(fields[key].b) else None
  }

  /** FJsonObject::TryGetArrayField. */
  function TryGetArray(fields: map<string, Json>, key: string): (r: Option<seq<Json>>)
    ensures r.Some? <==> key in fields && fields[key].JArray?
    ensures r.Some? ==> fields[key] == JArray(r.value)
  {
    if key in fields && fields[key].JArray? then Some(fields[key].items) else None
  }

  /** FJsonObject::TryGetObjectField. */
  function TryGetObject(fields: map<string, Json>, key: string): (r: Option<map<string, Json>>)
    ensures r.Some? <==> key in fields && fields[key].JObject?
    ensures r.Some? ==> fields[key] == JObject(r.value)
  {
    if key in fields && fields[key].JObject? then Some(fields[key].fields) else None
  }

  /** FJsonObject::GetStringField on a present field: its text, or "" when it is not a string. */
  function GetStringField(fields: map<string, Json>, key: string): (r: string)
    requires key in fields
    ensures fields[key].JString? ==> fields[key] == JString(r)
    ensures !fields[key].JString? ==> r == ""
  {
    TryGetString(fields, key).GetOr("")
  }

  /** FJsonObject::GetIntegerField on a present field: its number, or 0 when it is not a number. */
  function GetIntegerField(fields: map<string, Json>, key: string): (r: int)
    requires key in fields
    ensures fields[key].JNumber? ==> fields[key] == JNumber(r)
    ensures !fields[key].JNumber? ==> r == 0
  {
    if fields[key].JNumber? then fields[key].n else 0
  }
}
