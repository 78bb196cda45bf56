/** The JSON values the backend's handlers read from requests and put in their response bodies. */
module Json {

  /** A JSON value; numbers are integers (fractional numbers are not modelled). */
  datatype Json =
    | JNull
    | JBool(boolean: bool)
    | JNumber(number: int)
    | JString(str: string)
    | JObject(fields: map<string, Json>)
    | JArray(items: seq<Json>)

  /** A dictionary as the handlers build it: string keys to JSON values. */
  type Dict = map<string, Json>
}
