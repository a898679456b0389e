/** The loosely typed JSON value that the Grafana API hands back for a dashboard's model
    (Go's `any` holding `map[string]any`, `[]any`, `string`, ...). Go's untyped and typed nil
    are both `JNull`: the JSON encoder writes them as `null`. */
module Json {

  datatype JValue =
    | JNull
    | JBool(b: bool)
    | JNum(n: int)
    | JStr(s: string)
    | JArr(items: seq<JValue>)
    | JObj(fields: map<string, JValue>)
}
