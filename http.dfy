/** HTTP responses as the handlers produce them: a status code and a JSON object body. */
module Http {
  datatype Json = JStr(s: string) | JNum(n: int)

  datatype Response = Response(status: nat, body: map<string, Json>)
}
