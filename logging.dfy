/** The request-body step of the logging middleware: copy the body and mask
    a truthy `password` and a truthy `refreshToken` in the copy. */
module Logging {
  import opened Common

  /** The incoming request; `body` is `None` when Express set none. */
  class Request {
    var body: Option<Json>

    constructor (body: Option<Json>)
      ensures this.body == body
    {
      this.body := body;
    }
  }

  const Mask: string := "***"

  /** The two properties whose values never reach the log. */
  predicate IsSensitive(key: string)
  {
    key == "password" || key == "refreshToken"
  }

  /** `req.body ? JSON.parse(JSON.stringify(req.body)) : {}` followed by the
      two masking assignments on the copy. The request is only read (there
      is no `modifies` clause), so `req.body` keeps its value. */
  method LoggedBody(req: Request) returns (logged: Json)
    ensures req.body.None? || !Truthy(req.body.value) ==> logged == JObj(map[])
    ensures req.body.Some? && Truthy(req.body.value) && !req.body.value.JObj? ==> logged == req.body.value
    ensures req.body.Some? && req.body.value.JObj? ==>
      var fields := req.body.value.fields;
      && logged.JObj?
      && logged.fields.Keys == fields.Keys
      && forall k :: k in fields ==>
           logged.fields[k] == if IsSensitive(k) && Truthy(fields[k]) then JStr(Mask) else fields[k]
    ensures logged.JObj? ==> forall k :: k in logged.fields && IsSensitive(k) ==>
      !Truthy(logged.fields[k]) || logged.fields[k] == JStr(Mask)
  {
    // The body was parsed from JSON, so the stringify/parse round trip
    // yields an equal value.
    var requestBody := if req.body.Some? && Truthy(req.body.value) then req.body.value else JObj(map[]);
    if requestBody.JObj? && "password" in requestBody.fields && Truthy(requestBody.fields["password"]) {
      requestBody := JObj(requestBody.fields["password" := JStr(Mask)]);
    }
    if requestBody.JObj? && "refreshToken" in requestBody.fields && Truthy(requestBody.fields["refreshToken"]) {
      requestBody := JObj(requestBody.fields["refreshToken" := JStr(Mask)]);
    }
    logged := requestBody;
  }
}
