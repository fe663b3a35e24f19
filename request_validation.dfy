/** The request checks of the authentication routes: the two body schemas
    (a required non-empty token string and an optional `deviceInfo` object
    with optional string members), the validation message built from the
    schema's issues, and the merge of the device data passed to the token
    service. */
module RequestValidation {
  import opened Wrappers
  import opened Strings
  import opened Errors
  import opened Json

  /** A body schema: the key of the required token and the message of its
      minimum-length check. */
  datatype Schema = Schema(tokenKey: string, emptyMessage: string)

  const GoogleAuthSchema := Schema("idToken", "Google ID token is required")
  const RefreshTokenSchema := Schema("refreshToken", "Refresh token is required")

  /** One problem the schema validator reports: where, and what. */
  datatype Issue = Issue(path: seq<string>, message: string)

  /** The validator's message for a value of the wrong type; a missing
      value is reported as `Required`. */
  function TypeMessage(expected: string, received: Option<Value>): string {
    if received.None? then "Required" else "Expected " + expected + ", received " + TypeName(received.value)
  }

  /** The issues of a string member: missing (unless optional), of another
      type, or (with a minimum-length message) empty. */
  function StringIssues(path: seq<string>, v: Option<Value>, optional: bool, emptyMessage: Option<string>): (r: seq<Issue>)
    ensures |r| <= 1
    ensures r == [] <==> (v.None? && optional) || (v.Some? && v.value.Str? && (emptyMessage.None? || v.value.s != ""))
  {
    match v
    case None => if optional then [] else [Issue(path, "Required")]
    case Some(Str(s)) => if emptyMessage.Some? && s == "" then [Issue(path, emptyMessage.value)] else []
    case Some(other) => [Issue(path, TypeMessage("string", v))]
  }

  /** The issues of the optional `deviceInfo` member. */
  function DeviceInfoIssues(v: Option<Value>): (r: seq<Issue>)
    ensures r == [] <==> v.None? || (v.value.Object? && OptionalString(v.value, "userAgent") && OptionalString(v.value, "deviceId"))
  {
    match v
    case None => []
    case Some(Object(fields)) =>
      StringIssues(["deviceInfo", "userAgent"], Member(v.value, "userAgent"), true, None)
        + StringIssues(["deviceInfo", "deviceId"], Member(v.value, "deviceId"), true, None)
    case Some(other) => [Issue(["deviceInfo"], TypeMessage("object", v))]
  }

  /** An absent member, or a string. */
  predicate OptionalString(v: Value, key: string) {
    Member(v, key).None? || Member(v, key).value.Str?
  }

  /** The issues of a body against a schema, in the schema's key order. */
  function BodyIssues(schema: Schema, body: Value): (r: seq<Issue>)
    ensures 1 <= |r| <= 3 || (r == [] && body.Object?)
    ensures !body.Object? ==> r == [Issue([], TypeMessage("object", Some(body)))]
    ensures body.Object? ==> forall i :: 0 <= i < |r| ==>
              |r[i].path| >= 1 && (r[i].path[0] == schema.tokenKey || r[i].path[0] == "deviceInfo")
  {
    if !body.Object? then [Issue([], TypeMessage("object", Some(body)))]
    else
      StringIssues([schema.tokenKey], Member(body, schema.tokenKey), false, Some(schema.emptyMessage))
        + DeviceInfoIssues(Member(body, "deviceInfo"))
  }

  /** The bodies a schema accepts. */
  predicate Conforms(schema: Schema, body: Value) {
    && body.Object?
    && Member(body, schema.tokenKey).Some? && Member(body, schema.tokenKey).value.Str?
    && Member(body, schema.tokenKey).value.s != ""
    && (Member(body, "deviceInfo").None?
        || (&& Member(body, "deviceInfo").value.Object?
            && OptionalString(Member(body, "deviceInfo").value, "userAgent")
            && OptionalString(Member(body, "deviceInfo").value, "deviceId")))
  }

  /** A body has no issues exactly when it conforms to the schema. */
  lemma NoIssuesIffConforms(schema: Schema, body: Value)
    ensures BodyIssues(schema, body) == [] <==> Conforms(schema, body)
  {
  }

  /** `` `${e.path.join('.')}: ${e.message}` ``. */
  function IssueText(issue: Issue): string {
    Join(issue.path, ".") + ": " + issue.message
  }

  /** The issues' texts joined with `", "`. */
  function IssuesMessage(issues: seq<Issue>): (m: string)
    ensures issues == [] ==> m == ""
    ensures |issues| == 1 ==> m == IssueText(issues[0])
    ensures |issues| >= 2 ==> StartsWith(m, IssueText(issues[0]) + ", ")
  {
    var texts := seq(|issues|, k requires 0 <= k < |issues| => IssueText(issues[k]));
    assert |issues| >= 2 ==> StartsWith(Join(texts, ", "), IssueText(issues[0]) + ", ") by {
      if |issues| >= 2 {
        var first := IssueText(issues[0]) + ", ";
        assert Join(texts, ", ") == first + Join(texts[1..], ", ");
        assert Join(texts, ", ")[..|first|] == first;
      }
    }
    Join(texts, ", ")
  }

  /** With two or more issues, the message is the first issue's text, a
      comma and a space, and then the message of the remaining issues: every
      issue appears, in order. */
  lemma MessageOfMoreIssues(issues: seq<Issue>)
    requires |issues| >= 2
    ensures IssuesMessage(issues) == IssueText(issues[0]) + ", " + IssuesMessage(issues[1..])
  {
    var texts := seq(|issues|, k requires 0 <= k < |issues| => IssueText(issues[k]));
    var rest := seq(|issues| - 1, k requires 0 <= k < |issues| - 1 => IssueText(issues[1..][k]));
    assert texts[1..] == rest;
  }

  /** `validateRequest(schema)`: the request proceeds, or fails with a
      `ValidationError` listing every issue. */
  function ValidateRequest(schema: Schema, body: Value): (r: Result<(), Failure>)
    ensures r.Ok? <==> Conforms(schema, body)
    ensures r.Err? ==> r.error == App(ValidationError(IssuesMessage(BodyIssues(schema, body))))
  {
    NoIssuesIffConforms(schema, body);
    var issues := BodyIssues(schema, body);
    if issues == [] then Ok(()) else Err(App(ValidationError(IssuesMessage(issues))))
  }

  /** A single issue is reported as `path: message`. */
  lemma SingleIssueMessage(issue: Issue)
    ensures IssuesMessage([issue]) == IssueText(issue)
  {
    assert seq(1, k requires 0 <= k < 1 => IssueText([issue][k])) == [IssueText(issue)];
  }

  /** An empty object lacks the token: the message is `<key>: Required`, a
      client error (400). */
  lemma EmptyBodyIsRequired(schema: Schema)
    ensures ValidateRequest(schema, Object(map[])) == Err(App(ValidationError(schema.tokenKey + ": Required")))
    ensures ValidationError(schema.tokenKey + ": Required").statusCode == 400
  {
    var issue := Issue([schema.tokenKey], "Required");
    assert BodyIssues(schema, Object(map[])) == [issue];
    SingleIssueMessage(issue);
    assert Join([schema.tokenKey], ".") == schema.tokenKey;
    assert IssueText(issue) == schema.tokenKey + ": Required";
  }

  /** An empty token reports the schema's own message. */
  lemma EmptyTokenIsReported(schema: Schema)
    requires schema.tokenKey != "deviceInfo"
    ensures ValidateRequest(schema, Object(map[schema.tokenKey := Str("")]))
            == Err(App(ValidationError(schema.tokenKey + ": " + schema.emptyMessage)))
  {
    var body := Object(map[schema.tokenKey := Str("")]);
    var issue := Issue([schema.tokenKey], schema.emptyMessage);
    assert Member(body, "deviceInfo").None?;
    assert BodyIssues(schema, body) == [issue];
    SingleIssueMessage(issue);
    assert Join([schema.tokenKey], ".") == schema.tokenKey;
  }

  /** A non-empty token, with no `deviceInfo` or a `deviceInfo` object
      whose `userAgent` and `deviceId` are strings when present, is
      accepted; members the schema does not name are not checked. */
  lemma TokenWithDeviceInfoConforms(schema: Schema, token: string, device: map<string, Value>, extra: map<string, Value>)
    requires token != "" && schema.tokenKey != "deviceInfo"
    requires forall k :: k in device && (k == "userAgent" || k == "deviceId") ==> device[k].Str?
    ensures "deviceInfo" !in extra ==> Conforms(schema, Object(extra[schema.tokenKey := Str(token)]))
    ensures Conforms(schema, Object(extra[schema.tokenKey := Str(token)]["deviceInfo" := Object(device)]))
  {
  }

  // ---------------------------------------------------------------------------
  // Device data

  /** `{ userAgent: <header>, ipAddress: req.ip, deviceId: deviceInfo?.deviceId,
      ...deviceInfo }` as the object it becomes: members whose value is
      `undefined` are left out, and every member of the body's `deviceInfo`
      object, named in the schema or not, is spread in last. Validation
      admits only an object or nothing for `deviceInfo`. */
  function DeviceData(userAgent: Option<string>, ip: Option<string>, deviceInfo: Option<Value>): (d: map<string, Value>)
    ensures deviceInfo.Some? && deviceInfo.value.Object? ==>
              forall k :: k in deviceInfo.value.fields ==> k in d && d[k] == deviceInfo.value.fields[k]
    ensures forall k :: k in d <==>
              || (k == "userAgent" && userAgent.Some?)
              || (k == "ipAddress" && ip.Some?)
              || (deviceInfo.Some? && deviceInfo.value.Object? && k in deviceInfo.value.fields)
    ensures userAgent.Some? && Member(deviceInfo.GetOr(Null), "userAgent").None? ==> d["userAgent"] == Str(userAgent.value)
    ensures ip.Some? && Member(deviceInfo.GetOr(Null), "ipAddress").None? ==> d["ipAddress"] == Str(ip.value)
  {
    var agentPart: map<string, Value> := if userAgent.Some? then map["userAgent" := Str(userAgent.value)] else map[];
    var ipPart: map<string, Value> := if ip.Some? then map["ipAddress" := Str(ip.value)] else map[];
    var idPart: map<string, Value> :=
      if deviceInfo.Some? && Member(deviceInfo.value, "deviceId").Some?
      then map["deviceId" := Member(deviceInfo.value, "deviceId").value] else map[];
    var base := agentPart + ipPart + idPart;
    if deviceInfo.Some? && deviceInfo.value.Object? then base + deviceInfo.value.fields else base
  }

  /** The spread comes last: a client's `deviceInfo.ipAddress` replaces the
      address the server saw, and its `userAgent` the header. */
  lemma ClientDeviceFieldsOverride(userAgent: Option<string>, ip: Option<string>, fields: map<string, Value>)
    requires "ipAddress" in fields && "userAgent" in fields
    ensures DeviceData(userAgent, ip, Some(Object(fields)))["ipAddress"] == fields["ipAddress"]
    ensures DeviceData(userAgent, ip, Some(Object(fields)))["userAgent"] == fields["userAgent"]
  {
  }
}
