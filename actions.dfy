/**
 * The server actions (src/app/actions.ts): the login action, which writes the
 * session cookies, and the data getters and mutations, each of which sends
 * one request upstream and wraps the reply in a `{success, data, message}`
 * envelope of its own shape.
 */
module Actions {
  import opened Wrappers
  import opened Strings
  import opened Js
  import opened Transport

  /** A stored cookie: its text, its lifetime in days when one is given, and the secure flag. */
  datatype Cookie = Cookie(text: JsText, expiresDays: Option<nat>, secure: bool)

  /** A cookie store. The `token` cookie always holds plain text: no code path serialises a token as JSON. */
  type Jar = m: map<string, Cookie> | TokenCookie in m ==> m[TokenCookie].text.Chars?
    witness map[]

  const TokenCookie := "token"
  const UserCookie := "user"

  /** `cookieStore.get('token')?.value` */
  function StoredToken(jar: Jar): Option<string>
  {
    if TokenCookie in jar then Some(jar[TokenCookie].text.s) else None
  }

  /** What every action returns; an absent field is `Undefined`. */
  datatype Envelope = Envelope(success: bool, data: Json, message: Json)

  // ----- Login -----

  const UserNotFoundText := "المستخدم غير موجود. تأكد من رقم الهوية."
  const WrongPasswordText := "كلمة المرور غير صحيحة."
  const LoginFailedText := "فشل تسجيل الدخول"
  const ConnectionErrorText := "حدث خطأ في الاتصال"
  const UnknownErrorText := "Unknown error"
  const DeviceToken := "web_placeholder_token"

  /** The login request: no credential, the form's two fields and the fixed device token. */
  function LoginRequest(cin: Json, password: Json): (q: Request)
    ensures q.verb == POST && q.url == ApiUrl + "/auth/guardian"
    ensures q.headers.authorization.None?
    ensures Field(q.body, "cin") == cin && Field(q.body, "password") == password
    ensures Field(q.body, "firebase_token") == Str(DeviceToken)
  {
    Request(POST, ApiUrl + "/auth/guardian", Headers(JsonMediaType, JsonMediaType, None),
      Obj(map["cin" := cin, "password" := password, "firebase_token" := Str(DeviceToken)]))
  }

  /** The message of a rejected login, in order: no response, 404, 401, the body's message, the generic text. */
  function LoginFailure(reply: Reply): (m: Json)
    requires !Accepted(reply)
    ensures Truthy(m)
    ensures reply.NoResponse? ==> m == Str(ConnectionErrorText)
    ensures reply.Response? && reply.status == 404 ==> m == Str(UserNotFoundText)
    ensures reply.Response? && reply.status == 401 ==> m == Str(WrongPasswordText)
    ensures reply.Response? && reply.status != 404 && reply.status != 401 ==>
      m == (if Truthy(Field(reply.body, "message")) then Field(reply.body, "message") else Str(LoginFailedText))
  {
    match reply
    case NoResponse => Str(ConnectionErrorText)
    case Response(status, _) =>
      if status == 404 then Str(UserNotFoundText)
      else if status == 401 then Str(WrongPasswordText)
      else FailureMessage(reply, LoginFailedText)
  }

  /**
   * The envelope `loginAction` returns. Only a 200 reply whose body can be
   * read succeeds; reading `token` off a null body throws a TypeError that
   * carries no response, so it is reported as a connection error.
   */
  function LoginEnvelope(reply: Reply): (r: Envelope)
    ensures r.success <==> reply.Response? && reply.status == 200 && !Nullish(reply.body)
    ensures r.success ==> r.data == reply.body && r.message == Undefined
    ensures !r.success ==> r.data == Undefined && Truthy(r.message)
    ensures !Accepted(reply) ==> r.message == LoginFailure(reply)
    ensures Accepted(reply) && reply.status != 200 ==> r.message == Str(UnknownErrorText)
    ensures reply.Response? && reply.status == 200 && Nullish(reply.body) ==> r.message == Str(ConnectionErrorText)
  {
    if !Accepted(reply) then Envelope(false, Undefined, LoginFailure(reply))
    else if reply.status != 200 then Envelope(false, Undefined, Str(UnknownErrorText))
    else if Nullish(reply.body) then Envelope(false, Undefined, Str(ConnectionErrorText))
    else Envelope(true, reply.body, Undefined)
  }

  /** The store after a successful login: `token` as text and `user` as JSON, both secure, no expiry. */
  function WithLoginCookies(jar: Jar, body: Json): (j: Jar)
    ensures j.Keys == jar.Keys + {TokenCookie, UserCookie}
    ensures j[TokenCookie] == Cookie(Chars(JsString(Field(body, "token"))), None, true)
    ensures j[UserCookie] == Cookie(JsonText(Field(body, "user")), None, true)
    ensures forall k :: k in jar && k != TokenCookie && k != UserCookie ==> j[k] == jar[k]
  {
    jar[TokenCookie := Cookie(Chars(JsString(Field(body, "token"))), None, true)]
       [UserCookie := Cookie(JsonText(Field(body, "user")), None, true)]
  }

  /** The request-scoped cookie store a server action sees. */
  class ServerCookies {
    var jar: Jar

    constructor (initial: Jar)
      ensures jar == initial
    {
      jar := initial;
    }

    /** `loginAction`: both cookies are written on a successful login, neither on any failure. */
    method LoginAction(cin: Json, password: Json, reply: Reply) returns (request: Request, result: Envelope)
      modifies this
      ensures request == LoginRequest(cin, password)
      ensures result == LoginEnvelope(reply)
      ensures jar == if result.success then WithLoginCookies(old(jar), reply.body) else old(jar)
    {
      request := LoginRequest(cin, password);
      if !Accepted(reply) {
        result := Envelope(false, Undefined, LoginFailure(reply));
        return;
      }
      if reply.status == 200 {
        var data := reply.body;
        var token := Prop(data, "token");
        if token.Threw? {
          result := Envelope(false, Undefined, Str(ConnectionErrorText));
          return;
        }
        jar := jar[TokenCookie := Cookie(Chars(JsString(token.value)), None, true)];
        jar := jar[UserCookie := Cookie(JsonText(Field(data, "user")), None, true)];
        result := Envelope(true, data, Undefined);
        return;
      }
      result := Envelope(false, Undefined, Str(UnknownErrorText));
    }
  }

  // ----- Data getters -----

  datatype Mailbox = Receive | Send

  /** The upstream resources the getters read, with their parameters. */
  datatype Resource =
    | Publications
    | Students
    | ExtraActivities
    | Groups(studentId: int)
    | Absences(studentId: int)
    | Notes(studentId: int, examNumber: int)
    | FinalExam(studentId: int, semester: int)
    | Statistics(studentId: int, semester: int)
    | Invoices
    | Messages(box: Mailbox)
    | Recipients

  const GuardianPrefix := "/guardian/"

  /** The path and query string each getter appends to the base address. */
  function ResourcePath(r: Resource): (p: string)
    ensures StartsWith(p, GuardianPrefix)
  {
    var rest := match r
      case Publications => "publications?include=groups"
      case Students => "students"
      case ExtraActivities => "extracurricular_activities"
      case Groups(id) =>
        "groups?filter[students.id]=" + IntToString(id) + "&include=sessions,sessions.subject"
      case Absences(id) => "attendance_records?filter[student_id]=" + IntToString(id)
      case Notes(id, exam) =>
        "notes?filter[student_id]=" + IntToString(id) + "&filter[exam_number]=" + IntToString(exam)
      case FinalExam(id, semester) =>
        "notes/summery?student_id=" + IntToString(id) + "&semester=" + IntToString(semester)
      case Statistics(id, semester) =>
        "statistiques/notes?student_id=" + IntToString(id) + "&semester=" + IntToString(semester)
      case Invoices => "invoices"
      case Messages(box) => "messages?filter[guardian_messages]=" + (if box == Receive then "receive" else "send")
      case Recipients => "users";
    assert (GuardianPrefix + rest)[..|GuardianPrefix|] == GuardianPrefix;
    GuardianPrefix + rest
  }

  /** Every getter sends a GET with the session's headers (`getAuthHeaders`) and no body. */
  function ResourceRequest(r: Resource, jar: Jar): (q: Request)
    ensures q.verb == GET && q.body == Undefined
    ensures StartsWith(q.url, ApiUrl + GuardianPrefix)
    ensures q.headers.authorization == Some(BearerValue(StoredToken(jar)))
  {
    Request(GET, ApiUrl + ResourcePath(r), AuthHeaders(StoredToken(jar)), Undefined)
  }

  /** The getters that hand back `response.data.data`. */
  predicate Unwraps(r: Resource)
  {
    !(r.Groups? || r.FinalExam? || r.Statistics?)
  }

  /** The data of a failed getter: null for the single final-exam record, an empty list otherwise. */
  function EmptyData(r: Resource): Json
  {
    if r.FinalExam? then Null else Arr([])
  }

  /**
   * `getStudentGroups` once the reply is accepted: the first group's
   * `sessions` when the group list is non-empty, an empty list otherwise. A
   * non-empty string in place of the list yields `undefined`, as indexing it
   * gives a one-character string.
   */
  function GroupsEnvelope(body: Json): (e: Envelope)
    ensures e.message == Undefined
    ensures !e.success ==> e.data == Arr([])
    ensures Nullish(body) ==> !e.success
    ensures (!Nullish(body) && !(Field(body, "data").Arr? && |Field(body, "data").items| > 0) &&
             !(Field(body, "data").Str? && |Field(body, "data").s| > 0)) ==> e == Envelope(true, Arr([]), Undefined)
    ensures !Nullish(body) && Field(body, "data").Str? && |Field(body, "data").s| > 0 ==> e == Envelope(true, Undefined, Undefined)
    ensures !Nullish(body) && Field(body, "data").Arr? && |Field(body, "data").items| > 0 ==>
      var first := Field(body, "data").items[0];
      e == if Nullish(first) then Envelope(false, Arr([]), Undefined) else Envelope(true, Field(first, "sessions"), Undefined)
  {
    match Prop(body, "data")
    case Threw => Envelope(false, Arr([]), Undefined)
    case Got(groups) =>
      if groups.Arr? && |groups.items| > 0 then
        match Prop(groups.items[0], "sessions")
        case Threw => Envelope(false, Arr([]), Undefined)
        case Got(sessions) => Envelope(true, sessions, Undefined)
      else if groups.Str? && |groups.s| > 0 then Envelope(true, Undefined, Undefined)
      else Envelope(true, Arr([]), Undefined)
  }

  /** The envelope a getter returns for the upstream's reply. */
  function Fetch(r: Resource, reply: Reply): (e: Envelope)
    ensures e.message == Undefined
    ensures !e.success ==> e.data == EmptyData(r)
    ensures !Accepted(reply) ==> !e.success
    ensures Unwraps(r) ==> (e.success <==> Accepted(reply) && !Nullish(reply.body))
    ensures Unwraps(r) && e.success ==> e.data == Field(reply.body, "data")
    ensures (r.FinalExam? || r.Statistics?) ==> (e.success <==> Accepted(reply))
    ensures (r.FinalExam? || r.Statistics?) && e.success ==> e.data == reply.body
    ensures r.Groups? && Accepted(reply) ==> e == GroupsEnvelope(reply.body)
  {
    if !Accepted(reply) then Envelope(false, EmptyData(r), Undefined)
    else
      match r
      case Groups(_) => GroupsEnvelope(reply.body)
      case FinalExam(_, _) => Envelope(true, reply.body, Undefined)
      case Statistics(_, _) => Envelope(true, reply.body, Undefined)
      case _ =>
        match Prop(reply.body, "data")
        case Threw => Envelope(false, Arr([]), Undefined)
        case Got(d) => Envelope(true, d, Undefined)
  }

  /** A list body `{data: [a, b]}` reaches the caller as the bare two-element list, in order. */
  lemma UnwrapKeepsOrder(r: Resource, a: Json, b: Json, status: int)
    requires Unwraps(r) && 200 <= status < 300
    ensures Fetch(r, Response(status, Obj(map["data" := Arr([a, b])]))) == Envelope(true, Arr([a, b]), Undefined)
  {
  }

  /** A 401 on a data call reports failure with the empty default and no message at all. */
  lemma UnauthorizedGetter(r: Resource, body: Json)
    ensures Fetch(r, Response(401, body)) == Envelope(false, EmptyData(r), Undefined)
  {
  }

  // ----- Mutations -----

  /** The three write operations and their request payloads. */
  datatype Mutation = UpdatePassword(fields: Json) | UpdateAvatar(image: Json) | SendMessage(payload: Json)

  /** A mutation either answers without a request, sends one, or throws before sending. */
  datatype MutationCall = NotSent(result: Envelope) | Sent(request: Request, result: Envelope) | Crashed

  const UserNotFound := "User not found"

  function FallbackText(m: Mutation): string
  {
    match m
    case UpdatePassword(_) => "Failed to update password"
    case UpdateAvatar(_) => "Failed to update avatar"
    case SendMessage(_) => "Failed to send message"
  }

  /** The envelope of a sent mutation: the whole body on success, the body's message or the fallback on failure. */
  function MutationResult(m: Mutation, reply: Reply): (e: Envelope)
    ensures e.success <==> Accepted(reply)
    ensures e.success ==> e.data == reply.body && e.message == Undefined
    ensures !e.success ==> e.data == Undefined && Truthy(e.message)
    ensures !e.success && reply.Response? && Truthy(Field(reply.body, "message")) ==> e.message == Field(reply.body, "message")
    ensures !e.success && (reply.NoResponse? || !Truthy(Field(reply.body, "message"))) ==> e.message == Str(FallbackText(m))
  {
    if Accepted(reply) then Envelope(true, reply.body, Undefined)
    else Envelope(false, Undefined, FailureMessage(reply, FallbackText(m)))
  }

  /** The URL of a profile update for the signed-in guardian's id. */
  function ProfileUrl(id: Json, m: Mutation): string
    requires !m.SendMessage?
  {
    ApiUrl + "/guardian/guardians/" + JsString(id) + (if m.UpdatePassword? then "/update-password" else "/update-avatar")
  }

  function MutationBody(m: Mutation): Json
  {
    match m
    case UpdatePassword(fields) => fields
    case UpdateAvatar(image) => Obj(map["avatar" := image])
    case SendMessage(payload) => payload
  }

  /**
   * `updatePassword`, `updateAvatar` and `sendMessage`. The profile updates
   * first read the `user` cookie: without it they answer at once, and a
   * cookie that does not parse throws outside their try block. A null user
   * throws on `user.id` inside the try block, so the call answers with the
   * fallback text and sends nothing.
   */
  function Mutate(m: Mutation, jar: Jar, reply: Reply): (c: MutationCall)
    ensures m.SendMessage? ==> c.Sent? && c.request.verb == POST && c.request.url == ApiUrl + "/guardian/messages"
    ensures !m.SendMessage? && (UserCookie !in jar || !TextTruthy(jar[UserCookie].text)) ==>
      c == NotSent(Envelope(false, Undefined, Str(UserNotFound)))
    ensures c.Sent? && !m.SendMessage? ==>
      UserCookie in jar && ParseJson(jar[UserCookie].text).Got? &&
      c.request.verb == PUT &&
      c.request.url == ProfileUrl(Field(ParseJson(jar[UserCookie].text).value, "id"), m)
    ensures c.Sent? ==> c.request.body == MutationBody(m) && c.result == MutationResult(m, reply)
    ensures c.Sent? ==> c.request.headers == AuthHeaders(StoredToken(jar))
    ensures c.Crashed? <==>
      !m.SendMessage? && UserCookie in jar && TextTruthy(jar[UserCookie].text) && ParseJson(jar[UserCookie].text).Threw?
    ensures !m.SendMessage? && UserCookie in jar && TextTruthy(jar[UserCookie].text) && ParseJson(jar[UserCookie].text).Got? ==>
      (c.Sent? <==> !Nullish(ParseJson(jar[UserCookie].text).value))
    ensures (!m.SendMessage? && UserCookie in jar && TextTruthy(jar[UserCookie].text) && ParseJson(jar[UserCookie].text).Got? &&
             Nullish(ParseJson(jar[UserCookie].text).value)) ==> c == NotSent(Envelope(false, Undefined, Str(FallbackText(m))))
  {
    var headers := AuthHeaders(StoredToken(jar));
    match m
    case SendMessage(payload) =>
      Sent(Request(POST, ApiUrl + "/guardian/messages", headers, payload), MutationResult(m, reply))
    case _ =>
      if UserCookie !in jar || !TextTruthy(jar[UserCookie].text) then
        NotSent(Envelope(false, Undefined, Str(UserNotFound)))
      else
        match ParseJson(jar[UserCookie].text)
        case Threw => Crashed
        case Got(user) =>
          match Prop(user, "id")
          case Threw => NotSent(Envelope(false, Undefined, Str(FallbackText(m))))
          case Got(id) => Sent(Request(PUT, ProfileUrl(id, m), headers, MutationBody(m)), MutationResult(m, reply))
  }

  /** The envelope invariant: success carries no message, failure carries only an empty default. */
  lemma EnvelopeShapes(r: Resource, m: Mutation, jar: Jar, reply: Reply)
    ensures LoginEnvelope(reply).success ==> LoginEnvelope(reply).message == Undefined
    ensures Fetch(r, reply).success ==> Fetch(r, reply).message == Undefined
    ensures !Fetch(r, reply).success ==> Fetch(r, reply).data in {Arr([]), Null}
    ensures Mutate(m, jar, reply).Sent? && Mutate(m, jar, reply).result.success ==>
      Mutate(m, jar, reply).result.message == Undefined
    ensures Mutate(m, jar, reply).NotSent? || (Mutate(m, jar, reply).Sent? && !Mutate(m, jar, reply).result.success) ==>
      Mutate(m, jar, reply).result.data == Undefined
  {
  }
}
