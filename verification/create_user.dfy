/** The administrator's create-user endpoint (`src/app/api/create-user/route.js`).
    The parsed body and the outcomes of the two service calls are inputs. */
module CreateUser {
  import opened Options
  import opened Text
  import opened Identity

  /** The JSON body; a body that does not parse throws with a message. */
  datatype RequestBody =
    | Unparsable(message: string)
    | Body(email: Option<string>, password: Option<string>, fullName: Option<string>, companyId: Option<string>)

  datatype CreateOutcome = Created(userId: UserId) | AuthFailed(message: string)
  datatype UpsertOutcome = Upserted | UpsertFailed(message: string)

  /** The identity service call: a pre-confirmed account carrying the full name. */
  datatype CreateRequest = CreateRequest(email: string, password: string, emailConfirmed: bool, fullName: string)

  /** The `profiles` upsert, keyed (on conflict) by `id`. */
  datatype ProfileUpsert = ProfileUpsert(id: UserId, fullName: string, role: string, companyId: string)

  datatype ResponseBody = ErrorBody(error: string) | SuccessBody

  datatype Response = Response(status: int, body: ResponseBody)

  /** Everything the handler did: the calls it made and its response. */
  datatype Trace = Trace(create: Option<CreateRequest>, upsert: Option<ProfileUpsert>, response: Response)

  const MissingFields: string := "Missing fields"
  const UserExists: string := "User already exists"
  const AlreadyRegistered: string := "already registered"
  const Failed: string := "Failed"

  predicate Complete(b: RequestBody) {
    b.Body? && Truthy(b.email) && Truthy(b.password) && Truthy(b.fullName) && Truthy(b.companyId)
  }

  /** The catch block: `err.message || 'Failed'` with status 500. */
  function ServerError(message: string): (r: Response)
    ensures r.status == 500 && r.body.ErrorBody? && r.body.error != []
    ensures message != [] ==> r.body.error == message
  {
    Response(500, ErrorBody(if message != [] then message else Failed))
  }

  function Post(body: RequestBody, create: CreateOutcome, upsert: UpsertOutcome): (t: Trace)
    // every answer is one of four statuses, and every error names itself
    ensures t.response.status in {200, 400, 409, 500}
    ensures t.response.status != 200 ==> t.response.body.ErrorBody? && t.response.body.error != []
    // a body that is not JSON throws inside the handler and is caught as a server error
    ensures body.Unparsable? ==> t == Trace(None, None, ServerError(body.message))
    // an incomplete body is refused before any account is created
    ensures body.Body? && !Complete(body) ==>
              t.response == Response(400, ErrorBody(MissingFields)) && t.create.None?
    ensures t.create.Some? <==> Complete(body)
    ensures t.create.Some? ==>
              t.create.value == CreateRequest(body.email.value, body.password.value, true, body.fullName.value)
    // a duplicate account is a conflict; any other creation error is a server error, without upsert
    ensures Complete(body) && create.AuthFailed? && Includes(create.message, AlreadyRegistered) ==>
              t.response == Response(409, ErrorBody(UserExists))
    ensures Complete(body) && create.AuthFailed? && !Includes(create.message, AlreadyRegistered) ==>
              t.response == ServerError(create.message)
    // the profile row is written only for a created account, as a plain user of the given company
    ensures t.upsert.Some? <==> Complete(body) && create.Created?
    ensures t.upsert.Some? ==>
              t.upsert.value == ProfileUpsert(create.userId, body.fullName.value, UserRole, body.companyId.value)
    ensures t.upsert.Some? && upsert.UpsertFailed? ==> t.response == ServerError(upsert.message)
    // success exactly when both calls succeeded
    ensures t.response.status == 200 <==> Complete(body) && create.Created? && upsert.Upserted?
    ensures t.response.status == 200 ==> t.response.body == SuccessBody
  {
    match body
    case Unparsable(message) => Trace(None, None, ServerError(message))
    case Body(email, password, fullName, companyId) =>
      if !Complete(body) then Trace(None, None, Response(400, ErrorBody(MissingFields)))
      else
        var request := CreateRequest(email.value, password.value, true, fullName.value);
        match create
        case AuthFailed(message) =>
          if Includes(message, AlreadyRegistered) then Trace(Some(request), None, Response(409, ErrorBody(UserExists)))
          else Trace(Some(request), None, ServerError(message))
        case Created(userId) =>
          var row := ProfileUpsert(userId, fullName.value, UserRole, companyId.value);
          match upsert
          case UpsertFailed(message) => Trace(Some(request), Some(row), ServerError(message))
          case Upserted => Trace(Some(request), Some(row), Response(200, SuccessBody))
  }

  /** Accounts created through this endpoint are never administrators. */
  lemma NeverGrantsAdmin(body: RequestBody, create: CreateOutcome, upsert: UpsertOutcome)
    ensures var t := Post(body, create, upsert);
            t.upsert.Some? ==> t.upsert.value.role != AdminRole
  {
    assert UserRole[0] != AdminRole[0];
  }
}
