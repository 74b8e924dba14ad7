/**
 The user lookup service: `findAll` and `findById` turn one outcome of the user repository
 (a value, an absent value, or a thrown error) into a `ServiceResponse` envelope, logging as
 they go. Both are total: every outcome, thrown errors included, yields one envelope.
 */
module UserService {
  import opened Wrappers
  import opened JsText
  import opened StatusCodes
  import opened Logger

  /** A user record; `name` is the one field the service reads. */
  datatype User = User(name: string)

  /**
   What the repository's promise rejected with: a non-null value whose `message` and `stack`
   may each be undefined (an `Error` has a message; a thrown string has neither), or `null` or
   `undefined` itself.
   */
  datatype RepoError = Raised(message: Option<string>, stack: Option<string>) | Nullish

  /** `${error?.message}`: the message, or "undefined" when there is none. */
  function MessageText(e: RepoError): (t: string)
    ensures e.Raised? && e.message.Some? ==> t == e.message.value
    ensures e.Nullish? || e.message.None? ==> t == "undefined"
  {
    if e.Raised? && e.message.Some? then e.message.value else "undefined"
  }

  /** What one awaited repository call produced. */
  datatype Outcome<T> = Found(value: T) | Absent | Threw(error: RepoError)

  /**
   The envelope. `Failure` carries the payload it was built with (`null` is None); `Success`
   carries no status because its default is defined outside this model.
   */
  datatype ServiceResponse<T> =
    | Success(message: string, responseObject: T)
    | Failure(message: string, failureObject: Option<T>, statusCode: int)

  /** The envelope an operation returns and the logger calls it makes, in order. */
  datatype Call<T> = Call(response: ServiceResponse<T>, log: seq<LogRecord>)

  const USERS_FOUND: string := "Users found"
  const NO_USERS_FOUND: string := "No Users found"
  const RETRIEVE_USERS_ERROR: string := "An error occurred while retrieving users."
  const USER_FOUND: string := "User found"
  const USER_NOT_FOUND: string := "User not found"
  const FIND_USER_ERROR: string := "An error occurred while finding user."

  /**
   `{ error: error?.message, stack: error?.stack }`: an undefined message or stack leaves no
   field in the written record.
   */
  function ErrorFields(e: RepoError): (m: map<string, FieldValue>)
    ensures "error" in m <==> e.Raised? && e.message.Some?
    ensures "error" in m ==> m["error"] == Text(e.message.value)
    ensures "stack" in m <==> e.Raised? && e.stack.Some?
    ensures "stack" in m ==> m["stack"] == Text(e.stack.value)
    ensures m.Keys <= {"error", "stack"}
  {
    match e
    case Nullish => map[]
    case Raised(message, stack) =>
      var m := if message.Some? then map["error" := Text(message.value)] else map[];
      if stack.Some? then m["stack" := Text(stack.value)] else m
  }

  /** How a call of an async operation settles: with a value, or by rejecting. */
  datatype Settled<T> = Resolved(call: Call<T>) | Rejected(log: seq<LogRecord>)

  const ATTEMPT_ALL: string := "Attempting to retrieve all users"
  const ATTEMPT_BY_ID: string := "Attempting to find user by ID"

  /**
   `findAll`, with the catch block reading the error's message and stack only when the
   rejection value is not `null` or `undefined` (see FindAllAsWritten for the code as written).
   */
  function FindAll(outcome: Outcome<seq<User>>): (c: Call<seq<User>>)
    ensures c.response.Success? <==> outcome.Found? && outcome.value != []
    ensures c.response.Success? ==> c.response == Success(USERS_FOUND, outcome.value)
    ensures outcome.Absent? || outcome == Found([]) ==>
              c.response == Failure(NO_USERS_FOUND, None, NOT_FOUND)
    ensures outcome.Threw? ==> c.response == Failure(RETRIEVE_USERS_ERROR, None, INTERNAL_SERVER_ERROR)
    ensures |c.log| == 2 && c.log[0] == LogRecord(Debug, map[], ATTEMPT_ALL)
    ensures c.log[1].level == if outcome.Threw? then Error else Info
    ensures outcome.Threw? ==>
              c.log[1].fields == ErrorFields(outcome.error)
              && c.log[1].msg == "Failed to retrieve users: " + MessageText(outcome.error)
    ensures outcome.Found? && outcome.value != [] ==>
              c.log[1] == LogRecord(Info, map[], "Successfully retrieved " + Decimal(|outcome.value|) + " users")
    ensures outcome.Absent? || outcome == Found([]) ==>
              c.log[1] == LogRecord(Info, map[], "No users found in database")
  {
    var attempt := LogRecord(Debug, map[], ATTEMPT_ALL);
    match outcome
    case Threw(error) =>
      Call(Failure(RETRIEVE_USERS_ERROR, None, INTERNAL_SERVER_ERROR),
           [attempt, LogRecord(Error, ErrorFields(error), "Failed to retrieve users: " + MessageText(error))])
    case Absent =>
      Call(Failure(NO_USERS_FOUND, None, NOT_FOUND),
           [attempt, LogRecord(Info, map[], "No users found in database")])
    case Found(users) =>
      if |users| == 0 then
        Call(Failure(NO_USERS_FOUND, None, NOT_FOUND),
             [attempt, LogRecord(Info, map[], "No users found in database")])
      else
        Call(Success(USERS_FOUND, users),
             [attempt, LogRecord(Info, map[], "Successfully retrieved " + Decimal(|users|) + " users")])
  }

  /**
   `findById(id)`, with the catch block reading the error's message and stack only when the
   rejection value is not `null` or `undefined` (see FindByIdAsWritten for the code as written).
   */
  function FindById(id: int, outcome: Outcome<User>): (c: Call<User>)
    ensures c.response.Success? <==> outcome.Found?
    ensures outcome.Found? ==> c.response == Success(USER_FOUND, outcome.value)
    ensures outcome.Absent? ==> c.response == Failure(USER_NOT_FOUND, None, NOT_FOUND)
    ensures outcome.Threw? ==> c.response == Failure(FIND_USER_ERROR, None, INTERNAL_SERVER_ERROR)
    ensures |c.log| == 2
    ensures c.log[0] == LogRecord(Debug, map["userId" := Number(id)], ATTEMPT_BY_ID)
    ensures c.log[1].level == if outcome.Threw? then Error else Info
    ensures "userId" in c.log[1].fields && c.log[1].fields["userId"] == Number(id)
    ensures outcome.Found? ==>
              c.log[1] == LogRecord(Info, map["userId" := Number(id), "userName" := Text(outcome.value.name)],
                                    "Successfully retrieved user")
    ensures outcome.Absent? ==>
              c.log[1] == LogRecord(Info, map["userId" := Number(id)], "User not found with specified ID")
    ensures outcome.Threw? ==>
              c.log[1].fields == ErrorFields(outcome.error)["userId" := Number(id)]
              && c.log[1].msg == "Failed to find user with ID " + Decimal(id) + ": " + MessageText(outcome.error)
  {
    var attempt := LogRecord(Debug, map["userId" := Number(id)], ATTEMPT_BY_ID);
    match outcome
    case Threw(error) =>
      Call(Failure(FIND_USER_ERROR, None, INTERNAL_SERVER_ERROR),
           [attempt, LogRecord(Error, ErrorFields(error)["userId" := Number(id)],
                               "Failed to find user with ID " + Decimal(id) + ": " + MessageText(error))])
    case Absent =>
      Call(Failure(USER_NOT_FOUND, None, NOT_FOUND),
           [attempt, LogRecord(Info, map["userId" := Number(id)], "User not found with specified ID")])
    case Found(user) =>
      Call(Success(USER_FOUND, user),
           [attempt, LogRecord(Info, map["userId" := Number(id), "userName" := Text(user.name)],
                               "Successfully retrieved user")])
  }

  /** Every failure envelope the service builds has a null payload and a 404 or 500 status. */
  lemma FailuresCarryNullPayload(o: Outcome<seq<User>>, id: int, p: Outcome<User>)
    ensures FindAll(o).response.Failure? ==>
              FindAll(o).response.failureObject.None? && FindAll(o).response.statusCode in {NOT_FOUND, INTERNAL_SERVER_ERROR}
    ensures FindById(id, p).response.Failure? ==>
              FindById(id, p).response.failureObject.None? && FindById(id, p).response.statusCode in {NOT_FOUND, INTERNAL_SERVER_ERROR}
  {
  }

  /** The envelope's message is one of three constants: no error text reaches it. */
  lemma FindAllMessageIsConstant(o: Outcome<seq<User>>)
    ensures FindAll(o).response.message in {USERS_FOUND, NO_USERS_FOUND, RETRIEVE_USERS_ERROR}
  {
  }

  /** The envelope's message is one of three constants, whatever the id or error. */
  lemma FindByIdMessageIsConstant(id: int, o: Outcome<User>)
    ensures FindById(id, o).response.message in {USER_FOUND, USER_NOT_FOUND, FIND_USER_ERROR}
  {
  }

  /** Two thrown errors give the same envelope; they differ only in what is logged. */
  lemma FindAllHidesError(e1: RepoError, e2: RepoError)
    ensures FindAll(Threw(e1)).response == FindAll(Threw(e2)).response
    ensures MessageText(e1) != MessageText(e2) ==> FindAll(Threw(e1)).log != FindAll(Threw(e2)).log
  {
    var prefix := "Failed to retrieve users: ";
    if FindAll(Threw(e1)).log == FindAll(Threw(e2)).log {
      assert MessageText(e1) == FindAll(Threw(e1)).log[1].msg[|prefix|..];
      assert MessageText(e2) == FindAll(Threw(e2)).log[1].msg[|prefix|..];
    }
  }

  /** For any ids and errors, a thrown error gives the same envelope; the log keeps the id. */
  lemma FindByIdHidesError(id1: int, id2: int, e1: RepoError, e2: RepoError)
    ensures FindById(id1, Threw(e1)).response == FindById(id2, Threw(e2)).response
    ensures id1 != id2 ==> FindById(id1, Threw(e1)).log != FindById(id2, Threw(e2)).log
  {
    if id1 != id2 {
      assert FindById(id1, Threw(e1)).log[0].fields["userId"] != FindById(id2, Threw(e2)).log[0].fields["userId"];
    }
  }

  /**
   `findAll` as written: the catch block reads `error.message` unguarded, which on a `null` or
   `undefined` rejection throws a TypeError out of the catch block, so the promise rejects
   after the debug record and no envelope is returned. On every other outcome it is FindAll.
   */
  function FindAllAsWritten(outcome: Outcome<seq<User>>): (s: Settled<seq<User>>)
    ensures s.Rejected? <==> outcome == Threw(Nullish)
    ensures s.Rejected? ==> s.log == [LogRecord(Debug, map[], ATTEMPT_ALL)]
    ensures s.Resolved? ==> s.call == FindAll(outcome)
  {
    match outcome
    case Threw(Nullish) => Rejected([LogRecord(Debug, map[], ATTEMPT_ALL)])
    case _ => Resolved(FindAll(outcome))
  }

  /** `findById(id)` as written: the catch block's unguarded `error.message`, as in FindAllAsWritten. */
  function FindByIdAsWritten(id: int, outcome: Outcome<User>): (s: Settled<User>)
    ensures s.Rejected? <==> outcome == Threw(Nullish)
    ensures s.Rejected? ==> s.log == [LogRecord(Debug, map["userId" := Number(id)], ATTEMPT_BY_ID)]
    ensures s.Resolved? ==> s.call == FindById(id, outcome)
  {
    match outcome
    case Threw(Nullish) => Rejected([LogRecord(Debug, map["userId" := Number(id)], ATTEMPT_BY_ID)])
    case _ => Resolved(FindById(id, outcome))
  }

  /**
   A repository rejecting with `null` makes `findAll` as written reject instead of returning the
   500 envelope that FindAll returns for it.
   */
  lemma NullRejectionEscapesFindAll()
    ensures FindAllAsWritten(Threw(Nullish)).Rejected?
    ensures FindAll(Threw(Nullish)).response == Failure(RETRIEVE_USERS_ERROR, None, INTERNAL_SERVER_ERROR)
  {
  }

  /** The same for `findById`, whatever the id. */
  lemma NullRejectionEscapesFindById(id: int)
    ensures FindByIdAsWritten(id, Threw(Nullish)).Rejected?
    ensures FindById(id, Threw(Nullish)).response == Failure(FIND_USER_ERROR, None, INTERNAL_SERVER_ERROR)
  {
  }
}
