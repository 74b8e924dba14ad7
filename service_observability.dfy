/**
 How the service's envelopes and log records meet the logging configuration: the envelope's
 status, once it becomes the HTTP status, selects the request log's level, and the service's
 own records pass or fail the logger's minimum level.
 */
module ServiceObservability {
  import opened Wrappers
  import opened StatusCodes
  import opened EnvConfig
  import opened Logger
  import opened RequestLogger
  import opened UserService

  /** Not-found envelopes are logged as warnings and thrown errors as errors; both are RFC 9110 errors. */
  lemma FailureStatusSelectsLevel(o: Outcome<seq<User>>, id: int, p: Outcome<User>)
    ensures FindAll(o).response.Failure? ==>
              var s := FindAll(o).response.statusCode;
              && GetLogLevel(s) == (if o.Threw? then Error else Warn)
              && (if o.Threw? then IsServerError(s) else IsClientError(s))
    ensures FindById(id, p).response.Failure? ==>
              var s := FindById(id, p).response.statusCode;
              && GetLogLevel(s) == (if p.Threw? then Error else Warn)
              && (if p.Threw? then IsServerError(s) else IsClientError(s))
  {
  }

  /**
   In every environment the record carrying a thrown error's message, from findAll or from
   findById, is written; the "Attempting ..." debug record is written exactly outside production.
   */
  lemma ErrorRecordAlwaysEmitted(env: Env, e: RepoError, id: int)
    ensures FindAll(Threw(e)).log[1] in Emitted(MinLevel(env), FindAll(Threw(e)).log)
    ensures FindAll(Threw(e)).log[0] in Emitted(MinLevel(env), FindAll(Threw(e)).log)
            <==> !env.IsProduction()
    ensures FindById(id, Threw(e)).log[1] in Emitted(MinLevel(env), FindById(id, Threw(e)).log)
    ensures FindById(id, Threw(e)).log[0] in Emitted(MinLevel(env), FindById(id, Threw(e)).log)
            <==> !env.IsProduction()
  {
    var log := FindAll(Threw(e)).log;
    assert log[1] in log && log[0] in log;
    assert log[0] != log[1];
    var log' := FindById(id, Threw(e)).log;
    assert log'[1] in log' && log'[0] in log';
    assert log'[0] != log'[1];
  }

  /**
   The service's own error records carry the stack in production too: the record is logged at
   error level, which passes production's "info" minimum, and its fields hold `error.stack`.
   */
  lemma ProductionKeepsServiceStack(m: Option<string>, st: string, id: int)
    ensures var log := FindAll(Threw(Raised(m, Some(st)))).log;
            && log[1] in Emitted(MinLevel(Env(Production)), log)
            && "stack" in log[1].fields && log[1].fields["stack"] == Text(st)
    ensures var log := FindById(id, Threw(Raised(m, Some(st)))).log;
            && log[1] in Emitted(MinLevel(Env(Production)), log)
            && "stack" in log[1].fields && log[1].fields["stack"] == Text(st)
  {
    ErrorRecordAlwaysEmitted(Env(Production), Raised(m, Some(st)), id);
  }
}
