/**
 * The health check of the two FastAPI applications (backend/maelstro/main.py
 * and its earlier copy backend/main.py, which share the same code): a
 * countdown kept in the application state makes the first five calls
 * report "unhealthy" with status 404, and every later call "healthy".
 */
module Health {
  import opened Wrappers
  import opened Json

  /** The countdown the application starts with. */
  const InitialCountdown: int := 5

  /** The JSON body of a health answer; `user` is always `None`. */
  datatype HealthBody = HealthBody(status: string, user: Option<string>)

  /** One call on a countdown: the countdown after it and whether the call reports healthy. */
  function Step(countdown: int): (r: (int, bool))
    ensures r.1 <==> countdown <= 0
    ensures countdown > 0 ==> r.0 == countdown - 1
    ensures countdown <= 0 ==> r.0 == countdown
  {
    if countdown > 0 then (countdown - 1, false) else (countdown, true)
  }

  /** The countdown after `calls` calls. */
  function After(countdown: int, calls: nat): int
    decreases calls
  {
    if calls == 0 then countdown else After(Step(countdown).0, calls - 1)
  }

  /** From a non-negative start, the countdown after `n` calls is the start minus `n`, stopping at 0. */
  lemma {:induction false} AfterClamps(countdown: int, calls: nat)
    requires countdown >= 0
    ensures After(countdown, calls) == if calls <= countdown then countdown - calls else 0
    decreases calls
  {
    if calls > 0 {
      AfterClamps(Step(countdown).0, calls - 1);
    }
  }

  /** The `n`-th call of the application (counting from 1) is healthy exactly when `n` is at least 6. */
  lemma HealthyFromSixthCall(n: nat)
    requires n >= 1
    ensures Step(After(InitialCountdown, n - 1)).1 <==> n >= 6
  {
    AfterClamps(InitialCountdown, n - 1);
  }

  /** The countdown never goes below zero, and once a call is healthy every later one is. */
  lemma {:induction false} HealthyStaysHealthy(countdown: int, calls: nat)
    requires countdown >= 0
    ensures After(countdown, calls) >= 0
    ensures Step(countdown).1 ==> Step(After(countdown, calls)).1
    decreases calls
  {
    if calls > 0 {
      HealthyStaysHealthy(Step(countdown).0, calls - 1);
    }
  }

  /** The part of `app.state` the health check uses. */
  class App {
    var healthCountdown: int

    /** The application is created with the countdown at 5. */
    constructor ()
      ensures healthCountdown == InitialCountdown
    {
      healthCountdown := InitialCountdown;
    }

    /**
     * `health_check(response)`: while the countdown is positive, the call
     * decrements it and answers 404 "unhealthy"; afterwards it answers
     * "healthy" with the default status 200.
     */
    method HealthCheck() returns (body: HealthBody, statusCode: int)
      modifies this
      ensures (healthCountdown, body.status == "healthy") == Step(old(healthCountdown))
      ensures body.status == "healthy" || body.status == "unhealthy"
      ensures statusCode == if body.status == "healthy" then 200 else 404
      ensures body.user == None
    {
      var status := "healthy";
      statusCode := 200;
      if healthCountdown > 0 {
        healthCountdown := healthCountdown - 1;
        statusCode := 404;
        status := "unhealthy";
      }
      body := HealthBody(status, None);
    }
  }

  /** `root_page()`: the greeting `{"Hello": "World"}`. */
  function RootPage(): (r: Json)
    ensures r.JObj? && |r.fields| == 1 && r.fields[0] == ("Hello", JStr("World"))
  {
    JObj([("Hello", JStr("World"))])
  }
}
