/** The catalogue query behind the resolver: it is skipped for users without
    any read permission, a 403 answer counts as an empty catalogue, and the
    retry and logging predicates spare 403s. */
module ModuleFetch {
  import opened Wrappers
  import opened AccessTypes
  import opened ModulesMap
  import Js

  /** A failed request: the HTTP status of the response, if there was one,
      and the error's message. */
  datatype FetchError = FetchError(status: Option<int>, message: string)

  /** What the query function produced, and whether it issued the request. */
  datatype QueryOutcome = QueryOutcome(result: Result<seq<Module>, FetchError>, requested: bool)

  /** `permissions?.some(p => p.canRead === true) ?? false` */
  function UserHasAnyReadPermission(user: Option<User>): bool {
    match EffectivePermissions(user)
    case None => false
    case Some(ps) => AnyRead(ps)
  }

  /** The query's `enabled` flag: the resolver's access gate. */
  function Enabled(user: Option<User>): (r: bool)
    ensures r <==> HasModuleAccess(user)
  {
    user.Some? && UserHasAnyReadPermission(user)
  }

  /** `axiosError?.response?.status === 403`: the status alone decides, so a
      failure without a response is never a 403, whatever its message. */
  predicate IsForbidden(e: FetchError): (r: bool)
    ensures e.status.None? ==> !r
    ensures r <==> e.status == Some(403)
  {
    e.status == Some(403)
  }

  /** The query function; `fetched` is what `fetchModules()` would yield. */
  function QueryFn(user: Option<User>, fetched: Result<seq<Module>, FetchError>): (r: QueryOutcome)
    ensures !UserHasAnyReadPermission(user) ==> r == QueryOutcome(Success([]), false)
    ensures UserHasAnyReadPermission(user) ==> r.requested
    ensures r.result.Failure? <==> r.requested && fetched.Failure? && !IsForbidden(fetched.error)
    ensures r.result.Failure? ==> r.result == fetched
    ensures r.requested && fetched.Success? ==> r.result == fetched
  {
    if !UserHasAnyReadPermission(user) then QueryOutcome(Success([]), false)
    else match fetched
      case Success(mods) => QueryOutcome(Success(mods), true)
      case Failure(e) =>
        if IsForbidden(e) then QueryOutcome(Success([]), true)
        else QueryOutcome(Failure(e), true)
  }

  /** The query's `retry` predicate: a 403 is never retried; any other
      failure is retried after the first and the second failure only, so a
      request is tried at most three times. */
  function Retry(failureCount: int, e: FetchError): (r: bool)
    ensures IsForbidden(e) ==> !r
    ensures failureCount >= 2 ==> !r
    ensures !IsForbidden(e) && failureCount < 2 ==> r
  {
    if IsForbidden(e) then false else failureCount < 2
  }

  /** `useUpdateModule`'s `onError`: the error is logged exactly when
      neither `403` nor `Forbidden` occurs anywhere in its message. */
  function ShouldLogUpdateError(message: string): (r: bool)
    ensures r <==> forall i :: !Js.OccursAt(message, "403", i) && !Js.OccursAt(message, "Forbidden", i)
  {
    !Js.Includes(message, "403") && !Js.Includes(message, "Forbidden")
  }

  /** The fetch gate is the resolver's access gate. */
  lemma FetchGateIsAccessGate(user: Option<User>)
    ensures UserHasAnyReadPermission(user) == HasModuleAccess(user)
    ensures Enabled(user) == HasModuleAccess(user)
    ensures !Enabled(user) ==> QueryFn(user, Failure(FetchError(None, ""))) == QueryOutcome(Success([]), false)
  {
  }

  /** A 403 is indistinguishable from a successful fetch of no modules. */
  lemma ForbiddenIsEmptyCatalogue(user: Option<User>, e: FetchError)
    requires IsForbidden(e)
    ensures QueryFn(user, Failure(e)) == QueryFn(user, Success([]))
  {
  }

  /** Any message that mentions `403` is kept out of the log, such as the
      one a client library gives a 403 response. */
  lemma {:induction false} MentionOf403NotLogged(prefix: string, suffix: string)
    ensures !ShouldLogUpdateError(prefix + "403" + suffix)
    ensures !ShouldLogUpdateError("Request failed with status code 403")
  {
    var s := prefix + "403" + suffix;
    assert s[|prefix|..|prefix| + 3] == "403";
    assert Js.OccursAt(s, "403", |prefix|);
    var axios := "Request failed with status code 403";
    assert axios == "Request failed with status code " + "403" + "";
    assert Js.OccursAt(axios, "403", 32);
  }

  /** The same for any message that mentions `Forbidden`. */
  lemma {:induction false} MentionOfForbiddenNotLogged(prefix: string, suffix: string)
    ensures !ShouldLogUpdateError(prefix + "Forbidden" + suffix)
  {
    var s := prefix + "Forbidden" + suffix;
    assert s[|prefix|..|prefix| + 9] == "Forbidden";
    assert Js.OccursAt(s, "Forbidden", |prefix|);
  }
}
