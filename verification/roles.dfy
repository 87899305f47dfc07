/** The per-endpoint role gates of the message controller.

    Each handler compares `user.role.name` with a hard-coded literal (one
    endpoint accepts either of two) before it does anything else. `Gate`
    transcribes those comparisons endpoint by endpoint, with their error
    texts; `RequiredRoles` is the same policy written as one declarative
    table, and `Gate`'s contract says the two agree. */
module Roles {
  import opened Wrappers
  import opened Records

  datatype Endpoint =
    | RespondToLeave        // PUT /respond-to-leave-request
    | ViewAllLeaveRequests  // GET /view-all-leave-requests
    | ShareLeaveRequest     // POST /share-leave-request
    | PerformEvaluation     // POST /perform-evaluation
    | ListEvaluations       // GET /evaluations
    | SubmitEarlyClosure    // POST /submit-early-closure
    | EarlyClosureHos       // PUT /respond-early-closure/{id}/hos
    | EarlyClosureHr        // PUT /respond-early-closure/{id}/hr
    | EarlyClosureDirector  // PUT /respond-early-closure/{id}/director
    | SubmitStudyLeave      // POST /submit-study-leave
    | StudyLeaveHos         // PUT /respond-study-leave/{id}/hos
    | StudyLeaveAccountant  // PUT /respond-study-leave/{id}/accountant
    | StudyLeaveHr          // PUT /respond-study-leave/{id}/hr
    | StudyLeaveDirector    // PUT /respond-study-leave/{id}/director

  const Admin: string := "admin"
  const Hr: string := "hr"
  const Hos: string := "hos"
  const Staff: string := "staff"

  /** The role-to-endpoint table: the role names each endpoint admits. */
  function RequiredRoles(e: Endpoint): set<string>
  {
    match e
    case RespondToLeave => {Admin}
    case ViewAllLeaveRequests => {Hr}
    case ShareLeaveRequest => {Hos}
    case PerformEvaluation => {Hos}
    case ListEvaluations => {Hr, Admin}
    case SubmitEarlyClosure => {Staff}
    case EarlyClosureHos => {Hos}
    case EarlyClosureHr => {Hr}
    case EarlyClosureDirector => {Admin}
    case SubmitStudyLeave => {Staff}
    case StudyLeaveHos => {Hos}
    case StudyLeaveAccountant => {Admin}
    case StudyLeaveHr => {Hr}
    case StudyLeaveDirector => {Admin}
  }

  predicate Admits(e: Endpoint, caller: User)
  {
    caller.role.Some? && caller.role.value in RequiredRoles(e)
  }

  /** `if user.role.name != role: raise HTTPException(401, …)`. A user
      without a role fails on reading `.name` of None. */
  function RequireRole(caller: User, role: string, denial: string): (r: Result<()>)
    ensures r.Ok? <==> caller.role == Some(role)
  {
    match caller.role
    case None => Err("'NoneType' object has no attribute 'name'")
    case Some(name) => if name != role then Err(denial) else Ok(())
  }

  /** The check each handler performs before touching the store. */
  function Gate(e: Endpoint, caller: User): (r: Result<()>)
    ensures r.Ok? <==> Admits(e, caller)
  {
    match e
    case RespondToLeave =>
      RequireRole(caller, "admin", "Unauthorized to respond to leave. Must be an admin")
    case ViewAllLeaveRequests =>
      RequireRole(caller, "hr", "Unauthorized. Must be hr")
    case ShareLeaveRequest =>
      RequireRole(caller, "hos", "Not authorized to share leave request. must be head of section")
    case PerformEvaluation =>
      RequireRole(caller, "hos", "Unauthorized. Must be head of section")
    case ListEvaluations =>
      (match caller.role
       case None => Err("'NoneType' object has no attribute 'name'")
       case Some(name) =>
         if name !in ["hr", "admin"] then Err("Unauthorized. Must be hr or admin") else Ok(()))
    case SubmitEarlyClosure =>
      RequireRole(caller, "staff", "Unauthorized. Must be a teacher")
    case EarlyClosureHos =>
      RequireRole(caller, "hos", "Unauthorized. Must be head of section")
    case EarlyClosureHr =>
      RequireRole(caller, "hr", "Unauthorized. Must be HR")
    case EarlyClosureDirector =>
      RequireRole(caller, "admin", "Unauthorized. Must be Director")
    case SubmitStudyLeave =>
      RequireRole(caller, "staff", "Unauthorized. Must be a staff")
    case StudyLeaveHos =>
      RequireRole(caller, "hos", "Unauthorized. Must be a head teacher")
    case StudyLeaveAccountant =>
      RequireRole(caller, "admin", "Unauthorized. Must be an accountant")
    case StudyLeaveHr =>
      RequireRole(caller, "hr", "Unauthorized. Must be HR")
    case StudyLeaveDirector =>
      RequireRole(caller, "admin", "Unauthorized. Must be Director")
  }

  /** Every endpoint names exactly one role, except the evaluation listing,
      which names two; a user without a role is admitted nowhere. */
  lemma {:induction false} GateIsSingleRoleExceptListing(e: Endpoint, caller: User)
    ensures |RequiredRoles(e)| == (if e == ListEvaluations then 2 else 1)
    ensures caller.role.None? ==> Gate(e, caller).Err?
  {
    if e == ListEvaluations {
      assert RequiredRoles(e) == {Hr} + {Admin};
    }
  }

  /** Staff may only submit: every response stage and listing is closed to them. */
  lemma StaffOnlySubmits(e: Endpoint, caller: User)
    requires caller.role == Some(Staff)
    ensures Gate(e, caller).Ok? <==> e == SubmitEarlyClosure || e == SubmitStudyLeave
  {
  }

  /** A handler whose body (in message/utils.py) lies outside the model: the
      gate runs first, a rejected caller never reaches the body, and an
      admitted caller gets whatever the body does. */
  function RunGated<S>(e: Endpoint, caller: User, s: S, body: S -> Result<S>): (r: Result<S>)
    ensures !Admits(e, caller) ==> r.Err? && r == Gate(e, caller).PropagateFailure()
    ensures Admits(e, caller) ==> r == body(s)
  {
    var _ :- Gate(e, caller);
    body(s)
  }
}
