/** routes/studentRoutes.js, routes/activityLogRoutes.js and
    routes/managerRoutes.js: each route is a verb, a path pattern, a middleware
    chain and a controller action. A request is dispatched to the first route
    whose verb and pattern match, and then runs the chain: `protect` first,
    then the route's role gates, then the action. */
module Routes {
  import opened Common
  import opened Store
  import Authentication
  import Authorization

  const ACCESS_DENIED := "Access denied"

  datatype Verb = GET | POST | PUT | DELETE

  /** The path patterns these routers use: "/", "/:id" and "/overdue/all". */
  datatype Pattern = Root | ById | OverdueAll

  /** A request path below the router's mount point. */
  datatype Target = AtRoot | AtId(id: Id) | AtOverdueAll

  /** One element of a middleware chain, before the action. */
  datatype Middleware =
    | Protect
    | StudentGate
    | FacilitatorGate
    | ManagerGate
    | RolesGate(roles: seq<string>)
      /** The inline handler of studentRoutes.js: a manager, or the student whose id is in the path. */
    | ManagerOrSelf

  /** The controller actions the three routers reach. */
  datatype Action =
    | CreateStudent | GetAllStudents | GetStudentById | UpdateStudent | DeleteStudent
    | CreateLog | GetAllLogs | GetOverdueLogs | GetLogById | UpdateLog | DeleteLog
    | CreateManager | GetAllManagers | GetManagerById | UpdateManager | DeleteManager

  datatype Route = Route(verb: Verb, pattern: Pattern, chain: seq<Middleware>, action: Action)

  datatype Request = Request(verb: Verb, target: Target, header: Field)

  /** How a request ends: no route, an action reached with `req.user`, or a
      response from the chain. */
  datatype Served = Unrouted | Handled(action: Action, user: Principal) | Refused(status: int, message: string)

  // ---------------------------------------------------------------------------
  // The three tables

  /** routes/studentRoutes.js. */
  const STUDENT_ROUTES: seq<Route> := [
    Route(POST, Root, [Protect, ManagerGate], CreateStudent),
    Route(GET, Root, [Protect, ManagerGate], GetAllStudents),
    Route(GET, ById, [Protect, ManagerOrSelf], GetStudentById),
    Route(PUT, ById, [Protect, ManagerOrSelf], UpdateStudent),
    Route(DELETE, ById, [Protect, ManagerGate], DeleteStudent)
  ]

  /** routes/activityLogRoutes.js. */
  const LOG_ROUTES: seq<Route> := [
    Route(POST, Root, [Protect, RolesGate([Authorization.FACILITATOR])], CreateLog),
    Route(GET, Root, [Protect, RolesGate([Authorization.MANAGER])], GetAllLogs),
    Route(GET, OverdueAll, [Protect, RolesGate([Authorization.MANAGER])], GetOverdueLogs),
    Route(GET, ById, [Protect], GetLogById),
    Route(PUT, ById, [Protect], UpdateLog),
    Route(DELETE, ById, [Protect, RolesGate([Authorization.MANAGER])], DeleteLog)
  ]

  /** routes/managerRoutes.js. */
  const MANAGER_ROUTES: seq<Route> := [
    Route(POST, Root, [Protect, RolesGate([Authorization.MANAGER])], CreateManager),
    Route(GET, Root, [Protect], GetAllManagers),
    Route(GET, ById, [Protect], GetManagerById),
    Route(PUT, ById, [Protect], UpdateManager),
    Route(DELETE, ById, [Protect], DeleteManager)
  ]

  // ---------------------------------------------------------------------------
  // Dispatch

  predicate Matches(p: Pattern, t: Target) {
    match p
    case Root => t.AtRoot?
    case ById => t.AtId?
    case OverdueAll => t.AtOverdueAll?
  }

  /** `req.params.id`, which only "/:id" binds. */
  function PathId(t: Target): Option<Id> {
    if t.AtId? then Some(t.id) else None
  }

  /** The chain authenticates first and nowhere else. */
  predicate Guarded(chain: seq<Middleware>) {
    |chain| >= 1 && chain[0] == Protect && Protect !in chain[1..]
  }

  /** Every route of a table authenticates first. */
  predicate AllGuarded(routes: seq<Route>) {
    forall i :: 0 <= i < |routes| ==> Guarded(routes[i].chain)
  }

  /** The position of the first route, in declaration order, that the
      request reaches; `|routes|` when there is none. */
  function Find(routes: seq<Route>, verb: Verb, t: Target): (i: nat)
    ensures i <= |routes|
    ensures i < |routes| ==> routes[i].verb == verb && Matches(routes[i].pattern, t)
    ensures forall j :: 0 <= j < i ==> !(routes[j].verb == verb && Matches(routes[j].pattern, t))
  {
    if routes == [] then 0
    else if routes[0].verb == verb && Matches(routes[0].pattern, t) then 0
    else
      var i := Find(routes[1..], verb, t);
      assert forall j :: 1 <= j < i + 1 ==> routes[j] == routes[1..][j - 1];
      i + 1
  }

  /** The inline rule of the student routes' GET and PUT "/:id". */
  function SelfRule(who: Principal, pathId: Option<Id>): (o: Outcome)
    ensures o.Next? <==> who.role == Authorization.MANAGER
                         || (who.role == Authorization.STUDENT && pathId == Some(who.id))
    ensures o.Next? ==> o.user == who
    ensures o.Respond? ==> o == Respond(403, ACCESS_DENIED)
  {
    if who.role == Authorization.MANAGER then Next(who)
    else if who.role == Authorization.STUDENT && pathId.Some? && who.id == pathId.value then Next(who)
    else Respond(403, ACCESS_DENIED)
  }

  /** One role gate, after `protect` has set `req.user`. */
  function Gate(m: Middleware, who: Principal, pathId: Option<Id>): Outcome
    requires m != Protect
  {
    match m
    case StudentGate => Authorization.StudentOnly(who)
    case FacilitatorGate => Authorization.FacilitatorOnly(who)
    case ManagerGate => Authorization.ManagerOnly(who)
    case RolesGate(roles) => Authorization.AuthorizeRoles(roles, who)
    case ManagerOrSelf => SelfRule(who, pathId)
  }

  /** The gates of a chain in order; the first refusal ends the request. */
  function Gates(gates: seq<Middleware>, who: Principal, pathId: Option<Id>): (o: Outcome)
    requires Protect !in gates
    ensures o.Next? ==> o.user == who
    ensures o.Respond? ==> o.status == 403
    ensures o.Next? <==> forall i :: 0 <= i < |gates| ==> Gate(gates[i], who, pathId).Next?
  {
    if gates == [] then Next(who)
    else
      var o := Gate(gates[0], who, pathId);
      if o.Respond? then o
      else
        var rest := Gates(gates[1..], who, pathId);
        assert forall i :: 1 <= i < |gates| ==> gates[1..][i - 1] == gates[i];
        rest
  }

  /** The request through the router: routing, then `protect`, then the gates. */
  function Serve(routes: seq<Route>, req: Request, verify: string -> Authentication.Verdict, users: map<Id, User>)
    : (s: Served)
    requires AllGuarded(routes)
    ensures s.Unrouted? <==> Find(routes, req.verb, req.target) == |routes|
    // No action runs for a request that `protect` refuses.
    ensures Find(routes, req.verb, req.target) < |routes|
            && Authentication.Protect(req.header, verify, users).Respond? ==>
              s == Refused(401, Authentication.Protect(req.header, verify, users).message)
    // Past `protect`, the gates of the route found decide.
    ensures Find(routes, req.verb, req.target) < |routes|
            && Authentication.Protect(req.header, verify, users).Next? ==>
              var route := routes[Find(routes, req.verb, req.target)];
              var who := Authentication.Protect(req.header, verify, users).user;
              var gates := Gates(route.chain[1..], who, PathId(req.target));
              s == if gates.Next? then Handled(route.action, who) else Refused(403, gates.message)
    ensures s.Refused? ==> s.status in {401, 403}
  {
    var i := Find(routes, req.verb, req.target);
    if i == |routes| then Unrouted
    else
      var chain := routes[i].chain;
      match Authentication.Protect(req.header, verify, users)
      case Respond(status, message) => Refused(status, message)
      case Next(who) =>
        match Gates(chain[1..], who, PathId(req.target))
        case Respond(status, message) => Refused(status, message)
        case Next(_) => Handled(routes[i].action, who)
  }

  // ---------------------------------------------------------------------------
  // Properties of the tables

  /** Every route of the three routers authenticates first. */
  lemma StudentRoutesGuarded()
    ensures AllGuarded(STUDENT_ROUTES)
  {
  }

  lemma LogRoutesGuarded()
    ensures AllGuarded(LOG_ROUTES)
  {
  }

  lemma ManagerRoutesGuarded()
    ensures AllGuarded(MANAGER_ROUTES)
  {
  }

  /** A request with valid credentials, as the user `protect` loads. */
  predicate AuthenticatesAs(req: Request, verify: string -> Authentication.Verdict, users: map<Id, User>, who: Principal) {
    Authentication.Protect(req.header, verify, users) == Next(who)
  }

  /** A request that `protect` lets through, on the first route matching it,
      ends as that route's gates decide. */
  lemma ServeAt(routes: seq<Route>, req: Request, verify: string -> Authentication.Verdict, users: map<Id, User>,
                who: Principal, i: nat)
    requires AllGuarded(routes) && AuthenticatesAs(req, verify, users, who)
    requires i < |routes| && routes[i].verb == req.verb && Matches(routes[i].pattern, req.target)
    requires forall j :: 0 <= j < i ==> !(routes[j].verb == req.verb && Matches(routes[j].pattern, req.target))
    ensures var g := Gates(routes[i].chain[1..], who, PathId(req.target));
            Serve(routes, req, verify, users) == if g.Next? then Handled(routes[i].action, who) else Refused(403, g.message)
  {
  }

  /** Student create, list and delete: only a manager reaches the action. */
  lemma StudentManagerRoutes(req: Request, verify: string -> Authentication.Verdict, users: map<Id, User>,
                             who: Principal)
    requires AuthenticatesAs(req, verify, users, who)
    requires (req.target.AtRoot? && req.verb in {GET, POST}) || (req.target.AtId? && req.verb == DELETE)
    ensures AllGuarded(STUDENT_ROUTES)
            && (Serve(STUDENT_ROUTES, req, verify, users).Handled? <==> who.role == Authorization.MANAGER)
  {
    StudentRoutesGuarded();
    var i := if req.verb == POST then 0 else if req.verb == GET then 1 else 4;
    ServeAt(STUDENT_ROUTES, req, verify, users, who, i);
    assert STUDENT_ROUTES[i].chain[1..] == [ManagerGate];
  }

  /** Student GET and PUT "/:id": a manager, or the student whose id is in the
      path; anyone else is refused with "Access denied". */
  lemma StudentByIdRule(req: Request, verify: string -> Authentication.Verdict, users: map<Id, User>,
                        who: Principal)
    requires AuthenticatesAs(req, verify, users, who)
    requires req.target.AtId? && req.verb in {GET, PUT}
    ensures AllGuarded(STUDENT_ROUTES)
            && var s := Serve(STUDENT_ROUTES, req, verify, users);
               (s.Handled? <==> who.role == Authorization.MANAGER
                                || (who.role == Authorization.STUDENT && who.id == req.target.id))
               && (!s.Handled? ==> s == Refused(403, ACCESS_DENIED))
  {
    StudentRoutesGuarded();
    var i := if req.verb == GET then 2 else 3;
    ServeAt(STUDENT_ROUTES, req, verify, users, who, i);
    assert STUDENT_ROUTES[i].chain[1..] == [ManagerOrSelf];
  }

  /** A facilitator never reads or updates a student record through these routes. */
  lemma FacilitatorNeverOnStudentById(req: Request, verify: string -> Authentication.Verdict,
                                      users: map<Id, User>, who: Principal)
    requires AuthenticatesAs(req, verify, users, who) && who.role == Authorization.FACILITATOR
    requires req.target.AtId? && req.verb in {GET, PUT}
    ensures AllGuarded(STUDENT_ROUTES) && Serve(STUDENT_ROUTES, req, verify, users) == Refused(403, ACCESS_DENIED)
  {
    StudentByIdRule(req, verify, users, who);
  }

  /** Only facilitators create logs. */
  lemma LogCreateRole(req: Request, verify: string -> Authentication.Verdict, users: map<Id, User>, who: Principal)
    requires AuthenticatesAs(req, verify, users, who)
    requires req.verb == POST && req.target.AtRoot?
    ensures AllGuarded(LOG_ROUTES)
            && (Serve(LOG_ROUTES, req, verify, users).Handled? <==> who.role == Authorization.FACILITATOR)
  {
    LogRoutesGuarded();
    ServeAt(LOG_ROUTES, req, verify, users, who, 0);
    assert LOG_ROUTES[0].chain[1..] == [RolesGate([Authorization.FACILITATOR])];
  }

  /** Only managers list all logs, list overdue logs or delete a log. */
  lemma LogManagerRoutes(req: Request, verify: string -> Authentication.Verdict, users: map<Id, User>,
                         who: Principal)
    requires AuthenticatesAs(req, verify, users, who)
    requires (req.verb == GET && (req.target.AtRoot? || req.target.AtOverdueAll?))
             || (req.verb == DELETE && req.target.AtId?)
    ensures AllGuarded(LOG_ROUTES)
            && (Serve(LOG_ROUTES, req, verify, users).Handled? <==> who.role == Authorization.MANAGER)
  {
    LogRoutesGuarded();
    var i := if req.verb == DELETE then 5 else if req.target.AtRoot? then 1 else 2;
    ServeAt(LOG_ROUTES, req, verify, users, who, i);
    assert LOG_ROUTES[i].chain[1..] == [RolesGate([Authorization.MANAGER])];
  }

  /** Reading and updating one log have no role gate: every authenticated
      user reaches the action, which checks ownership itself. */
  lemma LogOpenRoutes(req: Request, verify: string -> Authentication.Verdict, users: map<Id, User>, who: Principal)
    requires AuthenticatesAs(req, verify, users, who)
    requires req.verb in {GET, PUT} && req.target.AtId?
    ensures AllGuarded(LOG_ROUTES)
            && Serve(LOG_ROUTES, req, verify, users)
               == Handled(if req.verb == GET then GetLogById else UpdateLog, who)
  {
    LogRoutesGuarded();
    var i := if req.verb == GET then 3 else 4;
    ServeAt(LOG_ROUTES, req, verify, users, who, i);
    assert LOG_ROUTES[i].chain[1..] == [];
  }

  /** Creating a manager needs the manager role. */
  lemma ManagerCreateRole(req: Request, verify: string -> Authentication.Verdict, users: map<Id, User>,
                          who: Principal)
    requires AuthenticatesAs(req, verify, users, who)
    requires req.verb == POST && req.target.AtRoot?
    ensures AllGuarded(MANAGER_ROUTES)
            && (Serve(MANAGER_ROUTES, req, verify, users).Handled? <==> who.role == Authorization.MANAGER)
  {
    ManagerRoutesGuarded();
    ServeAt(MANAGER_ROUTES, req, verify, users, who, 0);
    assert MANAGER_ROUTES[0].chain[1..] == [RolesGate([Authorization.MANAGER])];
  }

  /** Listing, reading, updating and deleting managers have no role gate: any
      authenticated user, whatever the role, reaches those actions. */
  lemma ManagerOpenRoutes(req: Request, verify: string -> Authentication.Verdict, users: map<Id, User>,
                          who: Principal)
    requires AuthenticatesAs(req, verify, users, who)
    requires (req.verb == GET && req.target.AtRoot?) || (req.target.AtId? && req.verb != POST)
    ensures AllGuarded(MANAGER_ROUTES)
            && Serve(MANAGER_ROUTES, req, verify, users).Handled?
            && Serve(MANAGER_ROUTES, req, verify, users).user == who
  {
    ManagerRoutesGuarded();
    var i := if req.target.AtRoot? then 1 else if req.verb == GET then 2 else if req.verb == PUT then 3 else 4;
    ServeAt(MANAGER_ROUTES, req, verify, users, who, i);
    assert MANAGER_ROUTES[i].chain[1..] == [];
  }
}
