/** middleware/authorization.js: role gates that run after `protect` and see
    the authenticated user. */
module Authorization {
  import opened Common

  const STUDENT := "student"
  const FACILITATOR := "facilitator"
  const MANAGER := "manager"

  const NOT_A_STUDENT := "Access denied: Not a student"
  const NOT_A_FACILITATOR := "Access denied: Not a facilitator"
  const NOT_A_MANAGER := "Access denied: Not a manager"
  const DENIED_FOR_ROLE := "Access denied for role: "

  /** A gate for one exact role: `next()` for that role, a 403 with `denial` otherwise. */
  function OneRole(role: string, denial: string, who: Principal): (o: Outcome)
    ensures o.Next? <==> who.role == role
    ensures o.Next? ==> o.user == who
    ensures o.Respond? ==> o == Respond(403, denial)
  {
    if who.role != role then Respond(403, denial) else Next(who)
  }

  /** `student`. */
  function StudentOnly(who: Principal): Outcome {
    OneRole(STUDENT, NOT_A_STUDENT, who)
  }

  /** `facilitator`. */
  function FacilitatorOnly(who: Principal): Outcome {
    OneRole(FACILITATOR, NOT_A_FACILITATOR, who)
  }

  /** `manager`. */
  function ManagerOnly(who: Principal): Outcome {
    OneRole(MANAGER, NOT_A_MANAGER, who)
  }

  /** `authorizeRoles(...roles)`: `next()` exactly for a role in the list; the
      403 message names the refused role. */
  function AuthorizeRoles(roles: seq<string>, who: Principal): (o: Outcome)
    ensures o.Next? <==> who.role in roles
    ensures o.Next? ==> o.user == who
    ensures o.Respond? ==> o == Respond(403, DENIED_FOR_ROLE + who.role)
  {
    if who.role !in roles then Respond(403, DENIED_FOR_ROLE + who.role) else Next(who)
  }

  /** The three fixed gates decide as `authorizeRoles` with that one role does;
      only the messages differ. */
  lemma FixedGatesAreSingleRoleLists(who: Principal)
    ensures StudentOnly(who).Next? == AuthorizeRoles([STUDENT], who).Next?
    ensures FacilitatorOnly(who).Next? == AuthorizeRoles([FACILITATOR], who).Next?
    ensures ManagerOnly(who).Next? == AuthorizeRoles([MANAGER], who).Next?
  {
  }

  /** `authorizeRoles()` with no roles denies everyone; at most one fixed gate
      admits any given user. */
  lemma GatesExclusive(who: Principal)
    ensures AuthorizeRoles([], who).Respond?
    ensures !(StudentOnly(who).Next? && FacilitatorOnly(who).Next?)
    ensures !(StudentOnly(who).Next? && ManagerOnly(who).Next?)
    ensures !(FacilitatorOnly(who).Next? && ManagerOnly(who).Next?)
  {
  }
}
