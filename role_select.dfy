/** The role-selection page: the roles it offers and where choosing one
    leads. */
module RoleSelect {
  import opened Options
  import opened AuthContext
  import Header

  /** The roles offered, in the order the page lists them. */
  const Roles: seq<UserRole> := [Participant, Caregiver, Therapist, Admin]

  /** The page offers every role exactly once. */
  lemma RolesListedOnce()
    ensures |Roles| == 4
    ensures forall r: UserRole :: multiset(Roles)[r] == 1
  {
    var m := multiset{Participant} + multiset{Caregiver} + multiset{Therapist} + multiset{Admin};
    assert multiset(Roles) == m;
    forall r: UserRole
      ensures multiset(Roles)[r] == 1
    {
      match r
      case Participant =>
      case Caregiver =>
      case Therapist =>
      case Admin =>
    }
  }

  /** The route `handleRoleSelect` navigates to for a role. */
  function RoleTarget(role: UserRole): string {
    match role
    case Admin => "/admin"
    case Therapist => "/caregiver-dashboard"
    case Caregiver => "/caregiver-dashboard"
    case _ => "/dashboard"
  }

  /** The page's routing and the header's agree for every role. */
  lemma RoleTargetMatchesHeader(user: User, role: UserRole)
    ensures RoleTarget(role) == Header.GetDashboardPath(Some(user.(role := role)))
  {
  }

  /** `handleRoleSelect`: the role is recorded first, then the target is
      chosen by the role alone; once signed in, the header then links to the
      same route. */
  method HandleRoleSelect(auth: AuthProvider, role: UserRole) returns (target: string)
    modifies auth
    ensures old(auth.user).None? ==> auth.user == None
    ensures old(auth.user).Some? ==> auth.user == Some(old(auth.user).value.(role := role))
    ensures target == RoleTarget(role)
    ensures auth.user.Some? ==> target == Header.GetDashboardPath(auth.user)
  {
    auth.SelectRole(role);
    target := RoleTarget(role);
  }
}
