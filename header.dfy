/** The header's link to the signed-in user's dashboard. */
module Header {
  import opened Options
  import opened AuthContext

  const AdminPath := "/admin"
  const CaregiverPath := "/caregiver-dashboard"
  const DashboardPath := "/dashboard"

  /** `getDashboardPath`: administrators go to the admin page, therapists and
      caregivers to the caregiver dashboard, participants and visitors who
      are not signed in to the participant dashboard. */
  function GetDashboardPath(user: Option<User>): (path: string)
    ensures path == AdminPath || path == CaregiverPath || path == DashboardPath
  {
    if user.None? then DashboardPath
    else
      match user.value.role
      case Admin => AdminPath
      case Therapist => CaregiverPath
      case Caregiver => CaregiverPath
      case _ => DashboardPath
  }

  lemma DashboardPathByRole(user: Option<User>)
    ensures user.None? ==> GetDashboardPath(user) == "/dashboard"
    ensures user.Some? && user.value.role == Admin ==> GetDashboardPath(user) == "/admin"
    ensures user.Some? && user.value.role in {Therapist, Caregiver} ==> GetDashboardPath(user) == "/caregiver-dashboard"
    ensures user.Some? && user.value.role == Participant ==> GetDashboardPath(user) == "/dashboard"
  {
  }
}
