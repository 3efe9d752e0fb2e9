/** The mock authentication state: a single `user` that is set by `login`
    and `signup`, cleared by `logout` and given a new role by `selectRole`.
    The artificial delays and the ignored password are not part of it. */
module AuthContext {
  import opened Options
  import Js

  datatype UserRole = Participant | Caregiver | Therapist | Admin

  datatype User = User(id: string, email: string, name: string, role: UserRole, avatar: Option<string>)

  /** The name `login` derives from an email: the text before the first '@',
      or the whole email when it has none. */
  function LoginName(email: string): (name: string)
    ensures name <= email && '@' !in name
    ensures '@' in email ==> email[|name|] == '@'
    ensures '@' !in email ==> name == email
  {
    Js.SplitFirst(email, '@')
  }

  /** One call into the auth context. */
  datatype AuthCall =
    | LoginCall(email: string)
    | SignupCall(email: string, name: string)
    | LogoutCall
    | SelectRoleCall(role: UserRole)

  /** The user after one call. */
  function Applied(user: Option<User>, call: AuthCall): Option<User> {
    match call
    case LoginCall(email) => Some(User("1", email, LoginName(email), Participant, None))
    case SignupCall(email, name) => Some(User("1", email, name, Participant, None))
    case LogoutCall => None
    case SelectRoleCall(role) => if user.Some? then Some(user.value.(role := role)) else None
  }

  function RunAuth(user: Option<User>, calls: seq<AuthCall>): Option<User>
    decreases |calls|
  {
    if calls == [] then user else RunAuth(Applied(user, calls[0]), calls[1..])
  }

  /** Whether the last login, signup or logout among `calls` signed someone
      in (`Some(true)`) or out (`Some(false)`); `None` when there is none. */
  function LastSignIn(calls: seq<AuthCall>): Option<bool>
    decreases |calls|
  {
    if calls == [] then None
    else
      var rest := LastSignIn(calls[1..]);
      if rest.Some? then rest
      else if calls[0].SelectRoleCall? then None
      else Some(!calls[0].LogoutCall?)
  }

  /** After any sequence of calls someone is signed in exactly when the last
      login, signup or logout was a login or signup, or, with none of those,
      when someone was signed in before: choosing a role never signs anyone
      in or out. */
  lemma {:induction false} SignedInAfterCalls(user: Option<User>, calls: seq<AuthCall>)
    ensures RunAuth(user, calls).Some? <==> LastSignIn(calls).GetOr(user.Some?)
    decreases |calls|
  {
    if calls != [] {
      SignedInAfterCalls(Applied(user, calls[0]), calls[1..]);
    }
  }

  class AuthProvider {
    var user: Option<User>

    constructor ()
      ensures user == None
    {
      user := None;
    }

    /** `!!user` */
    function IsAuthenticated(): bool
      reads this
    {
      user.Some?
    }

    method Login(email: string)
      modifies this
      ensures user == Some(User("1", email, LoginName(email), Participant, None))
      ensures user == Applied(old(user), LoginCall(email))
      ensures IsAuthenticated()
    {
      user := Some(User("1", email, LoginName(email), Participant, None));
    }

    method Signup(email: string, name: string)
      modifies this
      ensures user == Some(User("1", email, name, Participant, None))
      ensures user == Applied(old(user), SignupCall(email, name))
      ensures IsAuthenticated()
    {
      user := Some(User("1", email, name, Participant, None));
    }

    method Logout()
      modifies this
      ensures user == None
      ensures user == Applied(old(user), LogoutCall)
      ensures !IsAuthenticated()
    {
      user := None;
    }

    /** Only the role changes, and only when someone is logged in. */
    method SelectRole(role: UserRole)
      modifies this
      ensures old(user).None? ==> user == None
      ensures old(user).Some? ==> user == Some(old(user).value.(role := role))
      ensures user == Applied(old(user), SelectRoleCall(role))
      ensures IsAuthenticated() == old(IsAuthenticated())
    {
      if user.Some? {
        user := Some(user.value.(role := role));
      }
    }
  }
}
