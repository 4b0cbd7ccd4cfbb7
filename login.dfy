/** The sign-in screen: the owner's establishment code and staff credentials. */
module Login {
  import opened Wrappers
  import opened Types
  import opened Text

  /** The code used when the store has no (or an empty) activation code. */
  const FallbackOwnerCode: string := "123456"

  /** `validActivationCode || "123456"`. */
  function OwnerCode(activationCode: Option<string>): string
  {
    if activationCode.Some? && activationCode.value != "" then activationCode.value else FallbackOwnerCode
  }

  const OwnerUser: User :=
    User("owner-main", "Propriétaire", "admin@bistrogest.ga",
         Some("https://ui-avatars.com/api/?name=Admin&background=059669&color=fff"),
         Owner, None, Some(true))

  datatype LoginResult = LoggedIn(user: User) | LoginError(message: string)

  /** `handleVerifyOwner`. */
  function VerifyOwner(inputCode: string, activationCode: Option<string>): (r: LoginResult)
    ensures r.LoggedIn? <==>
              if activationCode.Some? && activationCode.value != "" then inputCode == activationCode.value
              else inputCode == FallbackOwnerCode
    ensures r.LoggedIn? ==> r.user.role == Owner && r.user.id == "owner-main" && r.user.isVerified == Some(true)
    ensures r.LoginError? ==> r.message == "Code établissement incorrect."
  {
    if inputCode == OwnerCode(activationCode) then LoggedIn(OwnerUser)
    else LoginError("Code établissement incorrect.")
  }

  /** The `find` predicate of `handleVerifyStaff`. */
  predicate Matches(s: StaffMember, username: string, code: string)
  {
    Lower(s.username) == Lower(username) && s.accessCode == code && s.isActive
  }

  /** The first member matching the credentials. */
  function FindStaff(staff: seq<StaffMember>, username: string, code: string): (r: Option<StaffMember>)
    ensures r.None? <==> forall i :: 0 <= i < |staff| ==> !Matches(staff[i], username, code)
    ensures r.Some? ==> exists i :: 0 <= i < |staff| && staff[i] == r.value && Matches(r.value, username, code)
                          && forall j :: 0 <= j < i ==> !Matches(staff[j], username, code)
  {
    if |staff| == 0 then None
    else if Matches(staff[0], username, code) then Some(staff[0])
    else
      var r := FindStaff(staff[1..], username, code);
      assert r.Some? ==> exists i :: 1 <= i < |staff| && staff[i] == r.value;
      r
  }

  /** The user a matched member signs in as. */
  function WaiterUser(m: StaffMember): (u: User)
    ensures u.id == m.id && u.name == m.name && u.role == Waiter
    ensures u.email == m.username + "@bistrogest.ga" && u.isVerified == Some(true)
    ensures u.photo == Some("https://ui-avatars.com/api/?name=" + m.name + "&background=6366f1&color=fff")
  {
    User(m.id, m.name, m.username + "@bistrogest.ga",
         Some("https://ui-avatars.com/api/?name=" + m.name + "&background=6366f1&color=fff"),
         Waiter, None, Some(true))
  }

  /** `handleVerifyStaff`. */
  function VerifyStaff(staff: seq<StaffMember>, username: string, code: string): (r: LoginResult)
    ensures r.LoggedIn? <==> exists i :: 0 <= i < |staff| && Matches(staff[i], username, code)
    ensures r.LoggedIn? ==> exists i :: 0 <= i < |staff| && Matches(staff[i], username, code)
                              && r.user == WaiterUser(staff[i])
                              && forall j :: 0 <= j < i ==> !Matches(staff[j], username, code)
    ensures r.LoginError? ==> r.message == "Identifiant ou code incorrect (ou compte désactivé)."
  {
    match FindStaff(staff, username, code)
    case Some(m) => LoggedIn(WaiterUser(m))
    case None => LoginError("Identifiant ou code incorrect (ou compte désactivé).")
  }

  /** Letter case in the username does not matter; in the code it does. */
  lemma UsernameCaseInsensitive(s: StaffMember, username: string, code: string)
    requires s.isActive && s.accessCode == code
    ensures Matches(s, Lower(username), code) <==> Matches(s, username, code)
  {
    LowerIdempotent(username);
  }
}
