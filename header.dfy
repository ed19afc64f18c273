/**
 * The navigation header (frontend/src/components/Layout/Header.tsx): the
 * role-based target of the "Accueil" link, and the avatar initial and label
 * shown for the signed-in user. All three are pure expressions of the user.
 */
module Header {
  import opened Wrappers

  /** The fields of the authentication context's user that the header reads; `firstName` may be absent. */
  datatype SessionUser = SessionUser(userRole: string, firstName: Option<string>, email: string)

  const DoctorHome: string := "/doctor/dashboard"
  const AdminHome: string := "/admin/dashboard"
  const PublicHome: string := "/"

  /** `homeTo`: the nested ternary on `user?.user_role`. */
  function HomeTo(user: Option<SessionUser>): (r: string)
    ensures r == DoctorHome || r == AdminHome || r == PublicHome
    ensures r == DoctorHome <==> user.Some? && user.value.userRole == "doctor"
    ensures r == AdminHome <==> user.Some? && user.value.userRole == "admin"
    ensures user.None? ==> r == PublicHome
  {
    if user.Some? && user.value.userRole == "doctor" then DoctorHome
    else if user.Some? && user.value.userRole == "admin" then AdminHome
    else PublicHome
  }

  /** `s.charAt(0)`: the first character as a string, "" for the empty string. */
  function CharAt0(s: string): (r: string)
    ensures |r| <= 1 && r <= s
    ensures r == "" <==> s == ""
  {
    if s == "" then "" else [s[0]]
  }

  /** The first name when it is present and non-empty. */
  predicate HasFirstName(user: SessionUser) {
    user.firstName.Some? && user.firstName.value != ""
  }

  /** `user.first_name?.charAt(0) || user.email.charAt(0)`. */
  function AvatarInitial(user: SessionUser): (r: string)
    ensures HasFirstName(user) ==> r == [user.firstName.value[0]]
    ensures !HasFirstName(user) ==> r == CharAt0(user.email)
  {
    var fromName := if user.firstName.Some? then CharAt0(user.firstName.value) else "";
    if fromName != "" then fromName else CharAt0(user.email)
  }

  /** `s.split('@')[0]`: everything before the first '@', or all of `s` when it has none. */
  function BeforeFirstAt(s: string): (r: string)
    ensures r <= s
    ensures '@' !in r
    ensures |r| < |s| ==> s[|r|] == '@'
    ensures '@' !in s ==> r == s
  {
    if s == [] then []
    else if s[0] == '@' then []
    else [s[0]] + BeforeFirstAt(s[1..])
  }

  /** `user.first_name || user.email.split('@')[0]`. */
  function DisplayLabel(user: SessionUser): (r: string)
    ensures HasFirstName(user) ==> r == user.firstName.value
    ensures !HasFirstName(user) ==> r == BeforeFirstAt(user.email)
  {
    if HasFirstName(user) then user.firstName.value else BeforeFirstAt(user.email)
  }

  /** For an address `local@domain`, the part before the first '@' is `local`, whatever `domain` holds. */
  lemma {:induction false} LocalPartOfAddress(local: string, domain: string)
    requires '@' !in local
    ensures BeforeFirstAt(local + "@" + domain) == local
  {
    var address := local + "@" + domain;
    if local == [] {
      assert address[0] == '@';
    } else {
      assert address[0] == local[0] && address[1..] == local[1..] + "@" + domain;
      LocalPartOfAddress(local[1..], domain);
    }
  }

  /** With no first name, a user with address `local@domain` is labelled `local`. */
  lemma LabelIsLocalPart(user: SessionUser, local: string, domain: string)
    requires !HasFirstName(user) && '@' !in local && user.email == local + "@" + domain
    ensures DisplayLabel(user) == local
  {
    LocalPartOfAddress(local, domain);
  }
}
