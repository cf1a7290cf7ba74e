/** The customer's profile page: the avatar initials and the details read from the stored session. */
module Profile {
  import opened Common
  import opened Text
  import opened Domain

  const DefaultRole := "Customer"
  const NoContact := "Not provided"

  /** `name?.charAt(0) || ""`: the first character, or nothing for a missing or empty name. */
  function FirstLetter(name: Option<string>): (s: string)
    ensures |s| <= 1
    ensures |s| == 1 <==> name.Some? && name.value != ""
    ensures |s| == 1 ==> s[0] == name.value[0]
  {
    if name.Some? && name.value != "" then name.value[..1] else ""
  }

  /** The avatar's initials: the first letters of the first and last names, upper-cased. */
  function Initials(firstName: Option<string>, lastName: Option<string>): (r: string)
    ensures |r| <= 2
    ensures |r| == |FirstLetter(firstName)| + |FirstLetter(lastName)|
    ensures firstName.Some? && firstName.value != "" ==> r[0] == UpperChar(firstName.value[0])
    ensures lastName.Some? && lastName.value != "" ==> r[|r| - 1] == UpperChar(lastName.value[0])
    ensures forall i :: 0 <= i < |r| ==> !IsAsciiLower(r[i])
  {
    Upper(FirstLetter(firstName) + FirstLetter(lastName))
  }

  /** `value || fallback`: a missing or empty text shows the fallback. */
  function OrDefault(value: Option<string>, fallback: string): (r: string)
    ensures r == fallback <==> value.None? || value.value == "" || value.value == fallback
    ensures r != fallback ==> value == Some(r)
  {
    if value.Some? && value.value != "" then value.value else fallback
  }

  /** A missing value renders as nothing. */
  function OrEmpty(value: Option<string>): string {
    if value.Some? then value.value else ""
  }

  /** What the page shows. */
  datatype ProfileView = ProfileView(initials: string, fullName: string, role: string, email: string,
                                     contactNumber: string)

  /** Opening the profile: without a token the visitor is sent to sign in and nothing is shown; otherwise
      the session's details, with "Customer" for a missing role and "Not provided" for a missing number. */
  function OpenProfile(session: Session): (r: PageLoad<ProfileView>)
    ensures r == RedirectToAuth <==> !HasToken(session)
    ensures r.Proceed? ==> r.value.initials == Initials(session.firstName, session.lastName)
    ensures r.Proceed? ==> r.value.fullName == OrEmpty(session.firstName) + " " + OrEmpty(session.lastName)
    ensures r.Proceed? ==> r.value.email == OrEmpty(session.email)
    ensures r.Proceed? && (session.role.None? || session.role.value == "") ==> r.value.role == DefaultRole
    ensures r.Proceed? && session.role.Some? && session.role.value != "" ==> r.value.role == session.role.value
    ensures r.Proceed? && (session.contactNumber.None? || session.contactNumber.value == "") ==> r.value.contactNumber == NoContact
    ensures r.Proceed? && session.contactNumber.Some? && session.contactNumber.value != "" ==> r.value.contactNumber == session.contactNumber.value
  {
    GuardPage(session, ProfileView(
      Initials(session.firstName, session.lastName),
      OrEmpty(session.firstName) + " " + OrEmpty(session.lastName),
      OrDefault(session.role, DefaultRole),
      OrEmpty(session.email),
      OrDefault(session.contactNumber, NoContact)))
  }

  /** A customer with both names on record gets two initials, the upper-cased first letters. */
  lemma TwoInitials(first: string, last: string)
    requires first != "" && last != ""
    ensures Initials(Some(first), Some(last)) == [UpperChar(first[0]), UpperChar(last[0])]
  {
  }
}
