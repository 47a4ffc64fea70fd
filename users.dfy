/**
 * The `User` and `SignupData` records of the auth context and how its
 * `login` and `signup` build the session user from their arguments.
 */
module Users {
  import opened Prelude
  import Text

  /** The session user; only `email` is required. There is no password field. */
  datatype User = User(
    email: string,
    firstName: Option<string>,
    lastName: Option<string>,
    phoneNumber: Option<string>,
    profilePicture: Option<string>,
    name: Option<string>,
    username: Option<string>,
    deliveryAddress: Option<string>,
    pinCode: Option<string>)

  datatype SignupData = SignupData(
    firstName: string,
    lastName: string,
    email: string,
    phoneNumber: string,
    password: string,
    profilePicture: Option<string>)

  /**
   * `{ email, name: email.split("@")[0] }`. Sign-in fabricates the user from
   * the email alone; the password never reaches this record.
   */
  function LoginUser(email: string): (u: User)
    ensures u.email == email && u.name == Some(Text.BeforeFirst(email, '@'))
    ensures u.firstName.None? && u.lastName.None? && u.phoneNumber.None? && u.profilePicture.None?
    ensures u.username.None? && u.deliveryAddress.None? && u.pinCode.None?
  {
    User(email, None, None, None, None, Some(Text.BeforeFirst(email, '@')), None, None, None)
  }

  /** The login name is the local part: the email is that name, then nothing or an `@` and the rest. */
  lemma LoginNameIsLocalPart(email: string)
    ensures var n := LoginUser(email).name.value;
            '@' !in n && (email == n || (|n| < |email| && email == n + "@" + email[|n| + 1..]))
  {
    var n := LoginUser(email).name.value;
    if |n| < |email| {
      assert email == email[..|n|] + [email[|n|]] + email[|n| + 1..];
    }
  }

  /** Without an `@` the whole email becomes the name. */
  lemma LoginNameWithoutAt(email: string)
    requires '@' !in email
    ensures LoginUser(email).name == Some(email)
  {
    var n := LoginUser(email).name.value;
    assert |n| == |email|;
    assert email[..|email|] == email;
  }

  /** The user `signup` stores: the five profile fields copied and `name` joined with one space. */
  function SignupUser(data: SignupData): (u: User)
    ensures u.email == data.email && u.firstName == Some(data.firstName)
    ensures u.lastName == Some(data.lastName) && u.phoneNumber == Some(data.phoneNumber)
    ensures u.profilePicture == data.profilePicture
    ensures u.name == Some(data.firstName + " " + data.lastName)
    ensures u.username.None? && u.deliveryAddress.None? && u.pinCode.None?
  {
    User(data.email, Some(data.firstName), Some(data.lastName), Some(data.phoneNumber),
         data.profilePicture, Some(data.firstName + " " + data.lastName), None, None, None)
  }

  /** The stored user does not depend on the password: it is discarded. */
  lemma SignupForgetsPassword(data: SignupData, other: string)
    ensures SignupUser(data.(password := other)) == SignupUser(data)
  {
  }
}
