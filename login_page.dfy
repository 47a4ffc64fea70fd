/**
 * The login page: one form that works in two modes. Submitting checks the
 * fields with an early-return chain and then signs in or up through the
 * session provider; the picture picker validates the chosen file; the
 * mode follows the `mode` query parameter and `switchMode` resets the form.
 */
module LoginPage {
  import opened Prelude
  import opened Text
  import opened Users
  import opened AuthContext

  /** What the browser reports about a chosen file: its MIME type and its size in bytes. */
  datatype FileInfo = FileInfo(mimeType: string, size: nat)

  const FillInAll := "Please fill in all fields"
  const Mismatch := "Passwords do not match"
  const TooShort := "Password must be at least 6 characters long"
  const NotAnImage := "Please select a valid image file"
  const TooLarge := "Image size should be less than 5MB"

  /** `5 * 1024 * 1024`: the largest accepted picture, in bytes. */
  const MaxPictureBytes := 5 * 1024 * 1024

  /** The sign-up checks in order: all six fields, then matching passwords, then the length of the password. */
  function SignUpError(firstName: string, lastName: string, email: string, phoneNumber: string,
                       password: string, confirmPassword: string): (r: Option<string>)
    ensures r.None? <==> firstName != "" && lastName != "" && email != "" && phoneNumber != "" &&
                         password != "" && password == confirmPassword && Utf16Length(password) >= 6
    ensures r.Some? ==> r.value in {FillInAll, Mismatch, TooShort}
  {
    if firstName == "" || lastName == "" || email == "" || phoneNumber == "" ||
       password == "" || confirmPassword == "" then Some(FillInAll)
    else if password != confirmPassword then Some(Mismatch)
    else if Utf16Length(password) < 6 then Some(TooShort)
    else None
  }

  /** An empty field is reported before a mismatch or a short password, whatever they are. */
  lemma EmptyFieldReportedFirst(firstName: string, lastName: string, email: string, phoneNumber: string,
                                password: string, confirmPassword: string)
    requires firstName == "" || lastName == "" || email == "" || phoneNumber == "" ||
             password == "" || confirmPassword == ""
    ensures SignUpError(firstName, lastName, email, phoneNumber, password, confirmPassword) == Some(FillInAll)
  {
  }

  /** With every field filled, differing passwords are reported before the length rule. */
  lemma MismatchReportedBeforeLength(firstName: string, lastName: string, email: string, phoneNumber: string,
                                     password: string, confirmPassword: string)
    requires firstName != "" && lastName != "" && email != "" && phoneNumber != ""
    requires password != "" && confirmPassword != "" && password != confirmPassword
    ensures SignUpError(firstName, lastName, email, phoneNumber, password, confirmPassword) == Some(Mismatch)
  {
  }

  /** A matching password of six ordinary characters passes; one of five does not. */
  lemma SixCharactersSuffice(firstName: string, lastName: string, email: string, phoneNumber: string,
                             password: string)
    requires firstName != "" && lastName != "" && email != "" && phoneNumber != ""
    requires forall i :: 0 <= i < |password| ==> password[i] as int <= 0xFFFF
    ensures |password| == 6 ==> SignUpError(firstName, lastName, email, phoneNumber, password, password).None?
    ensures 0 < |password| < 6 ==>
              SignUpError(firstName, lastName, email, phoneNumber, password, password) == Some(TooShort)
  {
    Utf16LengthBmp(password);
  }

  /** Sign-in only needs a non-empty email and password; there is no length rule. */
  function SignInError(email: string, password: string): (r: Option<string>)
    ensures r.None? <==> email != "" && password != ""
    ensures r.Some? ==> r.value == FillInAll
  {
    if email == "" || password == "" then Some(FillInAll) else None
  }

  /** A one-character password is enough to sign in, though not to sign up. */
  lemma SignInHasNoLengthRule(email: string, firstName: string, lastName: string, phoneNumber: string, c: char)
    requires email != ""
    ensures SignInError(email, [c]).None?
    ensures SignUpError(firstName, lastName, email, phoneNumber, [c], [c]).Some?
  {
    assert Utf16Length([c]) <= 2;
  }

  /**
   * The argument of `signup`: the confirmation is not part of it, and an
   * absent or empty picture (`profilePicture || undefined`) is left out.
   */
  function SignupPayload(firstName: string, lastName: string, email: string, phoneNumber: string,
                         password: string, profilePicture: Option<string>): (d: SignupData)
    ensures d.firstName == firstName && d.lastName == lastName && d.email == email
    ensures d.phoneNumber == phoneNumber && d.password == password
    ensures d.profilePicture.Some? <==> profilePicture.Some? && profilePicture.value != ""
    ensures d.profilePicture.Some? ==> d.profilePicture == profilePicture
  {
    var picture := if profilePicture.Some? && profilePicture.value != "" then profilePicture else None;
    SignupData(firstName, lastName, email, phoneNumber, password, picture)
  }

  /** The picture checks in order: a MIME type under `image/`, then at most five mebibytes. */
  function PictureError(file: FileInfo): (r: Option<string>)
    ensures r.None? <==> StartsWith(file.mimeType, "image/") && file.size <= MaxPictureBytes
    ensures !StartsWith(file.mimeType, "image/") ==> r == Some(NotAnImage)
    ensures StartsWith(file.mimeType, "image/") && file.size > MaxPictureBytes ==> r == Some(TooLarge)
  {
    if !StartsWith(file.mimeType, "image/") then Some(NotAnImage)
    else if file.size > MaxPictureBytes then Some(TooLarge)
    else None
  }

  /** The size bound is inclusive: exactly 5 MiB passes, one byte more does not. */
  lemma PictureLimitInclusive(mimeType: string)
    requires StartsWith(mimeType, "image/")
    ensures PictureError(FileInfo(mimeType, 5242880)).None?
    ensures PictureError(FileInfo(mimeType, 5242881)) == Some(TooLarge)
  {
  }

  /** The query value that selects each mode. */
  function ModeValue(isSignUp: bool): (v: string)
    ensures v == if isSignUp then "signup" else "signin"
  {
    if isSignUp then "signup" else "signin"
  }

  /** The route `switchMode` pushes so that the URL shows the new mode. */
  function ModeRoute(isSignUp: bool): string {
    "/login?mode=" + ModeValue(isSignUp)
  }

  /** The mode effect: "signin" and "signup" select their mode, anything else (or nothing) keeps it. */
  function ApplyMode(mode: Option<string>, isSignUp: bool): (r: bool)
    ensures mode == Some("signin") ==> !r
    ensures mode == Some("signup") ==> r
    ensures mode.None? || mode.value !in {"signin", "signup"} ==> r == isSignUp
  {
    if mode == Some("signin") then false
    else if mode == Some("signup") then true
    else isSignUp
  }

  /** Reading back the query value `switchMode` writes selects the mode it switched to, from either mode. */
  lemma ModeRoundTrip(isSignUp: bool, current: bool)
    ensures ApplyMode(Some(ModeValue(isSignUp)), current) == isSignUp
    ensures ModeRoute(isSignUp) == "/login?mode=signup" || ModeRoute(isSignUp) == "/login?mode=signin"
  {
    assert "signup"[5] != "signin"[5];
  }

  class LoginForm {
    var isSignUp: bool
    var profilePicture: Option<string>
    var profilePictureFile: Option<FileInfo>
    var firstName: string
    var lastName: string
    var email: string
    var phoneNumber: string
    var password: string
    var confirmPassword: string
    var error: string
    const auth: AuthProvider

    /** Sign-in mode with every cell empty. */
    constructor (auth: AuthProvider)
      ensures !isSignUp && profilePicture.None? && profilePictureFile.None? && error == ""
      ensures firstName == "" && lastName == "" && email == "" && phoneNumber == ""
      ensures password == "" && confirmPassword == "" && this.auth == auth
    {
      isSignUp := false;
      profilePicture := None;
      profilePictureFile := None;
      firstName, lastName, email, phoneNumber := "", "", "", "";
      password, confirmPassword := "", "";
      error := "";
      this.auth := auth;
    }

    /** The effect that runs whenever the search parameters change. */
    method ApplyModeParam(mode: Option<string>)
      modifies this`isSignUp
      ensures isSignUp == ApplyMode(mode, old(isSignUp))
    {
      if mode == Some("signin") {
        isSignUp := false;
      } else if mode == Some("signup") {
        isSignUp := true;
      }
    }

    /**
     * `handleSubmit`: clear the error, then either report the first failed
     * check and stop, or sign up (or in) and go to the home page.
     */
    method HandleSubmit() returns (effects: seq<Effect>)
      requires auth.storage.WellTyped()
      modifies this`error, auth, auth.storage
      ensures isSignUp ==>
        var err := SignUpError(firstName, lastName, email, phoneNumber, password, confirmPassword);
        if err.Some? then
          error == err.value && effects == [] && auth.user == old(auth.user) &&
          auth.storage.entries == old(auth.storage.entries)
        else
          var u := SignupUser(SignupPayload(firstName, lastName, email, phoneNumber, password, profilePicture));
          error == "" && effects == [Navigate("/")] && auth.user == Some(u) &&
          auth.storage.entries == old(auth.storage.entries)[Storage.UserKey := Storage.UserEntry(u)]
      ensures !isSignUp ==>
        var err := SignInError(email, password);
        if err.Some? then
          error == err.value && effects == [] && auth.user == old(auth.user) &&
          auth.storage.entries == old(auth.storage.entries)
        else
          error == "" && effects == [Navigate("/")] && auth.user == Some(LoginUser(email)) &&
          auth.storage.entries == old(auth.storage.entries)[Storage.UserKey := Storage.UserEntry(LoginUser(email))]
      ensures auth.loading == old(auth.loading) && auth.Synced() == (old(auth.Synced()) || error == "")
      ensures auth.storage.WellTyped()
    {
      error := "";
      if isSignUp {
        var err := SignUpError(firstName, lastName, email, phoneNumber, password, confirmPassword);
        if err.Some? {
          error := err.value;
          return [];
        }
        auth.Signup(SignupPayload(firstName, lastName, email, phoneNumber, password, profilePicture));
        effects := [Navigate("/")];
      } else {
        var err := SignInError(email, password);
        if err.Some? {
          error := err.value;
          return [];
        }
        auth.Login(email, password);
        effects := [Navigate("/")];
      }
    }

    /**
     * `handleProfilePictureChange`: with no file nothing happens; a file that
     * fails a check only sets the error; a good file is kept and its reading
     * begins (see `PictureLoaded`).
     */
    method HandleProfilePictureChange(file: Option<FileInfo>)
      modifies this`error, this`profilePictureFile
      ensures file.None? ==> error == old(error) && profilePictureFile == old(profilePictureFile)
      ensures file.Some? && PictureError(file.value).Some? ==>
                error == PictureError(file.value).value && profilePictureFile == old(profilePictureFile)
      ensures file.Some? && PictureError(file.value).None? ==>
                error == old(error) && profilePictureFile == file
    {
      if file.Some? {
        var err := PictureError(file.value);
        if err.Some? {
          error := err.value;
          return;
        }
        profilePictureFile := file;
      }
    }

    /** The reader's `onloadend`: the data URL becomes the picture. */
    method PictureLoaded(dataUrl: string)
      modifies this`profilePicture
      ensures profilePicture == Some(dataUrl)
    {
      profilePicture := Some(dataUrl);
    }

    /** `switchMode`: flip the mode, empty every other cell and push the route of the new mode. */
    method SwitchMode() returns (effect: Effect)
      modifies this
      ensures isSignUp == !old(isSignUp) && effect == Navigate(ModeRoute(isSignUp))
      ensures error == "" && profilePicture.None? && profilePictureFile.None?
      ensures firstName == "" && lastName == "" && email == "" && phoneNumber == ""
      ensures password == "" && confirmPassword == ""
    {
      var newMode := !isSignUp;
      isSignUp := newMode;
      error := "";
      profilePicture := None;
      profilePictureFile := None;
      firstName, lastName, email, phoneNumber := "", "", "", "";
      password, confirmPassword := "", "";
      effect := Navigate(ModeRoute(newMode));
    }
  }
}
