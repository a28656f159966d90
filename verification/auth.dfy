/** `auth.controller.js`: the decision chain of `login` (user lookup and
    password comparison are oracles) and the `verify` transition of a
    user's verification token to 'verified'. */
module Auth {
  import opened Common
  import opened Users

  /** `toLowerCase` on the ASCII letters. */
  function LowerChar(c: char): char {
    if 'A' <= c <= 'Z' then (c as int + 32) as char else c
  }

  function Lower(s: string): (r: string)
    ensures |r| == |s|
    ensures forall i :: 0 <= i < |s| ==> r[i] == LowerChar(s[i])
    ensures forall i :: 0 <= i < |r| ==> !('A' <= r[i] <= 'Z')
  {
    if s == [] then [] else [LowerChar(s[0])] + Lower(s[1..])
  }

  lemma {:induction false} LowerIdempotent(s: string)
    ensures Lower(Lower(s)) == Lower(s)
  {
    var once := Lower(s);
    var twice := Lower(once);
    assert |twice| == |once|;
    forall i | 0 <= i < |once| ensures twice[i] == once[i] {
      assert twice[i] == LowerChar(once[i]);
    }
  }

  /** A stored account, as far as `login` reads it. */
  datatype Account = Account(email: string)

  /** `User.findOne({ email })`: the first account with that email. */
  function FindOne(users: seq<Account>, email: string): (r: Option<Account>)
    ensures r.Some? ==> r.value in users && r.value.email == email
    ensures r.None? <==> forall u :: u in users ==> u.email != email
  {
    if users == [] then None
    else if users[0].email == email then Some(users[0])
    else FindOne(users[1..], email)
  }

  /** The answer of `user.comparePassword`. */
  datatype Comparison = CompareError(err: string) | Compared(isMatch: bool)

  /** The payload `jwt.sign` signs. */
  datatype Jwt = Jwt(email: string)

  /** `res.json({token, email})`, an `APIError` passed to `next`, or the
      comparison's own error passed on unchanged. */
  datatype LoginReply = Issued(token: Jwt, email: string) | Rejected(error: ApiError) | PassedOn(err: string)

  const UserNotFound := ApiError("User Not Found", BadRequest)
  const PasswordMismatch := ApiError("Password Does Not Match", BadRequest)
  const AuthenticationError := ApiError("Authentication error", Unauthorized)

  /** `login`: look the user up by the lower-cased email, compare the
      password, and sign a token over the stored email. */
  function Login(users: seq<Account>, email: string, compare: Comparison): (r: LoginReply)
    ensures r == Rejected(UserNotFound) <==> FindOne(users, Lower(email)).None?
    ensures r.PassedOn? <==> FindOne(users, Lower(email)).Some? && compare.CompareError?
    ensures r.PassedOn? ==> r.err == compare.err
    ensures r == Rejected(PasswordMismatch) <==> FindOne(users, Lower(email)).Some? && compare == Compared(false)
    ensures r.Issued? <==> FindOne(users, Lower(email)).Some? && compare == Compared(true) && email != ""
    ensures r.Issued? ==> r.email == Lower(email) && r.token == Jwt(r.email) && Account(r.email) in users
    ensures r == Rejected(AuthenticationError) <==>
      FindOne(users, Lower(email)).Some? && compare == Compared(true) && email == ""
  {
    match FindOne(users, Lower(email))
    case None => Rejected(UserNotFound)
    case Some(user) =>
      match compare
      case CompareError(e) => PassedOn(e)
      case Compared(isMatch) =>
        if !isMatch then Rejected(PasswordMismatch)
        else if user.email != "" then Issued(Jwt(user.email), user.email)
        else Rejected(AuthenticationError)
  }

  /** Login does not depend on the case of the email typed in. */
  lemma {:induction false} LoginIgnoresCase(users: seq<Account>, email: string, compare: Comparison)
    ensures Login(users, Lower(email), compare) == Login(users, email, compare)
  {
    LowerIdempotent(email);
  }

  const TokenInvalid := ApiError("Token Invalid", BadRequest)
  const VerificationError := ApiError("Verification Error", InternalServerError)

  /** `verify`: a route token equal to the stored verification turns it into
      'verified' and answers `{verificationSuccess: true}`; a mismatch is an
      INTERNAL_SERVER_ERROR and changes nothing. A missing user is reported
      as BAD_REQUEST without returning, after which reading its
      verification throws. */
  method Verify(user: User?, token: string) returns (errors: seq<ApiError>, verificationSuccess: bool)
    modifies user
    ensures user == null ==> errors == [TokenInvalid] && !verificationSuccess
    ensures user != null ==> (verificationSuccess <==> old(user.verification) == Some(token))
    ensures user != null && verificationSuccess ==>
      errors == [] && user.ToObject() == old(user.ToObject()).(verification := Some(VERIFIED))
      && Publicize(user.ToObject()).verification == Some(VERIFIED)
    ensures user != null && !verificationSuccess ==> errors == [VerificationError] && unchanged(user)
  {
    errors := [];
    if user == null {
      errors := errors + [TokenInvalid];
      // `user.verification` of null throws here.
      return errors, false;
    }
    if user.verification == Some(token) {
      user.verification := Some(VERIFIED);
      return errors, true;
    }
    return errors + [VerificationError], false;
  }
}
