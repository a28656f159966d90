/** The user document of `user.controller.js`: the redaction `publicize`
    applies to it, and the `create` and `update` handlers. */
module Users {
  import opened Common

  /** The plain object `toObject()` makes of a user. Nested `business` and
      `address` objects are carried opaquely. */
  datatype UserDoc = UserDoc(
    email: Option<string>, password: Option<string>, name: Option<string>, phone: Option<string>,
    business: Option<string>, address: Option<string>, taxExempt: Option<string>,
    isAdmin: Option<bool>, comments: Option<string>, verification: Option<string>)

  /** `req.body` of `create` (and of `update`, which reads only two fields). */
  datatype UserBody = UserBody(
    email: Option<string>, password: Option<string>, name: Option<string>, phone: Option<string>,
    businessInfo: Option<string>, addressInfo: Option<string>, taxExempt: Option<string>,
    isAdmin: Option<bool>, comments: Option<string>)

  const VERIFIED := "verified"
  const UNVERIFIED := "unverified"

  /** `publicize`: the password is dropped and a stored verification is
      reported only as 'verified' or 'unverified', never as the pending
      token; everything else is copied. */
  function Publicize(doc: UserDoc): (pub: UserDoc)
    ensures pub.password.None?
    ensures pub.verification.Some? <==> doc.verification.Some?
    ensures pub.verification == Some(VERIFIED) <==> doc.verification == Some(VERIFIED)
    ensures doc.verification.Some? && doc.verification.value != VERIFIED ==> pub.verification == Some(UNVERIFIED)
    ensures pub.(password := doc.password, verification := doc.verification) == doc
  {
    var verification :=
      match doc.verification
      case Some(v) => Some(if v == VERIFIED then VERIFIED else UNVERIFIED)
      case None => None;
    doc.(password := None, verification := verification)
  }

  /** A pending verification token never leaves `publicize`. */
  lemma PublicizeHidesToken(doc: UserDoc, token: string)
    requires doc.verification == Some(token) && token != VERIFIED && token != UNVERIFIED
    ensures Publicize(doc).verification != Some(token)
    ensures Publicize(doc).verification == Some(UNVERIFIED)
  {
  }

  /** Redacting twice is redacting once. */
  lemma PublicizeIdempotent(doc: UserDoc)
    ensures Publicize(Publicize(doc)) == Publicize(doc)
  {
  }

  /** The canonical text of a v4 uuid: 36 characters. */
  predicate HasUuidLength(token: string) {
    |token| == 36
  }

  class User {
    var email: Option<string>
    var password: Option<string>
    var name: Option<string>
    var phone: Option<string>
    var business: Option<string>
    var address: Option<string>
    var taxExempt: Option<string>
    var isAdmin: Option<bool>
    var comments: Option<string>
    var verification: Option<string>

    /** `toObject()`. */
    function ToObject(): UserDoc
      reads this
    {
      UserDoc(email, password, name, phone, business, address, taxExempt, isAdmin, comments, verification)
    }

    /** `new User({...})` in `create`: `businessInfo` becomes `business`,
        `addressInfo` becomes `address`, and the verification is a fresh
        token. */
    constructor (body: UserBody, token: string)
      ensures ToObject() == UserDoc(body.email, body.password, body.name, body.phone, body.businessInfo,
                                    body.addressInfo, body.taxExempt, body.isAdmin, body.comments, Some(token))
    {
      email := body.email;
      password := body.password;
      name := body.name;
      phone := body.phone;
      business := body.businessInfo;
      address := body.addressInfo;
      taxExempt := body.taxExempt;
      isAdmin := body.isAdmin;
      comments := body.comments;
      verification := Some(token);
    }

    /** `update`: only `email` and `phone` are taken from the body; the
        answer is the redacted user. */
    method Update(body: UserBody) returns (reply: UserDoc)
      modifies this
      ensures ToObject() == old(ToObject()).(email := body.email, phone := body.phone)
      ensures reply == Publicize(ToObject())
    {
      email := body.email;
      phone := body.phone;
      reply := Publicize(ToObject());
    }
  }

  /** `create`: store the user with a fresh uuid-v4 verification token and
      answer with the redacted user, which therefore reads 'unverified'
      and carries no password. */
  method Create(body: UserBody, token: string) returns (user: User, reply: UserDoc)
    requires HasUuidLength(token)
    ensures fresh(user)
    ensures user.ToObject() == UserDoc(body.email, body.password, body.name, body.phone, body.businessInfo,
                                       body.addressInfo, body.taxExempt, body.isAdmin, body.comments, Some(token))
    ensures reply == Publicize(user.ToObject())
    ensures reply.password.None? && reply.verification == Some(UNVERIFIED)
  {
    user := new User(body, token);
    reply := Publicize(user.ToObject());
  }
}
