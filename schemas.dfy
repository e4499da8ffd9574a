/**
 * The registration form sent to an instance, and the length checks made
 * when one is built.
 */
module Schemas {
  import opened Wrappers
  import opened MachineInts

  /** A Rust `String`: its UTF-8 bytes, so that its length is `len()`. */
  type Utf8 = seq<U8>

  datatype RegisterSchema = RegisterSchema(
    username: Utf8,
    password: Option<Utf8>,
    consent: bool,
    email: Option<Utf8>,
    fingerprint: Option<Utf8>,
    invite: Option<Utf8>,
    dateOfBirth: Option<Utf8>,
    giftCodeSkuId: Option<Utf8>,
    captchaKey: Option<Utf8>,
    promotionalEmailOptIn: Option<bool>)

  datatype RegisterSchemaError = RegisterSchemaError(message: string)

  const UsernameLengthMessage: string := "Username must be between 2 and 32 characters"
  const PasswordLengthMessage: string := "Password must be between 1 and 72 characters."

  /** Whether a username's length in bytes is acceptable. */
  predicate ValidUsername(username: Utf8)
  {
    2 <= |username| <= 32
  }

  /** Whether a password, when one is given, has an acceptable length in bytes. */
  predicate ValidPassword(password: Option<Utf8>)
  {
    password.None? || 1 <= |password.value| <= 72
  }

  /**
   * Builds a registration form, checking the username first and then the
   * password; no other field is checked.
   */
  function NewRegisterSchema(
    username: Utf8,
    password: Option<Utf8>,
    consent: bool,
    email: Option<Utf8>,
    fingerprint: Option<Utf8>,
    invite: Option<Utf8>,
    dateOfBirth: Option<Utf8>,
    giftCodeSkuId: Option<Utf8>,
    captchaKey: Option<Utf8>,
    promotionalEmailOptIn: Option<bool>
  ): (r: Result<RegisterSchema, RegisterSchemaError>)
    ensures r.Ok? <==> ValidUsername(username) && ValidPassword(password)
    ensures (|username| < 2 || |username| > 32) ==>
      r == Err(RegisterSchemaError(UsernameLengthMessage))
    ensures ValidUsername(username) && password.Some?
            && (|password.value| < 1 || |password.value| > 72) ==>
      r == Err(RegisterSchemaError(PasswordLengthMessage))
    ensures r.Ok? ==>
      && r.value.username == username && r.value.password == password
      && r.value.consent == consent && r.value.email == email
      && r.value.fingerprint == fingerprint && r.value.invite == invite
      && r.value.dateOfBirth == dateOfBirth && r.value.giftCodeSkuId == giftCodeSkuId
      && r.value.captchaKey == captchaKey
      && r.value.promotionalEmailOptIn == promotionalEmailOptIn
  {
    if |username| < 2 || |username| > 32 then
      Err(RegisterSchemaError(UsernameLengthMessage))
    else if password.Some? && (|password.value| < 1 || |password.value| > 72) then
      Err(RegisterSchemaError(PasswordLengthMessage))
    else
      Ok(RegisterSchema(username, password, consent, email, fingerprint, invite,
                        dateOfBirth, giftCodeSkuId, captchaKey, promotionalEmailOptIn))
  }

  /** When both the username and the password are bad, the username error is the one returned. */
  lemma UsernameCheckedFirst(
    username: Utf8, password: Option<Utf8>, consent: bool, email: Option<Utf8>,
    fingerprint: Option<Utf8>, invite: Option<Utf8>, dateOfBirth: Option<Utf8>,
    giftCodeSkuId: Option<Utf8>, captchaKey: Option<Utf8>, promotionalEmailOptIn: Option<bool>)
    requires !ValidUsername(username)
    requires !ValidPassword(password)
    ensures NewRegisterSchema(username, password, consent, email, fingerprint, invite,
                              dateOfBirth, giftCodeSkuId, captchaKey, promotionalEmailOptIn)
         == Err(RegisterSchemaError(UsernameLengthMessage))
  {
  }

  /** Without a password, only the username decides the outcome. */
  lemma AbsentPasswordNeverRejected(
    username: Utf8, consent: bool, email: Option<Utf8>,
    fingerprint: Option<Utf8>, invite: Option<Utf8>, dateOfBirth: Option<Utf8>,
    giftCodeSkuId: Option<Utf8>, captchaKey: Option<Utf8>, promotionalEmailOptIn: Option<bool>)
    ensures NewRegisterSchema(username, None, consent, email, fingerprint, invite,
                              dateOfBirth, giftCodeSkuId, captchaKey, promotionalEmailOptIn).Ok?
        <==> ValidUsername(username)
  {
  }
}
