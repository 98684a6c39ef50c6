/**
 * The account settings handlers of website/settings.py: two ordered cascades
 * of checks, each ending in one field update on the signed-in user. The
 * account lookup and the password hashing are parameters.
 */
module Settings {
  import opened Wrappers

  /** A flashed message and its category. */
  datatype Flash = Flash(message: string, category: string)

  /** The handler's answer: a 400 for a form without the field, or a redirect carrying a flash. */
  datatype Outcome = BadRequest | Redirect(flash: Flash)

  /**
   * `generate_password_hash` (salted, so given per request) and
   * `check_password_hash(hash, password)`.
   */
  datatype Hasher = Hasher(hash: string -> string, check: (string, string) -> bool)

  /** A hasher that recognises every password it hashed. */
  ghost predicate Consistent(hasher: Hasher) {
    forall p :: hasher.check(hasher.hash(p), p)
  }

  // ---------------------------------------------------------------------------
  // Email
  // ---------------------------------------------------------------------------

  const EmailUpdated := Flash("Your email has been updated successfully.", "email_success")
  const EmailUnchanged := Flash("No changes were made to your email.", "email_warning")

  /**
   * new_email's cascade, for a form that has the field; `inUse` is the account
   * lookup. Success is flashed exactly when the change is made, a warning
   * exactly when the address is the current one, and a danger otherwise.
   */
  function EmailFlash(current: string, email: string, inUse: string -> bool): (flash: Flash)
    ensures flash.category == "email_success" <==> EmailAccepted(current, email, inUse)
    ensures flash.category == "email_warning" <==> email == current
    ensures flash.category in {"email_success", "email_warning", "email_danger"}
  {
    if email == current then EmailUnchanged
    else if email == "" then Flash("All fields are required.", "email_danger")
    else if inUse(email) then Flash("An account with that email already exists.", "email_danger")
    else EmailUpdated
  }

  /** All three checks pass. */
  predicate EmailAccepted(current: string, email: string, inUse: string -> bool) {
    email != current && email != "" && !inUse(email)
  }

  /**
   * The update is announced exactly when all three checks pass. The same
   * address is reported as unchanged even when it is blank or taken, because
   * that check comes first.
   */
  lemma EmailCascade(current: string, email: string, inUse: string -> bool)
    ensures EmailFlash(current, email, inUse) == EmailUpdated <==> EmailAccepted(current, email, inUse)
    ensures email == current ==> EmailFlash(current, email, inUse) == EmailUnchanged
    ensures email != current && email == "" ==>
      EmailFlash(current, email, inUse) == Flash("All fields are required.", "email_danger")
    ensures email != current && email != "" && inUse(email) ==>
      EmailFlash(current, email, inUse) == Flash("An account with that email already exists.", "email_danger")
  {
  }

  /** Sending the new address again right after the change reports no change. */
  lemma EmailResubmitted(current: string, email: string, inUse: string -> bool)
    requires EmailAccepted(current, email, inUse)
    ensures EmailFlash(email, email, inUse) == EmailUnchanged
  {
  }

  /** No address is held by two accounts. */
  predicate Unique(emails: seq<string>) {
    forall j, k :: 0 <= j < k < |emails| ==> emails[j] != emails[k]
  }

  /**
   * When the lookup answers from the addresses of all accounts and those are
   * unique, they stay unique after a change is made for account `i`.
   */
  lemma EmailsStayUnique(emails: seq<string>, i: nat, email: string)
    requires i < |emails| && Unique(emails)
    requires EmailAccepted(emails[i], email, e => e in emails)
    ensures Unique(emails[i := email])
  {
    var changed := emails[i := email];
    forall j, k | 0 <= j < k < |changed|
      ensures changed[j] != changed[k]
    {
      if j == i {
        assert emails[k] in emails;
      } else if k == i {
        assert emails[j] in emails;
      }
    }
  }

  // ---------------------------------------------------------------------------
  // Password
  // ---------------------------------------------------------------------------

  const PasswordUpdated := Flash("Your password has been updated successfully.", "password_success")

  /** `not request.form.get(key)`: the field is missing or empty. */
  predicate Blank(field: Option<string>) {
    field.None? || field.value == ""
  }

  /**
   * new_password's cascade: presence, current password, confirmation, then
   * length. Success is flashed exactly when every check passes; every other
   * answer is a danger.
   */
  function PasswordFlash(storedHash: string, current: Option<string>, proposed: Option<string>, confirm: Option<string>,
                         hasher: Hasher): (flash: Flash)
    ensures flash.category == "password_success" <==> PasswordAccepted(storedHash, current, proposed, confirm, hasher)
    ensures flash.category != "password_success" ==> flash.category == "password_danger"
  {
    if Blank(current) || Blank(proposed) || Blank(confirm) then Flash("All fields are required.", "password_danger")
    else if !hasher.check(storedHash, current.value) then Flash("Current password is incorrect.", "password_danger")
    else if proposed.value != confirm.value then Flash("New passwords do not match.", "password_danger")
    else if |proposed.value| > 20 || |proposed.value| < 8 then
      Flash("Password must be between 8 and 20 characters.", "password_danger")
    else PasswordUpdated
  }

  /** All four checks pass. */
  predicate PasswordAccepted(storedHash: string, current: Option<string>, proposed: Option<string>,
                             confirm: Option<string>, hasher: Hasher) {
    && !Blank(current) && !Blank(proposed) && !Blank(confirm)
    && hasher.check(storedHash, current.value)
    && proposed.value == confirm.value
    && 8 <= |proposed.value| <= 20
  }

  /**
   * The update is announced exactly when all four checks pass; a missing field
   * is reported before a wrong current password, that before a mismatch, and
   * that before a length outside 8..20.
   */
  lemma PasswordCascade(storedHash: string, current: Option<string>, proposed: Option<string>, confirm: Option<string>,
                        hasher: Hasher)
    ensures PasswordFlash(storedHash, current, proposed, confirm, hasher) == PasswordUpdated <==>
      PasswordAccepted(storedHash, current, proposed, confirm, hasher)
    ensures Blank(current) || Blank(proposed) || Blank(confirm) ==>
      PasswordFlash(storedHash, current, proposed, confirm, hasher) == Flash("All fields are required.", "password_danger")
    ensures !Blank(current) && !Blank(proposed) && !Blank(confirm) && !hasher.check(storedHash, current.value) ==>
      PasswordFlash(storedHash, current, proposed, confirm, hasher) == Flash("Current password is incorrect.", "password_danger")
    ensures && !Blank(current) && !Blank(proposed) && !Blank(confirm) && hasher.check(storedHash, current.value)
            && proposed.value != confirm.value ==>
      PasswordFlash(storedHash, current, proposed, confirm, hasher) == Flash("New passwords do not match.", "password_danger")
    ensures && !Blank(current) && !Blank(proposed) && !Blank(confirm) && hasher.check(storedHash, current.value)
            && proposed.value == confirm.value && !(8 <= |proposed.value| <= 20) ==>
      PasswordFlash(storedHash, current, proposed, confirm, hasher) ==
      Flash("Password must be between 8 and 20 characters.", "password_danger")
  {
  }

  /**
   * With a hasher that recognises what it hashed, the new password passes the
   * current-password check of the next change.
   */
  lemma NewPasswordChecks(storedHash: string, current: Option<string>, proposed: Option<string>, confirm: Option<string>,
                          hasher: Hasher, next: Option<string>)
    requires Consistent(hasher)
    requires PasswordAccepted(storedHash, current, proposed, confirm, hasher)
    requires !Blank(next) && next.value == proposed.value
    ensures PasswordFlash(hasher.hash(proposed.value), Some(proposed.value), next, next, hasher) == PasswordUpdated
  {
  }

  // ---------------------------------------------------------------------------
  // The signed-in user
  // ---------------------------------------------------------------------------

  /** The two columns of the signed-in user these handlers change. */
  class User {
    var email: string
    var passwordHash: string

    constructor(email: string, passwordHash: string)
      ensures this.email == email && this.passwordHash == passwordHash
    {
      this.email := email;
      this.passwordHash := passwordHash;
    }

    /** new_email: `form` is `request.form['email']`, which answers 400 when the field is absent. */
    method ChangeEmail(form: Option<string>, inUse: string -> bool) returns (outcome: Outcome)
      modifies this
      ensures form.None? ==> outcome == BadRequest
      ensures form.Some? ==> outcome == Redirect(EmailFlash(old(email), form.value, inUse))
      ensures email == (if form.Some? && EmailAccepted(old(email), form.value, inUse) then form.value else old(email))
      ensures passwordHash == old(passwordHash)
    {
      if form.None? {
        return BadRequest;
      }
      var address := form.value;
      if address == email {
        return Redirect(EmailUnchanged);
      }
      if address == "" {
        return Redirect(Flash("All fields are required.", "email_danger"));
      }
      if inUse(address) {
        return Redirect(Flash("An account with that email already exists.", "email_danger"));
      }
      email := address;
      outcome := Redirect(EmailUpdated);
    }

    /** new_password: the hash changes only when every check passes. */
    method ChangePassword(current: Option<string>, proposed: Option<string>, confirm: Option<string>, hasher: Hasher)
      returns (flash: Flash)
      modifies this
      ensures flash == PasswordFlash(old(passwordHash), current, proposed, confirm, hasher)
      ensures passwordHash ==
        (if PasswordAccepted(old(passwordHash), current, proposed, confirm, hasher) then hasher.hash(proposed.value)
         else old(passwordHash))
      ensures email == old(email)
    {
      if Blank(current) || Blank(proposed) || Blank(confirm) {
        return Flash("All fields are required.", "password_danger");
      }
      if !hasher.check(passwordHash, current.value) {
        return Flash("Current password is incorrect.", "password_danger");
      }
      if proposed.value != confirm.value {
        return Flash("New passwords do not match.", "password_danger");
      }
      if |proposed.value| > 20 || |proposed.value| < 8 {
        return Flash("Password must be between 8 and 20 characters.", "password_danger");
      }
      passwordHash := hasher.hash(proposed.value);
      flash := PasswordUpdated;
    }
  }
}
