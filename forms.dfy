/**
  The forms of the microblog as validation functions. A form's `errors` is a map from field to
  the codes reported on it; a form is valid when that map is empty. `clean` methods compare
  the values left in `cleaned_data`, where a field that failed its own validation is absent.
 */
module Forms {

  import opened Wrappers
  import opened Text
  import opened Models

  datatype FormField = ModelField(field: Field) | OldPassword | NewPassword | PasswordConfirmation | PostText

  type Errors = map<FormField, set<Code>>

  const PostTextMaxLength: nat := 280

  /** The fields `ProfileUpdateForm` edits. */
  const ProfileFields: set<Field> := {FirstName, LastName, Email, Bio}

  /** `^(?=.*[A-Z])(?=.*[a-z])(?=.*[0-9]).*$` on a password without newlines. */
  predicate StrongPassword(p: string)
    ensures StrongPassword(p) ==> p != ""
  {
    ContainsInRange(p, 'A', 'Z') && ContainsInRange(p, 'a', 'z') && ContainsInRange(p, '0', '9')
  }

  lemma StrongPasswordIff(p: string)
    ensures StrongPassword(p) <==>
      && (exists i :: 0 <= i < |p| && 'A' <= p[i] <= 'Z')
      && (exists i :: 0 <= i < |p| && 'a' <= p[i] <= 'z')
      && (exists i :: 0 <= i < |p| && '0' <= p[i] <= '9')
  {
    ContainsInRangeIff(p, 'A', 'Z');
    ContainsInRangeIff(p, 'a', 'z');
    ContainsInRangeIff(p, '0', '9');
  }

  lemma StrongPasswordExample()
    ensures StrongPassword("BetterPassword123")
  {
    var p := "BetterPassword123";
    StrongPasswordIff(p);
    assert p[0] == 'B' && p[1] == 'e' && p[14] == '1';
  }

  lemma WeakPasswordExamples()
    ensures !StrongPassword("password123")
    ensures !StrongPassword("PASSWORD123")
    ensures !StrongPassword("Password")
  {
    var lower, upper, letters := "password123", "PASSWORD123", "Password";
    ContainsInRangeIff(lower, 'A', 'Z');
    assert forall i :: 0 <= i < |lower| ==> !('A' <= lower[i] <= 'Z');
    ContainsInRangeIff(upper, 'a', 'z');
    assert forall i :: 0 <= i < |upper| ==> !('a' <= upper[i] <= 'z');
    ContainsInRangeIff(letters, '0', '9');
    assert forall i :: 0 <= i < |letters| ==> !('0' <= letters[i] <= '9');
  }

  /** A required `forms.CharField` with one validator: blank, or failing the validator. */
  function RequiredCodes(value: string, formatOk: bool): (r: set<Code>)
    ensures r == {} <==> value != "" && formatOk
  {
    if value == "" then {Blank} else if formatOk then {} else {Invalid}
  }

  function NewPasswordCodes(p: string): (r: set<Code>)
    ensures r == {} <==> StrongPassword(p)
  {
    RequiredCodes(p, StrongPassword(p))
  }

  /** What `cleaned_data.get(name)` yields: the value if its field passed, else `None`. */
  function Cleaned(value: string, codes: set<Code>): (r: Option<string>)
    ensures r.Some? <==> codes == {}
  {
    if codes == {} then Some(value) else None
  }

  /** The entry a field contributes to `errors`: none when it has no codes. */
  function Entry(f: FormField, codes: set<Code>): (r: Errors)
    ensures f in r <==> codes != {}
    ensures r.Keys <= {f}
    ensures f in r ==> r[f] == codes
  {
    if codes == {} then map[] else map[f := codes]
  }

  /** `add_error(f, code)`. */
  function AddError(errors: Errors, f: FormField, c: Code): (r: Errors)
    ensures r.Keys == errors.Keys + {f}
    ensures c in r[f]
    ensures forall g :: g in errors ==> errors[g] <= r[g]
    ensures forall g :: g in errors && g != f ==> r[g] == errors[g]
  {
    errors[f := (if f in errors then errors[f] else {}) + {c}]
  }

  /** The model-field errors of a model form, keyed as form fields. */
  function Lift(errors: map<Field, set<Code>>): (r: Errors)
    ensures forall f :: ModelField(f) in r <==> f in errors
    ensures forall f :: f in errors ==> r[ModelField(f)] == errors[f]
    ensures forall g :: g in r ==> g.ModelField?
  {
    map g | g in (set f | f in errors :: ModelField(f)) :: errors[g.field]
  }

  /** The user `SignUpForm` describes. */
  datatype SignUpData = SignUpData(
    firstName: string,
    lastName: string,
    username: string,
    email: string,
    bio: string,
    newPassword: string,
    passwordConfirmation: string)

  /** The instance the model form validates: the data as entered. */
  function Candidate(d: SignUpData): User {
    User(d.username, d.firstName, d.lastName, d.email, d.bio, Credential(d.newPassword))
  }

  /** The user `create_user` saves: the same data with the email normalised. */
  function Registered(d: SignUpData): User {
    Candidate(d).(email := NormalizeEmail(d.email))
  }

  /**
    `clean`'s confirmation check: the error is added when the cleaned values differ, so it also
    fires when the confirmation matches a new password that failed the strength rule.
   */
  function CheckConfirmation(errors: Errors, newPassword: string, confirmation: string): (r: Errors)
    ensures errors.Keys <= r.Keys <= errors.Keys + {PasswordConfirmation}
    ensures forall g :: g in errors && g != PasswordConfirmation ==> r[g] == errors[g]
    ensures PasswordConfirmation in errors ==> errors[PasswordConfirmation] <= r[PasswordConfirmation]
  {
    if Cleaned(newPassword, NewPasswordCodes(newPassword)) != Cleaned(confirmation, RequiredCodes(confirmation, true))
    then AddError(errors, PasswordConfirmation, Mismatch)
    else errors
  }

  /** `SignUpForm.errors` against the users already stored. */
  function SignUpErrors(users: map<UserId, User>, d: SignUpData, emailOk: string -> bool): (r: Errors)
    ensures forall g :: g in r ==> g.ModelField? || g == NewPassword || g == PasswordConfirmation
    ensures NewPassword in r <==> !StrongPassword(d.newPassword)
  {
    var fieldErrors :=
      Lift(UserErrors(users, None, Candidate(d), AllFields, emailOk))
      + Entry(NewPassword, NewPasswordCodes(d.newPassword))
      + Entry(PasswordConfirmation, RequiredCodes(d.passwordConfirmation, true));
    CheckConfirmation(fieldErrors, d.newPassword, d.passwordConfirmation)
  }

  /** `user.check_password(old_password)`: the opaque verifier, and never for a missing value. */
  predicate CheckPassword(accepts: (Credential, string) -> bool, c: Credential, given: Option<string>) {
    given.Some? && accepts(c, given.value)
  }

  /** `PasswordUpdateForm.errors` for the user holding credential `c`. */
  function PasswordUpdateErrors(accepts: (Credential, string) -> bool, c: Credential,
                                oldPassword: string, newPassword: string, confirmation: string): (r: Errors)
    ensures forall g :: g in r ==> g == OldPassword || g == NewPassword || g == PasswordConfirmation
    ensures NewPassword in r <==> !StrongPassword(newPassword)
    ensures PasswordConfirmation in r <==>
      confirmation == "" || Cleaned(newPassword, NewPasswordCodes(newPassword)) != Some(confirmation)
  {
    var fieldErrors :=
      Entry(OldPassword, RequiredCodes(oldPassword, true))
      + Entry(NewPassword, NewPasswordCodes(newPassword))
      + Entry(PasswordConfirmation, RequiredCodes(confirmation, true));
    var checked :=
      if CheckPassword(accepts, c, Cleaned(oldPassword, RequiredCodes(oldPassword, true)))
      then fieldErrors
      else AddError(fieldErrors, OldPassword, Incorrect);
    CheckConfirmation(checked, newPassword, confirmation)
  }

  /** `ProfileUpdateForm.errors` for the user stored under `id`, with the four edited fields. */
  function ProfileUpdateErrors(users: map<UserId, User>, id: UserId, edited: User, emailOk: string -> bool): (r: Errors)
    ensures forall g :: g in r ==> g.ModelField? && g.field in ProfileFields
  {
    Lift(UserErrors(users, Some(id), edited, ProfileFields, emailOk))
  }

  /** `PostForm.errors`: the text is required and at most 280 characters. */
  function PostErrors(text: string): (r: Errors)
    ensures r == map[] <==> 0 < |text| <= PostTextMaxLength
  {
    Entry(PostText, CharCodes(text, false, PostTextMaxLength, true))
  }

  lemma PostTextBoundaries()
    ensures PostErrors(Repeat('x', 280)) == map[]
    ensures PostErrors(Repeat('x', 281)) == map[PostText := {TooLong}]
  {
    var long := Repeat('x', 281);
    assert long != "" && |long| > PostTextMaxLength;
    assert CharCodes(long, false, PostTextMaxLength, true) == {TooLong};
  }

  lemma MismatchIff(errors: Errors, newPassword: string, confirmation: string)
    requires PasswordConfirmation !in errors || Mismatch !in errors[PasswordConfirmation]
    ensures var r := CheckConfirmation(errors, newPassword, confirmation);
      (PasswordConfirmation in r && Mismatch in r[PasswordConfirmation]) <==>
        if StrongPassword(newPassword) && confirmation != "" then newPassword != confirmation
        else StrongPassword(newPassword) || confirmation != ""
  {
  }

  lemma SignUpValidIff(users: map<UserId, User>, d: SignUpData, emailOk: string -> bool)
    ensures SignUpErrors(users, d, emailOk) == map[] <==>
      && UserErrors(users, None, Candidate(d), AllFields, emailOk) == map[]
      && StrongPassword(d.newPassword)
      && d.newPassword == d.passwordConfirmation
  {
    var e := Lift(UserErrors(users, None, Candidate(d), AllFields, emailOk));
    var fieldErrors := e
      + Entry(NewPassword, NewPasswordCodes(d.newPassword))
      + Entry(PasswordConfirmation, RequiredCodes(d.passwordConfirmation, true));
    if UserErrors(users, None, Candidate(d), AllFields, emailOk) != map[] {
      var f :| f in UserErrors(users, None, Candidate(d), AllFields, emailOk);
      assert ModelField(f) in fieldErrors;
    }
    if !StrongPassword(d.newPassword) {
      assert NewPassword in fieldErrors;
    }
    if e == map[] && StrongPassword(d.newPassword) && d.newPassword == d.passwordConfirmation {
      assert fieldErrors == map[];
    }
  }

  /** A valid sign-up names a username and an email no stored user holds. */
  lemma SignUpFree(users: map<UserId, User>, d: SignUpData, emailOk: string -> bool)
    requires SignUpErrors(users, d, emailOk) == map[]
    ensures !UsernameTaken(users, None, d.username) && !EmailTaken(users, None, d.email)
  {
    SignUpValidIff(users, d, emailOk);
    assert FieldCodes(users, None, Candidate(d), Username, emailOk) == {};
    assert FieldCodes(users, None, Candidate(d), Email, emailOk) == {};
  }

  lemma PasswordUpdateValidIff(accepts: (Credential, string) -> bool, c: Credential,
                               oldPassword: string, newPassword: string, confirmation: string)
    ensures PasswordUpdateErrors(accepts, c, oldPassword, newPassword, confirmation) == map[] <==>
      && oldPassword != ""
      && accepts(c, oldPassword)
      && StrongPassword(newPassword)
      && newPassword == confirmation
  {
    var fieldErrors :=
      Entry(OldPassword, RequiredCodes(oldPassword, true))
      + Entry(NewPassword, NewPasswordCodes(newPassword))
      + Entry(PasswordConfirmation, RequiredCodes(confirmation, true));
    if !StrongPassword(newPassword) {
      assert NewPassword in fieldErrors;
    }
    if oldPassword != "" && StrongPassword(newPassword) && newPassword == confirmation {
      assert fieldErrors == map[];
    }
  }

  lemma OldPasswordIncorrectIff(accepts: (Credential, string) -> bool, c: Credential,
                                oldPassword: string, newPassword: string, confirmation: string)
    ensures var r := PasswordUpdateErrors(accepts, c, oldPassword, newPassword, confirmation);
      (OldPassword in r && Incorrect in r[OldPassword]) <==> oldPassword == "" || !accepts(c, oldPassword)
  {
  }

  /** The two `clean` checks are independent: a wrong old password and a mismatch are both reported. */
  lemma BothPasswordErrors(accepts: (Credential, string) -> bool, c: Credential,
                           oldPassword: string, newPassword: string, confirmation: string)
    requires !accepts(c, oldPassword)
    requires StrongPassword(newPassword) && confirmation != "" && newPassword != confirmation
    ensures var r := PasswordUpdateErrors(accepts, c, oldPassword, newPassword, confirmation);
      && OldPassword in r && Incorrect in r[OldPassword]
      && PasswordConfirmation in r && Mismatch in r[PasswordConfirmation]
  {
  }

  lemma ProfileUpdateValidIff(users: map<UserId, User>, id: UserId, edited: User, emailOk: string -> bool)
    ensures ProfileUpdateErrors(users, id, edited, emailOk) == map[] <==>
      && 0 < |edited.firstName| <= NameMaxLength
      && 0 < |edited.lastName| <= NameMaxLength
      && 0 < |edited.email| <= EmailMaxLength && emailOk(edited.email) && !EmailTaken(users, Some(id), edited.email)
      && |edited.bio| <= BioMaxLength
  {
    var e := UserErrors(users, Some(id), edited, ProfileFields, emailOk);
    if e != map[] {
      var f :| f in e;
      assert ModelField(f) in ProfileUpdateErrors(users, id, edited, emailOk);
    }
    if ProfileUpdateErrors(users, id, edited, emailOk) == map[] {
      assert FirstName !in e && LastName !in e && Email !in e && Bio !in e;
    }
  }
}
