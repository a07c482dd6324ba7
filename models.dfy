/**
  The records of the microblog and the field constraints Django checks when a `User` is
  cleaned: the `@` username pattern and its length, non-blank names of bounded length, a
  unique well-formed email, and an optional bounded bio.
 */
module Models {

  import opened Wrappers
  import opened Text

  type UserId = nat

  /** The stored secret. Hashing is abstracted away: a credential is made from one password. */
  datatype Credential = Credential(password: string)

  datatype User = User(
    username: string,
    firstName: string,
    lastName: string,
    email: string,
    bio: string,
    credential: Credential)

  /** A post: its author and its text (creation time and ordering are not modelled). */
  datatype Post = Post(author: UserId, text: string)

  /** The validated fields of `User`. */
  datatype Field = Username | FirstName | LastName | Email | Bio

  /**
    Why a field was rejected: left blank, longer than its maximum, failing its format
    validator, or already held by another user. Two more codes come only from the forms'
    `clean` methods: a confirmation that differs from the new password, and an old password
    the stored credential does not accept.
   */
  datatype Code = Blank | TooLong | Invalid | NotUnique | Mismatch | Incorrect

  const UsernameMaxLength: nat := 30
  const NameMaxLength: nat := 50
  const EmailMaxLength: nat := 254
  const BioMaxLength: nat := 520

  const AllFields: set<Field> := {Username, FirstName, LastName, Email, Bio}

  /** `^@\w{3,}\Z`: one `@`, then at least three word characters and nothing else. */
  predicate UsernamePatternOk(s: string) {
    |s| >= 4 && s[0] == '@' && AllWordChars(s[1..])
  }

  lemma UsernamePatternChars(s: string)
    ensures UsernamePatternOk(s) <==>
      |s| >= 4 && s[0] == '@' && forall i :: 1 <= i < |s| ==> IsWordChar(s[i])
  {
    if |s| >= 1 {
      AllWordCharsIff(s[1..]);
      assert forall i :: 1 <= i < |s| ==> s[i] == s[1..][i - 1];
    }
  }

  /**
    The pattern as the validator applies it: `re.search(r'^@\w{3,}$', s)`. Python's `$`
    also matches just before a final newline, so one trailing newline slips through.
   */
  predicate UsernameRegexAsWritten(s: string) {
    UsernamePatternOk(s) || (|s| >= 1 && s[|s| - 1] == '\n' && UsernamePatternOk(s[..|s| - 1]))
  }

  lemma TrailingNewlineAccepted()
    ensures UsernameRegexAsWritten("@abc\n") && !UsernamePatternOk("@abc\n")
  {
    var s := "@abc\n";
    assert s[..|s| - 1] == "@abc";
    UsernamePatternChars("@abc");
    UsernamePatternChars(s);
    assert !IsWordChar(s[4]);
  }

  lemma AsWrittenAgreesWithoutNewline(s: string)
    requires forall i :: 0 <= i < |s| ==> s[i] != '\n'
    ensures UsernameRegexAsWritten(s) <==> UsernamePatternOk(s)
  {
  }

  /**
    What Django reports for one character field: a blank value is only checked for being
    allowed blank; any other value runs the length and format validators, each of which may fail.
   */
  function CharCodes(value: string, blankOk: bool, maxLength: nat, formatOk: bool): (r: set<Code>)
    ensures r <= {Blank, TooLong, Invalid}
    ensures value == "" ==> (r == {} <==> blankOk)
    ensures value != "" ==> (r == {} <==> |value| <= maxLength && formatOk)
  {
    if value == "" then
      (if blankOk then {} else {Blank})
    else
      (if |value| > maxLength then {TooLong} else {}) + (if formatOk then {} else {Invalid})
  }

  /** Uniqueness is checked only for a field that passed its own validation. */
  function WithUniqueness(codes: set<Code>, taken: bool): (r: set<Code>)
    ensures r == {} <==> codes == {} && !taken
    ensures NotUnique in r <==> (codes == {} && taken) || NotUnique in codes
  {
    if codes == {} && taken then {NotUnique} else codes
  }

  /** Some user other than `self` already has this username. */
  predicate UsernameTaken(users: map<UserId, User>, self: Option<UserId>, name: string) {
    exists k :: k in users && Some(k) != self && users[k].username == name
  }

  /**
    `UserManager.normalize_email`: the part after the last `@` is lower-cased and the part
    before it is kept; an address without `@` is kept as it is. `AbstractUser.clean` and
    `create_user` apply it, so stored emails and the uniqueness check use this form.
   */
  function NormalizeEmail(email: string): (r: string)
    ensures |r| == |email|
  {
    match LastIndexOf(email, '@')
    case None => email
    case Some(at) => email[..at + 1] + Lower(email[at + 1..])
  }


  /** An address split at its last `@`: the domain is lower-cased and the local part kept. */
  lemma NormalizeEmailSplit(local: string, domain: string)
    requires forall j :: 0 <= j < |domain| ==> domain[j] != '@'
    ensures NormalizeEmail(local + "@" + domain) == local + "@" + Lower(domain)
  {
    var e := local + "@" + domain;
    assert e[|local|] == '@';
    assert forall j :: |local| < j < |e| ==> e[j] == domain[j - |local| - 1];
    assert LastIndexOf(e, '@') == Some(|local|);
    assert e[..|local| + 1] == local + "@";
    assert e[|local| + 1..] == domain;
  }

  lemma NormalizeEmailIdempotent(email: string)
    ensures NormalizeEmail(NormalizeEmail(email)) == NormalizeEmail(email)
  {
    match LastIndexOf(email, '@')
    case None =>
      assert NormalizeEmail(email) == email;
    case Some(at) =>
      var local, domain := email[..at], email[at + 1..];
      assert email == local + "@" + domain;
      assert forall j :: 0 <= j < |domain| ==> domain[j] != '@' by {
        forall j | 0 <= j < |domain| ensures domain[j] != '@' {
          assert domain[j] == email[at + 1 + j];
        }
      }
      NormalizeEmailSplit(local, domain);
      var lowered := Lower(domain);
      assert forall j :: 0 <= j < |lowered| ==> lowered[j] != '@';
      NormalizeEmailSplit(local, lowered);
      LowerIdempotent(domain);
      assert NormalizeEmail(email) == local + "@" + lowered;
  }

  /** Addresses differing only in the case of the domain collide. */
  lemma DomainCaseCollides()
    ensures NormalizeEmail("a@X.org") == NormalizeEmail("a@x.org")
  {
    assert "a@X.org" == "a" + "@" + "X.org";
    assert "a@x.org" == "a" + "@" + "x.org";
    NormalizeEmailSplit("a", "X.org");
    NormalizeEmailSplit("a", "x.org");
    assert Lower("X.org") == Lower("x.org");
  }

  /** Addresses differing in the case of the local part stay distinct. */
  lemma LocalCaseKept()
    ensures NormalizeEmail("A@x.org") != NormalizeEmail("a@x.org")
  {
    assert "A@x.org" == "A" + "@" + "x.org";
    assert "a@x.org" == "a" + "@" + "x.org";
    NormalizeEmailSplit("A", "x.org");
    NormalizeEmailSplit("a", "x.org");
    assert NormalizeEmail("A@x.org")[0] == 'A';
  }

  /** Some user other than `self` already has this email, once it is normalised. */
  predicate EmailTaken(users: map<UserId, User>, self: Option<UserId>, email: string) {
    exists k :: k in users && Some(k) != self && users[k].email == NormalizeEmail(email)
  }

  /** The error codes for field `f` of candidate record `u`; `self` is its id once saved. */
  function FieldCodes(users: map<UserId, User>, self: Option<UserId>, u: User, f: Field,
                      emailOk: string -> bool): (r: set<Code>)
    ensures Mismatch !in r && Incorrect !in r
    ensures Blank in r ==> TooLong !in r && Invalid !in r && NotUnique !in r
    ensures NotUnique in r ==> (f == Username || f == Email) && TooLong !in r && Invalid !in r
    ensures f == Bio ==> Blank !in r && Invalid !in r
  {
    match f
    case Username =>
      WithUniqueness(CharCodes(u.username, false, UsernameMaxLength, UsernamePatternOk(u.username)),
                     UsernameTaken(users, self, u.username))
    case FirstName => CharCodes(u.firstName, false, NameMaxLength, true)
    case LastName => CharCodes(u.lastName, false, NameMaxLength, true)
    case Email =>
      WithUniqueness(CharCodes(u.email, false, EmailMaxLength, emailOk(u.email)),
                     EmailTaken(users, self, u.email))
    case Bio => CharCodes(u.bio, true, BioMaxLength, true)
  }

  /**
    The validation errors of `u` restricted to `fields`, keyed by field as Django's error
    dictionary is. `full_clean` checks every field; a model form checks only its own.
   */
  function UserErrors(users: map<UserId, User>, self: Option<UserId>, u: User, fields: set<Field>,
                      emailOk: string -> bool): (r: map<Field, set<Code>>)
    ensures r.Keys <= fields
    ensures forall f :: f in fields ==> (f in r <==> FieldCodes(users, self, u, f, emailOk) != {})
    ensures forall f :: f in r ==> r[f] == FieldCodes(users, self, u, f, emailOk) && r[f] != {}
  {
    map f | f in fields && FieldCodes(users, self, u, f, emailOk) != {} :: FieldCodes(users, self, u, f, emailOk)
  }

  /** `User.full_clean()` for the user stored under `id`. */
  function FullClean(users: map<UserId, User>, id: UserId, u: User, emailOk: string -> bool): (r: map<Field, set<Code>>)
    ensures r.Keys <= AllFields
    ensures r == map[] <==> forall f :: FieldCodes(users, Some(id), u, f, emailOk) == {}
  {
    UserErrors(users, Some(id), u, AllFields, emailOk)
  }

  lemma UsernameValidIff(users: map<UserId, User>, self: Option<UserId>, u: User, fields: set<Field>,
                         emailOk: string -> bool)
    requires Username in fields
    ensures Username !in UserErrors(users, self, u, fields, emailOk) <==>
      && 4 <= |u.username| <= UsernameMaxLength
      && u.username[0] == '@'
      && (forall i :: 1 <= i < |u.username| ==> IsWordChar(u.username[i]))
      && !UsernameTaken(users, self, u.username)
  {
    UsernamePatternChars(u.username);
  }

  lemma UsernameBoundaries(users: map<UserId, User>, self: Option<UserId>, u: User, emailOk: string -> bool)
    requires !UsernameTaken(users, self, "@" + Repeat('x', 29))
    ensures Username !in UserErrors(users, self, u.(username := "@" + Repeat('x', 29)), {Username}, emailOk)
    ensures UserErrors(users, self, u.(username := "@" + Repeat('x', 30)), {Username}, emailOk)[Username] == {TooLong}
    ensures UserErrors(users, self, u.(username := ""), {Username}, emailOk)[Username] == {Blank}
  {
    var ok := "@" + Repeat('x', 29);
    var long := "@" + Repeat('x', 30);
    UsernamePatternChars(ok);
    UsernamePatternChars(long);
    assert forall i :: 1 <= i < |ok| ==> ok[i] == 'x';
    assert forall i :: 1 <= i < |long| ==> long[i] == 'x';
  }

  lemma UsernameExamples()
    ensures !UsernamePatternOk("johndoe")
    ensures !UsernamePatternOk("@@j0hndoe2")
    ensures !UsernamePatternOk("@john!doe")
    ensures !UsernamePatternOk("@me")
  {
    assert "@@j0hndoe2"[1..][0] == '@';
    assert "@john!doe"[1..] == "john!doe";
    AllWordCharsIff("john!doe");
    assert "john!doe"[4] == '!';
  }

  lemma UsernameValidExample()
    ensures UsernamePatternOk("@j0hndoe2")
  {
    var rest := "j0hndoe2";
    assert "@j0hndoe2"[1..] == rest;
    assert forall i :: 0 <= i < |rest| ==> IsWordChar(rest[i]);
    AllWordCharsIff(rest);
  }

  lemma TakenUsernameInvalid(users: map<UserId, User>, id: UserId, other: UserId, u: User,
                             emailOk: string -> bool)
    requires other in users && other != id
    ensures Username in FullClean(users, id, u.(username := users[other].username), emailOk)
  {
    var v := u.(username := users[other].username);
    assert UsernameTaken(users, Some(id), v.username);
  }

  lemma TakenEmailInvalid(users: map<UserId, User>, id: UserId, other: UserId, u: User, email: string,
                          emailOk: string -> bool)
    requires other in users && other != id
    requires NormalizeEmail(email) == users[other].email
    ensures Email in FullClean(users, id, u.(email := email), emailOk)
  {
    var v := u.(email := email);
    assert EmailTaken(users, Some(id), v.email);
  }

  lemma NameBoundaries(users: map<UserId, User>, self: Option<UserId>, u: User, emailOk: string -> bool)
    ensures FirstName !in UserErrors(users, self, u.(firstName := Repeat('x', 50)), AllFields, emailOk)
    ensures UserErrors(users, self, u.(firstName := Repeat('x', 51)), AllFields, emailOk)[FirstName] == {TooLong}
    ensures UserErrors(users, self, u.(firstName := ""), AllFields, emailOk)[FirstName] == {Blank}
    ensures LastName !in UserErrors(users, self, u.(lastName := Repeat('x', 50)), AllFields, emailOk)
    ensures UserErrors(users, self, u.(lastName := Repeat('x', 51)), AllFields, emailOk)[LastName] == {TooLong}
    ensures UserErrors(users, self, u.(lastName := ""), AllFields, emailOk)[LastName] == {Blank}
  {
  }

  lemma BioBoundaries(users: map<UserId, User>, self: Option<UserId>, u: User, emailOk: string -> bool)
    ensures Bio !in UserErrors(users, self, u.(bio := ""), AllFields, emailOk)
    ensures Bio !in UserErrors(users, self, u.(bio := Repeat('x', 520)), AllFields, emailOk)
    ensures UserErrors(users, self, u.(bio := Repeat('x', 521)), AllFields, emailOk)[Bio] == {TooLong}
  {
  }
}
