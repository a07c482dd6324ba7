# clucker microblog: a Dafny model

A model of the core of the clucker microblog (a Django application). Users sign up, log in,
follow one another, post short texts and read a feed. The model has three parts:

- **models** (`models.dfy`): the `User` record and its field constraints. These are the
  `@`-prefixed username of at most 30 characters, the unique username and email, the
  non-blank names of at most 50 characters, and the optional bio of at most 520 characters.
  Validation returns Django's error dictionary: a map from field to the codes reported on it.
  Emails are normalised as Django's user manager does it (the domain is lower-cased) before
  they are stored or compared for uniqueness.
- **forms** (`forms.dfy`): the forms' validation as functions returning `form.errors`. This
  covers the password strength rule, the confirmation and old-password checks of the
  `clean` methods, the four fields of the profile form, and the 280-character post text.
- **views** (`views.dfy`): the feed query and the profile page context as functions. A
  `Store` class holds users by id, posts in the order they were saved, the follow relation
  as (follower, followee) edges, and the session's logged-in user. Each view is a method on
  `Store` that says what the store becomes and which response it returns.

`text.dfy` holds the character classes and the two regular-expression shapes the validators
use. `wrappers.dfy` holds `Option`.

Some things the views rely on are defined outside the files modelled here, or are foreign
validators. Each one is a parameter:

- `emailOk` stands for the syntax check of Django's `EmailField`.
- `accepts` stands for `check_password` on a stored credential.
- `authenticate` stands for the credential check behind `LogInForm.get_user`. The view calls
  it, but the `LogInForm` in `microblogs/forms.py` does not define it.
- `toggle` stands for `User.toggle_follow`. It is not defined in `microblogs/models.py`.

The login gates appear as preconditions on the session. `login_required` and
`LoginRequiredMixin` are Django's own. `login_prohibited` and `LoginProhibitedMixin` come from
`microblogs/helpers.py`, which is not part of this model. `new_post` has no gate, so its method
handles the anonymous request itself.

Where a `clean` method compares two passwords, it compares the values in `cleaned_data`. A new
password that fails the strength rule is missing from `cleaned_data`. So the mismatch error
also appears when a weak password and its confirmation are equal. The model keeps this
behaviour (`Forms.MismatchIff`).

## Model

| member | source | states |
|---|---|---|
| `Text.AllWordCharsIff` | microblogs/models.py:11 | the `\w*` matcher accepts a string iff every character is a word character |
| `Text.ContainsInRangeIff` | microblogs/forms.py:21 | the `(?=.*[lo-hi])` lookahead holds iff some character lies in the range |
| `Models.UsernamePatternChars` | microblogs/models.py:10-13 | a username matches iff it starts with `@`, has at least 3 more characters, and all of them are word characters |
| `Models.UsernameValidIff` | microblogs/models.py:6-14 | the username field has no error iff it is 4 to 30 characters long, has one leading `@` followed only by word characters, and no other user holds it |
| `Models.UsernameBoundaries` | microblogs/models.py:8-9 | `'@'+29×'x'` is accepted; `'@'+30×'x'` gets only the too-long error; `''` gets only the blank error |
| `Models.UsernameExamples` | microblogs/models.py:11 | `johndoe`, `@@j0hndoe2`, `@john!doe` and `@me` fail the pattern |
| `Models.UsernameValidExample` | microblogs/models.py:11 | `@j0hndoe2` matches the pattern |
| `Models.TakenUsernameInvalid` | microblogs/models.py:7 | giving a user the username of another stored user puts an error on the username field |
| `Models.TakenEmailInvalid` | microblogs/models.py:26-29 | giving a user any email that normalises to another stored user's email puts an error on the email field |
| `Models.NormalizeEmailSplit` | microblogs/forms.py:38-45 | normalising `local@domain` (with no `@` in the domain) keeps the local part and lower-cases the domain |
| `Models.NormalizeEmailIdempotent` | microblogs/forms.py:38-45 | normalising an already normalised email changes nothing |
| `Models.DomainCaseCollides` | microblogs/models.py:26-27 | `a@X.org` and `a@x.org` normalise to the same address, so they count as the same email |
| `Models.LocalCaseKept` | microblogs/models.py:26-27 | `A@x.org` and `a@x.org` normalise to different addresses |
| `Models.NameBoundaries` | microblogs/models.py:16-24 | first and last names of 50 characters pass; 51 characters give the too-long error; blank gives the blank error |
| `Models.BioBoundaries` | microblogs/models.py:31-35 | a blank bio and a 520-character bio pass; a 521-character bio gets the too-long error |
| `Models.CharCodes` | microblogs/models.py:16-19 | a blank value is rejected iff blank is not allowed; any other value passes iff it is within the maximum length and its format holds |
| `Models.WithUniqueness` | microblogs/models.py:6-7 | the uniqueness error is reported only for a value that passed its own validation and that another user holds |
| `Models.FieldCodes` | microblogs/models.py:6-35 | the codes of one field: a blank value gets only the blank error; a uniqueness error comes alone and only on the username or email; the bio is never blank-rejected or malformed |
| `Models.UserErrors` | microblogs/models.py:5-35 | the error dictionary has an entry for exactly the checked fields whose codes are non-empty, holding those codes |
| `Models.FullClean` | microblogs/models.py:5-35 | `full_clean` reports nothing iff every field of the user passes |
| `Models.TrailingNewlineAccepted` | microblogs/models.py:11 | the pattern as written accepts `"@abc\n"`, which the intended pattern rejects |
| `Models.AsWrittenAgreesWithoutNewline` | microblogs/models.py:11 | on strings without a newline, the written and the intended pattern agree |
| `Forms.StrongPassword` | microblogs/forms.py:20-23 | the strength rule on a new password; a strong password is non-empty (its full characterisation is `Forms.StrongPasswordIff`) |
| `Forms.StrongPasswordIff` | microblogs/forms.py:61-64 | a new password is strong iff it has an uppercase letter, a lowercase letter and a digit |
| `Forms.StrongPasswordExample` | microblogs/forms.py:20-23 | `BetterPassword123` is strong |
| `Forms.WeakPasswordExamples` | microblogs/forms.py:61-64 | `password123`, `PASSWORD123` and `Password` are weak |
| `Forms.CheckConfirmation` | microblogs/forms.py:30-33 | the confirmation check can only add an error on `password_confirmation`; every other entry is kept |
| `Forms.SignUpErrors` | microblogs/forms.py:10-33 | sign-up errors fall only on the user fields, the new password and its confirmation; the new password has an error iff it is weak |
| `Forms.PasswordUpdateErrors` | microblogs/forms.py:55-81 | password-form errors fall only on the three password fields; the new password has an error iff it is weak; the confirmation has one iff it is blank or differs from the cleaned new password |
| `Forms.SignUpFree` | microblogs/models.py:6-7 | a valid sign-up names a username and an email no stored user holds |
| `Forms.MismatchIff` | microblogs/forms.py:27-33 | the mismatch error is added iff the cleaned values differ: for a strong password and a given confirmation, iff they differ; otherwise iff exactly one of the two is clean |
| `Forms.SignUpValidIff` | microblogs/forms.py:27-33 | the sign-up form is valid iff the new user's fields pass validation against the stored users, the password is strong, and the confirmation equals it |
| `Forms.PasswordUpdateValidIff` | microblogs/forms.py:72-81 | the password form is valid iff the old password is given and accepted, the new one is strong, and the confirmation equals it |
| `Forms.OldPasswordIncorrectIff` | microblogs/forms.py:75-77 | the incorrect-password error is on `old_password` iff the old password is missing or the credential does not accept it |
| `Forms.BothPasswordErrors` | microblogs/forms.py:72-81 | a rejected old password and a mismatched confirmation are both reported at once |
| `Forms.ProfileUpdateValidIff` | microblogs/forms.py:48-53 | the profile form is valid iff the names, email and bio pass, with the email unique among the other users |
| `Forms.ProfileUpdateErrors` | microblogs/forms.py:52 | the profile form reports errors only on first name, last name, email and bio |
| `Forms.PostErrors` | microblogs/forms.py:83-88 | the post form is valid iff the text has 1 to 280 characters |
| `Forms.PostTextBoundaries` | microblogs/forms.py:83-88 | 280 characters pass; 281 characters give the too-long error |
| `Views.Followees` | microblogs/views.py:78 | the followees of `u` are exactly the users `u` has an edge to |
| `Views.PostsBy` | microblogs/views.py:79 | the filter keeps only posts by the given authors |
| `Views.PostsByCount` | microblogs/views.py:79 | the filter keeps each post by a listed author as many times as it is stored, and no other post |
| `Views.PostsByAppend` | microblogs/views.py:79 | filtering after a new post gives the old result plus that post when its author is listed |
| `Views.ComposeFeed` | microblogs/views.py:77-79 | the feed is no longer than the stored posts and every post in it is by the reader or a followee |
| `Views.FeedContents` | microblogs/views.py:77-79 | a post is in the feed iff it is stored and its author is the reader or one of the reader's followees, each with its stored count |
| `Views.FeedAfterNewPost` | microblogs/views.py:77-79 | a new post extends the feed of every reader who is its author or follows its author, and no other feed; as multisets, the new feed is the old one plus that post exactly for those readers |
| `Views.FeedScenario` | microblogs/views.py:77-79 | a followed author's new post is in the reader's feed; a post by a user the reader does not follow is not |
| `Views.ShowUserContext` | microblogs/views.py:123-130 | the profile page shows exactly the viewed user's posts; `following` iff the viewer follows them; `followable` iff the viewer is someone else |
| `Views.NextOrDefault` | microblogs/views.py:38 | the log-in target is the posted `next` when it is given and non-empty, otherwise the configured default |
| `Views.UniqueAfterSignUp` | microblogs/forms.py:35-46 | saving a new user, with its email normalised, whose username and email are free keeps both unique and adds exactly one user |
| `Views.UniqueAfterProfileEdit` | microblogs/forms.py:48-53 | saving an edit, with its email normalised, that keeps the username and takes a free email keeps usernames and emails unique |
| `Views.Store.Valid` | microblogs/models.py:5-35 | the store invariant: ids below the next id, posts by stored users, a session naming a stored user, stored emails normalised, usernames and emails unique; it leaves the next id free |
| `Views.Store.constructor` | microblogs/models.py:5-35 | an empty store with no session satisfies the invariant |
| `Views.Store.SaveNewUser` | microblogs/views.py:64-66 | the form's user, its email normalised, is stored under the fresh id, exactly one user is added, the session becomes that user, and the invariant is kept |
| `Views.Store.FeedView` | microblogs/views.py:73-80 | the feed page shows exactly the stored posts by the reader or a followee |
| `Views.Store.NewPost` | microblogs/views.py:95-106 | one post by the requester is appended iff the request is a POST from a logged-in user with a valid text; the posts are unchanged otherwise; the response is always a redirect to the feed |
| `Views.Store.FollowToggle` | microblogs/views.py:83-92 | for an existing id, the toggle runs once and the response redirects to that user's page; for an unknown id, the follows are unchanged and the response redirects to the user list |
| `Views.Store.LogIn` | microblogs/views.py:35-44 | the session becomes the authenticated user iff the credential check yields one, with a redirect to `next` or the default; otherwise it stays anonymous and the log-in page is shown with that target |
| `Views.Store.LogOut` | microblogs/views.py:52-55 | the session is always cleared and the response redirects home |
| `Views.Store.SignUp` | microblogs/views.py:58-70 | a valid form adds exactly one user, built from the form data with its email normalised and the new password as its credential, under a fresh id, and logs that user in; otherwise nothing changes |
| `Views.Store.UpdateProfile` | microblogs/views.py:139-150 | a valid form overwrites only the names, email (normalised) and bio of the logged-in user; the username, the credential, the set of users and every other user are unchanged |
| `Views.Store.UpdatePassword` | microblogs/views.py:153-168 | the credential becomes the new password's iff the POSTed form is valid; the session stays logged in either way |
| `Views.Store.ShowUser` | microblogs/views.py:132-136 | an existing user's page is rendered with its context; an unknown id redirects to the user list |

## Left out

- Rendering, the `messages` framework, URL reversing and HTTP status codes are left out. Responses are only a redirect target or the page and its data.
- Password hashing is abstracted. A credential is made from the password it stores. `check_password`, `authenticate` and `update_session_auth_hash` are opaque parameters.
- Email syntax (Django's `EmailField`) is the parameter `emailOk`. The default maximum length of 254 is modelled.
- `User.toggle_follow`, `is_following`, `followees` and the `Post` model are not part of this model, and neither are `microblogs/helpers.py` and the settings module. The toggle is a parameter, and the model makes no claim about what it does. `following` and the followees are read from the stored edge set. The default log-in target `"feed"` comes from the log-in tests.
- `Forms.PostErrors`, `Forms.PostTextBoundaries`: the `Post` model is not part of this model. The 280-character limit comes from the post tests (microblogs/tests/models/test_post_model.py:20-26, microblogs/tests/test_post_form.py:16-19). The text is taken to be required, as a Django `CharField` is by default. No test submits a blank post, so the refusal of an empty text (in `Forms.PostErrors` and `Views.Store.NewPost`) is an assumption.
- `Views.Store.FeedView`, `Views.Store.ShowUser`, `Views.ShowUserContext`, `Views.FeedAfterNewPost`, `Views.PostsByAppend`, `Views.PostsBy`, `Views.ComposeFeed`: posts carry no creation time. The listed order is the model's own choice: posts appear in the order they were saved, and a new post goes at the end. The source orders posts through `Post.Meta.ordering`, which is not part of this model, so these members hold only up to order. The statements that carry over are the multiset and membership ones: `Views.FeedContents`, `Views.PostsByCount` and `Views.PostsByMembership`.
- Python's `\w` also accepts non-ASCII letters and digits. Here `Text.IsWordChar` accepts only ASCII letters, digits and `_`.
- `Forms.StrongPasswordIff`: newlines are not treated specially. In the regular expression, `.` stops at a newline, so a password with a newline could be judged differently.
- Form fields strip surrounding whitespace before validation. This is not modelled: a value is blank only when it is empty.
- Model forms first run their own field checks and then the model's checks on the fields that passed. Here one pass reports every code. The username's pattern is a model validator, so for a username that is both too long and malformed the form reports only the length error, where the model reports both. The email's checks all run at form level, so its codes agree. The set of fields in error is the same either way.
- `Models.FieldCodes`, `Models.UsernameValidIff`: the username check uses the intended pattern (`Models.UsernamePatternOk`, ending at the end of the string). As written, a username with one trailing newline also passes `full_clean`. The written pattern is `Models.UsernameRegexAsWritten`, and the difference is under "## Findings".
- `Models.NormalizeEmail`: Django's `normalize_email` also strips surrounding whitespace and lower-cases non-ASCII letters. Here only ASCII letters are lower-cased, and whitespace is not stripped. Django's Unicode normalisation of usernames is not modelled either.
- `LogInForm` in microblogs/forms.py:5-8 defines no `get_user`, which views.py:39 calls. The log-in tests expect it to return the authenticated user, so the parameter `authenticate` stands for it. The model makes no claim about what it does.
- `UserListView`, `LogInView.get` and `home` only render a page from unchanged state, so they are left out. The GET branches of the modelled views are included.
- Database integrity errors raised by concurrent requests, and the seed and unseed commands, are left out.

## Findings

| source | as written | input that shows it | evidently intended | confidence | as-written member | corrected member |
|---|---|---|---|---|---|---|
| microblogs/models.py:11 | `re.search(r'^@\w{3,}$', s)`: Python's `$` also matches just before a final newline | `"@abc\n"` passes the username validator (model-level `full_clean`; form fields strip it first) | the pattern ends at the end of the string (`\Z`) | medium, not executed | `Models.UsernameRegexAsWritten` (shown by `Models.TrailingNewlineAccepted`) | `Models.UsernamePatternOk` (characterised by `Models.UsernamePatternChars`) |
