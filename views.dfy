/**
  The views as transitions of one store: users by id, posts in the order they were saved, the
  follow relation as a set of (follower, followee) edges, and the session's logged-in user.
  The feed and the profile page are queries over that store; the other views change it.
 */
module Views {

  import opened Wrappers
  import opened Models
  import opened Forms

  /** (follower, followee). */
  type Edge = (UserId, UserId)

  /** `user.followees`: the users `u` follows. */
  function Followees(follows: set<Edge>, u: UserId): (r: set<UserId>)
    ensures forall v :: v in r <==> (u, v) in follows
  {
    set e | e in follows && e.0 == u :: e.1
  }

  /** `Post.objects.filter(author__in=authors)`, keeping the stored order. */
  function PostsBy(posts: seq<Post>, authors: set<UserId>): (r: seq<Post>)
    ensures |r| <= |posts|
    ensures forall i :: 0 <= i < |r| ==> r[i].author in authors
  {
    if posts == [] then []
    else (if posts[0].author in authors then [posts[0]] else []) + PostsBy(posts[1..], authors)
  }

  /** The filter keeps every post of an author in the set as often as it is stored, and no other. */
  lemma {:induction false} PostsByCount(posts: seq<Post>, authors: set<UserId>, p: Post)
    ensures multiset(PostsBy(posts, authors))[p] == if p.author in authors then multiset(posts)[p] else 0
  {
    if posts != [] {
      PostsByCount(posts[1..], authors, p);
      assert posts == [posts[0]] + posts[1..];
      assert multiset(posts) == multiset([posts[0]]) + multiset(posts[1..]);
    }
  }

  lemma PostsByMembership(posts: seq<Post>, authors: set<UserId>, p: Post)
    ensures p in PostsBy(posts, authors) <==> p in posts && p.author in authors
  {
    PostsByCount(posts, authors, p);
    assert p in PostsBy(posts, authors) <==> multiset(PostsBy(posts, authors))[p] > 0;
    assert p in posts <==> multiset(posts)[p] > 0;
  }

  /** A post saved later shows up at the end of the filter, if its author is in the set. */
  lemma {:induction false} PostsByAppend(posts: seq<Post>, p: Post, authors: set<UserId>)
    ensures PostsBy(posts + [p], authors) == PostsBy(posts, authors) + (if p.author in authors then [p] else [])
  {
    if posts == [] {
      assert PostsBy([p], authors) == (if p.author in authors then [p] else []) + PostsBy([], authors);
    } else {
      assert (posts + [p])[0] == posts[0];
      assert (posts + [p])[1..] == posts[1..] + [p];
      PostsByAppend(posts[1..], p, authors);
    }
  }

  /** The feed of `u`: posts whose author is `u` or one of `u`'s followees. */
  function ComposeFeed(posts: seq<Post>, follows: set<Edge>, u: UserId): (r: seq<Post>)
    ensures |r| <= |posts|
    ensures forall i :: 0 <= i < |r| ==> r[i].author == u || (u, r[i].author) in follows
  {
    PostsBy(posts, Followees(follows, u) + {u})
  }

  lemma FeedContents(posts: seq<Post>, follows: set<Edge>, u: UserId, p: Post)
    ensures p in ComposeFeed(posts, follows, u) <==> p in posts && (p.author == u || (u, p.author) in follows)
    ensures multiset(ComposeFeed(posts, follows, u))[p] ==
      if p.author == u || (u, p.author) in follows then multiset(posts)[p] else 0
  {
    PostsByMembership(posts, Followees(follows, u) + {u}, p);
    PostsByCount(posts, Followees(follows, u) + {u}, p);
  }

  lemma FeedAfterNewPost(posts: seq<Post>, follows: set<Edge>, u: UserId, p: Post)
    ensures ComposeFeed(posts + [p], follows, u) ==
      ComposeFeed(posts, follows, u) + (if p.author == u || (u, p.author) in follows then [p] else [])
    ensures multiset(ComposeFeed(posts + [p], follows, u)) ==
      multiset(ComposeFeed(posts, follows, u)) + (if p.author == u || (u, p.author) in follows then multiset{p} else multiset{})
  {
    PostsByAppend(posts, p, Followees(follows, u) + {u});
  }

  /**
    A reader who follows one author sees that author's new post and never the post of a user
    they do not follow.
   */
  lemma FeedScenario(posts: seq<Post>, follows: set<Edge>, reader: UserId, followed: UserId, stranger: UserId,
                     text: string, other: string)
    requires (reader, followed) in follows
    requires stranger != reader && (reader, stranger) !in follows
    ensures Post(followed, text) in ComposeFeed(posts + [Post(followed, text)], follows, reader)
    ensures Post(stranger, other) !in ComposeFeed(posts + [Post(stranger, other)], follows, reader)
  {
    FeedContents(posts + [Post(followed, text)], follows, reader, Post(followed, text));
    FeedContents(posts + [Post(stranger, other)], follows, reader, Post(stranger, other));
  }

  /** What the profile page of `viewed` shows to `viewer`. */
  datatype ProfileContext = ProfileContext(user: UserId, posts: seq<Post>, following: bool, followable: bool)

  function ShowUserContext(posts: seq<Post>, follows: set<Edge>, viewer: UserId, viewed: UserId): (r: ProfileContext)
    ensures r.user == viewed
    ensures r.followable <==> viewer != viewed
    ensures r.following <==> (viewer, viewed) in follows
    ensures forall p :: p in r.posts <==> p in posts && p.author == viewed
  {
    var shown := PostsBy(posts, {viewed});
    assert forall p :: p in shown <==> p in posts && p.author == viewed by {
      forall p ensures p in shown <==> p in posts && p.author == viewed {
        PostsByMembership(posts, {viewed}, p);
      }
    }
    ProfileContext(viewed, shown, (viewer, viewed) in follows, viewer != viewed)
  }

  datatype RequestMethod = GetRequest | PostRequest

  /** A redirect target: a named route, a user's profile page, or a path taken from the request. */
  datatype Url = Route(name: string) | UserPage(userId: UserId) | Location(path: string)

  datatype Page =
    | LogInPage(next: string)
    | SignUpPage(signUpErrors: Errors)
    | FeedPage(posts: seq<Post>)
    | ShowUserPage(context: ProfileContext)
    | ProfilePage(profileErrors: Errors)
    | PasswordPage(passwordErrors: Errors)

  datatype Response = Redirect(to: Url) | Render(page: Page)

  /** `settings.REDIRECT_URL_WHEN_LOGGED_IN`. */
  const RedirectWhenLoggedIn: string := "feed"

  /** `request.POST.get('next') or settings.REDIRECT_URL_WHEN_LOGGED_IN`. */
  function NextOrDefault(next: Option<string>): (r: string)
    ensures r != ""
    ensures next.Some? && next.value != "" ==> r == next.value
    ensures next == None || next == Some("") ==> r == RedirectWhenLoggedIn
  {
    if next.Some? && next.value != "" then next.value else RedirectWhenLoggedIn
  }

  /** The unique constraints of the `username` and `email` columns. */
  ghost predicate UniqueUsers(users: map<UserId, User>) {
    forall a, b :: a in users && b in users && a != b ==>
      users[a].username != users[b].username && users[a].email != users[b].email
  }

  /** Saving a new user `u`, its email normalised, whose username and email are free. */
  lemma UniqueAfterSignUp(users: map<UserId, User>, id: UserId, u: User)
    requires UniqueUsers(users) && id !in users
    requires !UsernameTaken(users, None, u.username) && !EmailTaken(users, None, u.email)
    ensures UniqueUsers(users[id := u.(email := NormalizeEmail(u.email))])
    ensures |users[id := u.(email := NormalizeEmail(u.email))]| == |users| + 1
  {
    forall a | a in users
      ensures users[a].username != u.username && users[a].email != NormalizeEmail(u.email)
    {
      assert Some(a) != None;
    }
  }

  /** Saving user `id` as `u`, its email normalised, with the username kept and a free email. */
  lemma UniqueAfterProfileEdit(users: map<UserId, User>, id: UserId, u: User)
    requires UniqueUsers(users) && id in users
    requires u.username == users[id].username && !EmailTaken(users, Some(id), u.email)
    ensures UniqueUsers(users[id := u.(email := NormalizeEmail(u.email))])
  {
    forall a | a in users && a != id
      ensures users[a].username != u.username && users[a].email != NormalizeEmail(u.email)
    {
      assert Some(a) != Some(id);
    }
  }

  /** Every stored email is already in normalised form. */
  ghost predicate NormalisedEmails(users: map<UserId, User>) {
    forall k :: k in users ==> NormalizeEmail(users[k].email) == users[k].email
  }

  class Store {
    var users: map<UserId, User>
    var posts: seq<Post>
    var follows: set<Edge>
    var session: Option<UserId>
    /** The id the next signed-up user receives. */
    var nextId: UserId

    /**
      Ids below `nextId`, posts by stored users, a session naming a stored user, stored emails
      already normalised, and the unique columns unique.
     */
    ghost predicate Valid()
      reads this
      ensures Valid() ==> nextId !in users
    {
      && (forall k :: k in users ==> k < nextId)
      && NormalisedEmails(users)
      && (forall i :: 0 <= i < |posts| ==> posts[i].author in users)
      && (session.Some? ==> session.value in users)
      && UniqueUsers(users)
    }

    constructor ()
      ensures Valid()
      ensures users == map[] && posts == [] && follows == {} && session == None
    {
      users, posts, follows, session, nextId := map[], [], {}, None, 0;
    }

    /** `feed`: requires a logged-in user. */
    method FeedView() returns (r: Response)
      requires session.Some?
      ensures r.Render? && r.page.FeedPage?
      ensures forall p :: p in r.page.posts <==> p in posts && (p.author == session.value || (session.value, p.author) in follows)
      ensures r == Render(FeedPage(ComposeFeed(posts, follows, session.value)))
    {
      var me := session.value;
      var authors := Followees(follows, me) + {me};
      var shown := PostsBy(posts, authors);
      forall p ensures p in shown <==> p in posts && (p.author == me || (me, p.author) in follows) {
        FeedContents(posts, follows, me, p);
      }
      r := Render(FeedPage(shown));
    }

    /** `new_post`: saves the text for a logged-in author when the form is valid; always back to the feed. */
    method NewPost(request: RequestMethod, text: string) returns (r: Response)
      requires Valid()
      modifies this`posts
      ensures Valid()
      ensures r == Redirect(Route("feed"))
      ensures request == PostRequest && session.Some? && PostErrors(text) == map[] ==>
        posts == old(posts) + [Post(session.value, text)]
      ensures !(request == PostRequest && session.Some? && PostErrors(text) == map[]) ==>
        posts == old(posts)
    {
      if request == PostRequest {
        if session.None? {
          // anonymous: only an error message
        } else if PostErrors(text) != map[] {
          // invalid text: only an error message
        } else {
          posts := posts + [Post(session.value, text)];
        }
      }
      r := Redirect(Route("feed"));
    }

    /**
      `follow_toggle`: `toggle` stands for `User.toggle_follow`, called once when the id names a
      user; an unknown id goes back to the user list.
     */
    method FollowToggle(userId: UserId, toggle: (set<Edge>, UserId, UserId) -> set<Edge>) returns (r: Response)
      requires Valid() && session.Some?
      modifies this`follows
      ensures Valid()
      ensures userId in users ==> follows == toggle(old(follows), session.value, userId) && r == Redirect(UserPage(userId))
      ensures userId !in users ==> follows == old(follows) && r == Redirect(Route("user_list"))
    {
      if userId in users {
        follows := toggle(follows, session.value, userId);
        r := Redirect(UserPage(userId));
      } else {
        r := Redirect(Route("user_list"));
      }
    }

    /**
      `LogInView.post` for an anonymous visitor: `authenticate` stands for the form's credential
      check, which yields a stored user or nothing.
     */
    method LogIn(username: string, password: string, next: Option<string>,
                 authenticate: (map<UserId, User>, string, string) -> Option<UserId>) returns (r: Response)
      requires Valid() && session.None?
      requires authenticate(users, username, password).Some? ==> authenticate(users, username, password).value in users
      modifies this`session
      ensures Valid()
      ensures authenticate(users, username, password).Some? ==>
        session == authenticate(users, username, password) && r == Redirect(Location(NextOrDefault(next)))
      ensures authenticate(users, username, password).None? ==>
        session == None && r == Render(LogInPage(NextOrDefault(next)))
    {
      var target := NextOrDefault(next);
      var user := authenticate(users, username, password);
      if user.Some? {
        session := user;
        r := Redirect(Location(target));
      } else {
        r := Render(LogInPage(target));
      }
    }

    /** `log_out`: whoever was logged in, the session ends and the visitor goes home. */
    method LogOut() returns (r: Response)
      requires Valid()
      modifies this`session
      ensures Valid()
      ensures session == None && r == Redirect(Route("home"))
    {
      session := None;
      r := Redirect(Route("home"));
    }

    /**
      `SignUpForm.save` followed by `login`: `create_user` stores the user the form describes, its
      email normalised, under a fresh id, and the session becomes that user. The unique columns
      require the username and the email to be free.
     */
    method SaveNewUser(d: SignUpData)
      requires Valid()
      requires !UsernameTaken(users, None, d.username) && !EmailTaken(users, None, d.email)
      modifies this`users, this`nextId, this`session
      ensures Valid()
      ensures old(nextId) !in old(users)
      ensures users == old(users)[old(nextId) := Registered(d)] && |users| == |old(users)| + 1
      ensures session == Some(old(nextId))
    {
      UniqueAfterSignUp(users, nextId, Candidate(d));
      NormalizeEmailIdempotent(d.email);
      var id := nextId;
      users := users[id := Registered(d)];
      nextId := nextId + 1;
      session := Some(id);
    }

    /** `SignUpView`: a valid form creates exactly one user under a new id and logs it in. */
    method SignUp(request: RequestMethod, d: SignUpData, emailOk: string -> bool) returns (r: Response)
      requires Valid() && session.None?
      modifies this`users, this`session, this`nextId
      ensures Valid()
      ensures request == PostRequest && SignUpErrors(old(users), d, emailOk) == map[] ==>
        && old(nextId) !in old(users)
        && users == old(users)[old(nextId) := Registered(d)]
        && |users| == |old(users)| + 1
        && session == Some(old(nextId))
        && r == Redirect(Route(RedirectWhenLoggedIn))
      ensures request == GetRequest ==>
        users == old(users) && session == None && r == Render(SignUpPage(map[]))
      ensures request == PostRequest && SignUpErrors(old(users), d, emailOk) != map[] ==>
        users == old(users) && session == None && r == Render(SignUpPage(SignUpErrors(old(users), d, emailOk)))
    {
      if request == GetRequest {
        r := Render(SignUpPage(map[]));
        return;
      }
      var errors := SignUpErrors(users, d, emailOk);
      if errors != map[] {
        r := Render(SignUpPage(errors));
        return;
      }
      SignUpFree(users, d, emailOk);
      SaveNewUser(d);
      r := Redirect(Route(RedirectWhenLoggedIn));
    }

    /**
      `ProfileUpdateView`: a valid form overwrites the logged-in user's names, email and bio;
      the username, the credential and every other user stay as they were.
     */
    method UpdateProfile(request: RequestMethod, firstName: string, lastName: string, email: string, bio: string,
                         emailOk: string -> bool) returns (r: Response)
      requires Valid() && session.Some?
      modifies this`users
      ensures Valid()
      ensures users.Keys == old(users).Keys
      ensures users[session.value].username == old(users)[session.value].username
      ensures users[session.value].credential == old(users)[session.value].credential
      ensures forall k :: k in users && k != session.value ==> users[k] == old(users)[k]
      ensures var edited := old(users)[session.value].(firstName := firstName, lastName := lastName, email := email, bio := bio);
        var errors := ProfileUpdateErrors(old(users), session.value, edited, emailOk);
        if request == PostRequest && errors == map[] then
          users == old(users)[session.value := edited.(email := NormalizeEmail(email))] && r == Redirect(Route("feed"))
        else
          users == old(users) && r == Render(ProfilePage(if request == GetRequest then map[] else errors))
    {
      var me := session.value;
      var edited := users[me].(firstName := firstName, lastName := lastName, email := email, bio := bio);
      var errors := ProfileUpdateErrors(users, me, edited, emailOk);
      if request == GetRequest {
        r := Render(ProfilePage(map[]));
      } else if errors != map[] {
        r := Render(ProfilePage(errors));
      } else {
        assert ModelField(Email) !in errors;
        assert FieldCodes(users, Some(me), edited, Email, emailOk) == {};
        UniqueAfterProfileEdit(users, me, edited);
        NormalizeEmailIdempotent(email);
        users := users[me := edited.(email := NormalizeEmail(email))];
        r := Redirect(Route("feed"));
      }
    }

    /**
      `update_password`: a valid form replaces the logged-in user's credential with one made from
      the new password; the session stays logged in either way.
     */
    method UpdatePassword(request: RequestMethod, oldPassword: string, newPassword: string, confirmation: string,
                          accepts: (Credential, string) -> bool) returns (r: Response)
      requires Valid() && session.Some?
      modifies this`users
      ensures Valid()
      ensures session == old(session)
      ensures var me := session.value;
        var errors := PasswordUpdateErrors(accepts, old(users)[me].credential, oldPassword, newPassword, confirmation);
        if request == PostRequest && errors == map[] then
          users == old(users)[me := old(users)[me].(credential := Credential(newPassword))] && r == Redirect(Route("feed"))
        else
          users == old(users) && r == Render(PasswordPage(if request == GetRequest then map[] else errors))
    {
      var me := session.value;
      if request == GetRequest {
        r := Render(PasswordPage(map[]));
        return;
      }
      var errors := PasswordUpdateErrors(accepts, users[me].credential, oldPassword, newPassword, confirmation);
      if errors == map[] {
        users := users[me := users[me].(credential := Credential(newPassword))];
        r := Redirect(Route("feed"));
      } else {
        r := Render(PasswordPage(errors));
      }
    }

    /** `ShowUserView`: the profile of an existing user, or back to the user list. */
    method ShowUser(userId: UserId) returns (r: Response)
      requires session.Some?
      ensures userId in users ==> r == Render(ShowUserPage(ShowUserContext(posts, follows, session.value, userId)))
      ensures userId !in users ==> r == Redirect(Route("user_list"))
    {
      if userId in users {
        r := Render(ShowUserPage(ShowUserContext(posts, follows, session.value, userId)));
      } else {
        r := Redirect(Route("user_list"));
      }
    }
  }
}
