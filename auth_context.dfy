/**
 * The mock session: the signed-in user (if any) and a loading flag.  Login
 * and sign-up accept any credentials and invent the user record; the
 * simulated network delay is one atomic step here.  Writing the user to
 * browser storage is the one step that can throw: the user is already set
 * by then, the error is passed on, and loading ends either way.
 */
module AuthContext {
  import opened Wrappers
  import Text

  datatype User = User(id: string, username: string, email: string, avatar: Option<string>)

  datatype Session = Session(user: Option<User>, loading: bool)

  /** How an asynchronous login or sign-up ends: it resolves, or it rethrows. */
  datatype Outcome = Resolved | Rejected

  const MockUserId: string := "123456"
  const AvatarBase: string := "https://i.pravatar.cc/150?u="

  /** `email.split('@')[0]`: the text before the first `@`, or all of it. */
  function EmailPrefix(email: string): (r: string)
    ensures Text.IsPrefix(r, email)
    ensures forall k :: 0 <= k < |r| ==> r[k] != '@'
    ensures |r| < |email| ==> email[|r|] == '@'
  {
    if email == [] || email[0] == '@' then [] else [email[0]] + EmailPrefix(email[1..])
  }

  /** An e-mail without `@` is its own user name. */
  lemma EmailPrefixWithoutAt(email: string)
    requires forall k :: 0 <= k < |email| ==> email[k] != '@'
    ensures EmailPrefix(email) == email
  {
  }

  /** A user name made of no `@` followed by an `@` and a domain gives back that user name. */
  lemma EmailPrefixOfAddress(name: string, domain: string)
    requires forall k :: 0 <= k < |name| ==> name[k] != '@'
    ensures EmailPrefix(name + "@" + domain) == name
  {
    var e := name + "@" + domain;
    var r := EmailPrefix(e);
    assert e[|name|] == '@';
    assert r == e[..|r|];
    assert e[..|name|] == name;
  }

  /** The record `login` invents. */
  function LoginUser(email: string): (u: User)
    ensures u.email == email && u.username == EmailPrefix(email) && u.id == MockUserId
  {
    User(MockUserId, EmailPrefix(email), email, Some(AvatarBase + email))
  }

  /** The record `signup` invents; `id` stands for the random id it draws. */
  function SignUpUser(email: string, username: string, id: string): (u: User)
    ensures u.email == email && u.id == id
    ensures u.username == if username != "" then username else EmailPrefix(email)
  {
    User(id, if username != "" then username else EmailPrefix(email), email, Some(AvatarBase + email))
  }

  /** Before the provider has looked at storage. */
  const Initial: Session := Session(None, true)

  /** The mount effect: restore the stored user, if any, and stop loading. */
  function Mounted(s: Session, stored: Option<User>): (r: Session)
    ensures !r.loading
    ensures r.user == if stored.Some? then stored else s.user
  {
    Session(if stored.Some? then stored else s.user, false)
  }

  function LoggedIn(s: Session, email: string, password: string, storageFails: bool): (r: (Session, Outcome))
    ensures !r.0.loading && r.0.user == Some(LoginUser(email))
    ensures r.1 == Rejected <==> storageFails
  {
    (Session(Some(LoginUser(email)), false), if storageFails then Rejected else Resolved)
  }

  function SignedUp(s: Session, email: string, password: string, username: string, id: string,
                    storageFails: bool): (r: (Session, Outcome))
    ensures !r.0.loading && r.0.user == Some(SignUpUser(email, username, id))
    ensures r.1 == Rejected <==> storageFails
  {
    (Session(Some(SignUpUser(email, username, id)), false), if storageFails then Rejected else Resolved)
  }

  function LoggedOut(s: Session): (r: Session)
    ensures r.user == None && r.loading == s.loading
  {
    s.(user := None)
  }

  /** `isAuthenticated: !!user`: a user object is always truthy, so the flag is set exactly when a user is stored. */
  predicate IsAuthenticated(s: Session): (b: bool)
    ensures b <==> s.user != None
  {
    s.user.Some?
  }

  /** The user that login or sign-up stores does not depend on the password. */
  lemma PasswordIgnored(s: Session, email: string, p1: string, p2: string, username: string, id: string,
                        storageFails: bool)
    ensures LoggedIn(s, email, p1, storageFails) == LoggedIn(s, email, p2, storageFails)
    ensures SignedUp(s, email, p1, username, id, storageFails) == SignedUp(s, email, p2, username, id, storageFails)
  {
  }

  /** After login or sign-up the session is authenticated; after logout it is not. */
  lemma AuthenticatedAfter(s: Session, email: string, password: string, username: string, id: string,
                           storageFails: bool)
    ensures IsAuthenticated(LoggedIn(s, email, password, storageFails).0)
    ensures IsAuthenticated(SignedUp(s, email, password, username, id, storageFails).0)
    ensures !IsAuthenticated(LoggedOut(s))
  {
  }

  class Provider {
    var user: Option<User>
    var loading: bool

    function State(): Session
      reads this
    {
      Session(user, loading)
    }

    constructor()
      ensures State() == Initial
    {
      user, loading := None, true;
    }

    /** `stored` is the user found in browser storage, if any. */
    method Mount(stored: Option<User>)
      modifies this
      ensures State() == Mounted(old(State()), stored)
    {
      if stored.Some? {
        user := stored;
      }
      loading := false;
    }

    method Login(email: string, password: string, storageFails: bool) returns (outcome: Outcome)
      modifies this
      ensures (State(), outcome) == LoggedIn(old(State()), email, password, storageFails)
    {
      loading := true;
      var mockUser := User(MockUserId, EmailPrefix(email), email, Some(AvatarBase + email));
      user := Some(mockUser);
      outcome := if storageFails then Rejected else Resolved;
      loading := false;
    }

    /** `id` stands for the random id the mock draws. */
    method Signup(email: string, password: string, username: string, id: string, storageFails: bool)
      returns (outcome: Outcome)
      modifies this
      ensures (State(), outcome) == SignedUp(old(State()), email, password, username, id, storageFails)
    {
      loading := true;
      var mockUser := User(id, if username != "" then username else EmailPrefix(email), email,
                           Some(AvatarBase + email));
      user := Some(mockUser);
      outcome := if storageFails then Rejected else Resolved;
      loading := false;
    }

    method Logout()
      modifies this
      ensures State() == LoggedOut(old(State()))
    {
      user := None;
    }
  }
}
