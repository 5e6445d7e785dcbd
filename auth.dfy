/** The demo authentication provider: it holds the signed-in user (or none) and a loading flag.
    Mounting signs the fixed demo user in; sign-up, sign-in, sign-out and profile updates only
    rewrite the held user and always succeed. */
module Auth {
  import opened Common

  datatype User = User(uid: string, email: Option<string>, displayName: Option<string>, photoURL: Option<string>)

  /** How an awaited call settled. */
  datatype Outcome = Resolved | Rejected

  /** The fixed demo account that mounting and `signIn` install. */
  const MockUser := User(
    "mock-user-123", Some("user@example.com"), Some("Demo User"),
    Some("https://images.pexels.com/photos/1681010/pexels-photo-1681010.jpeg?auto=compress&cs=tinysrgb&w=1260&h=750&dpr=2"))

  /** The account `signUp(name, email, _)` installs; the password plays no part. */
  function NewUser(name: string, email: string): (u: User)
    ensures u.uid == "new-user-123" && u.email == Some(email) && u.displayName == Some(name) && u.photoURL == None
    ensures u != MockUser
  {
    User("new-user-123", Some(email), Some(name), None)
  }

  /** One key of a `Partial<User>`: absent, or present with a value. */
  datatype Field<T> = Keep | Put(value: T)

  function Over<T>(f: Field<T>, current: T): (r: T)
    ensures f.Keep? ==> r == current
    ensures f.Put? ==> r == f.value
  {
    match f
    case Keep => current
    case Put(v) => v
  }

  /** The argument of `updateUserProfile`. */
  datatype ProfilePatch = ProfilePatch(
    uid: Field<string>, email: Field<Option<string>>, displayName: Field<Option<string>>, photoURL: Field<Option<string>>)

  const EmptyPatch: ProfilePatch := ProfilePatch(Keep, Keep, Keep, Keep)

  /** `{ ...prev, ...data }`: each key the patch carries is overwritten, the others are kept. */
  function Patched(u: User, p: ProfilePatch): (r: User)
    ensures r.uid == (if p.uid.Put? then p.uid.value else u.uid)
    ensures r.email == (if p.email.Put? then p.email.value else u.email)
    ensures r.displayName == (if p.displayName.Put? then p.displayName.value else u.displayName)
    ensures r.photoURL == (if p.photoURL.Put? then p.photoURL.value else u.photoURL)
  {
    User(Over(p.uid, u.uid), Over(p.email, u.email), Over(p.displayName, u.displayName), Over(p.photoURL, u.photoURL))
  }

  /** `prev ? { ...prev, ...data } : null`. */
  function UpdatedUser(prev: Option<User>, p: ProfilePatch): (r: Option<User>)
    ensures prev.None? ==> r.None?
    ensures prev.Some? ==> r == Some(Patched(prev.value, p))
  {
    match prev
    case None => None
    case Some(u) => Some(Patched(u, p))
  }

  /** Applying `p` and then `q` in one patch: a key of `q` wins over the same key of `p`. */
  function Then(p: ProfilePatch, q: ProfilePatch): (r: ProfilePatch)
    ensures q.uid.Put? ==> r.uid == q.uid
    ensures q.uid.Keep? ==> r.uid == p.uid
    ensures q.email.Put? ==> r.email == q.email
    ensures q.email.Keep? ==> r.email == p.email
    ensures q.displayName.Put? ==> r.displayName == q.displayName
    ensures q.displayName.Keep? ==> r.displayName == p.displayName
    ensures q.photoURL.Put? ==> r.photoURL == q.photoURL
    ensures q.photoURL.Keep? ==> r.photoURL == p.photoURL
  {
    ProfilePatch(
      if q.uid.Put? then q.uid else p.uid,
      if q.email.Put? then q.email else p.email,
      if q.displayName.Put? then q.displayName else p.displayName,
      if q.photoURL.Put? then q.photoURL else p.photoURL)
  }

  /** An update with no keys leaves the user as it was. */
  lemma EmptyPatchIsIdentity(prev: Option<User>)
    ensures UpdatedUser(prev, EmptyPatch) == prev
  {
  }

  /** Sending the same update twice has the effect of sending it once. */
  lemma UpdateIdempotent(prev: Option<User>, p: ProfilePatch)
    ensures UpdatedUser(UpdatedUser(prev, p), p) == UpdatedUser(prev, p)
  {
  }

  /** Two updates in a row are one update with the later keys winning. */
  lemma UpdatesCompose(prev: Option<User>, p: ProfilePatch, q: ProfilePatch)
    ensures UpdatedUser(UpdatedUser(prev, p), q) == UpdatedUser(prev, Then(p, q))
  {
  }

  /** With nobody signed in, no update signs anybody in. */
  lemma UpdateNeverSignsIn(p: ProfilePatch)
    ensures UpdatedUser(None, p) == None
  {
  }

  /** The provider's state. */
  class AuthProvider {
    var user: Option<User>
    var loading: bool

    /** Before the mount effect: nobody signed in, still loading. */
    constructor ()
      ensures user == None && loading
    {
      user := None;
      loading := true;
    }

    /** The mount effect: the demo user is signed in and loading ends. */
    method Mount()
      modifies this
      ensures user == Some(MockUser) && !loading
    {
      user := Some(MockUser);
      loading := false;
    }

    method SignUp(name: string, email: string, password: string) returns (o: Outcome)
      modifies this
      ensures user == Some(NewUser(name, email)) && loading == old(loading)
      ensures o == Resolved
    {
      user := Some(NewUser(name, email));
      o := Resolved;
    }

    /** The credentials are ignored: any pair signs the demo user in. */
    method SignIn(email: string, password: string) returns (o: Outcome)
      modifies this
      ensures user == Some(MockUser) && loading == old(loading)
      ensures o == Resolved
    {
      user := Some(MockUser);
      o := Resolved;
    }

    method SignOut() returns (o: Outcome)
      modifies this
      ensures user == None && loading == old(loading)
      ensures o == Resolved
    {
      user := None;
      o := Resolved;
    }

    method UpdateUserProfile(p: ProfilePatch) returns (o: Outcome)
      modifies this
      ensures user == UpdatedUser(old(user), p) && loading == old(loading)
      ensures o == Resolved
    {
      user := UpdatedUser(user, p);
      o := Resolved;
    }
  }
}
