/** Registration and login rules: the user lookups the two handlers make
    and what login answers. */
module Accounts {
  import opened Rows
  import opened Queries

  /** `User.query.filter_by(email=...).first()`: registration's duplicate
      check, which ignores the provider. */
  function FindUserByEmail(users: seq<User>, email: string): (r: Option<nat>)
    ensures r.Some? ==> r.value < |users| && users[r.value].email == email
    ensures r.None? <==> forall i :: 0 <= i < |users| ==> users[i].email != email
  {
    First(users, (u: User) => u.email == email)
  }

  /** `User.query.filter_by(email=..., provider=...).first()`: login's lookup. */
  function FindUserByLogin(users: seq<User>, email: string, provider: string): (r: Option<nat>)
    ensures r.Some? ==> r.value < |users| && users[r.value].email == email && users[r.value].provider == provider
    ensures r.Some? ==> forall i :: 0 <= i < r.value ==> !(users[i].email == email && users[i].provider == provider)
    ensures r.None? <==> forall i :: 0 <= i < |users| ==> !(users[i].email == email && users[i].provider == provider)
  {
    First(users, (u: User) => u.email == email && u.provider == provider)
  }

  predicate EmailsDistinct(users: seq<User>) {
    forall i, j :: 0 <= i < j < |users| ==> users[i].email != users[j].email
  }

  /** What login answers. `LoggedIn` carries the id the access token is
      issued for and the user fields echoed back. */
  datatype LoginResult = MissingFields | UserNotFound | LoggedIn(userId: nat, email: string, name: string) {
    function Status(): (status: int)
      ensures status == 400 <==> MissingFields?
      ensures status == 404 <==> UserNotFound?
      ensures status == 200 <==> LoggedIn?
    {
      match this
      case MissingFields => 400
      case UserNotFound => 404
      case LoggedIn(_, _, _) => 200
    }
  }

  function Login(users: seq<User>, email: Option<string>, provider: Option<string>): (r: LoginResult)
    ensures r.MissingFields? <==> !TruthyStr(email) || !TruthyStr(provider)
    ensures r.UserNotFound? <==>
      TruthyStr(email) && TruthyStr(provider) &&
      forall i :: 0 <= i < |users| ==> !(users[i].email == email.value && users[i].provider == provider.value)
    ensures r.LoggedIn? ==>
      && 1 <= r.userId <= |users|
      && var u := users[r.userId - 1];
      && u.email == email.value && u.provider == provider.value
      && r.email == u.email && r.name == u.name
  {
    if !TruthyStr(email) || !TruthyStr(provider) then MissingFields
    else
      match FindUserByLogin(users, email.value, provider.value)
      case None => UserNotFound
      case Some(i) => LoggedIn(i + 1, users[i].email, users[i].name)
  }

  /** A registration check that finds no user with the email keeps emails distinct. */
  lemma RegisterKeepsEmailsDistinct(users: seq<User>, u: User)
    requires EmailsDistinct(users) && FindUserByEmail(users, u.email).None?
    ensures EmailsDistinct(users + [u])
  {
    var r := users + [u];
    forall i, j | 0 <= i < j < |r| ensures r[i].email != r[j].email {
      if j == |users| {
        assert r[i] == users[i];
      }
    }
  }

  /** A user just registered with a fresh email logs in with that email and
      provider, and gets the new row's id. */
  lemma RegisterThenLogin(users: seq<User>, u: User)
    requires u.email != "" && u.provider != ""
    requires FindUserByEmail(users, u.email).None?
    ensures Login(users + [u], Some(u.email), Some(u.provider)) == LoggedIn(|users| + 1, u.email, u.name)
  {
    var r := users + [u];
    assert r[|users|] == u;
    var found := FindUserByLogin(r, u.email, u.provider);
    assert found.Some?;
    assert found.value == |users|;
  }
}
