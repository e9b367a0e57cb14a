/**
 * Login and user lookup against the fixture users of src/lib/test-data.ts,
 * as src/lib/test-auth.ts does them: every answer is the user record
 * without its password.
 */
module TestAuth {
  import opened Wrappers
  import opened Types
  import opened Seqs
  import TestData

  /** `const {password, ...userInfo} = user`: the record minus its password. */
  function WithoutPassword(u: User): (r: User)
    ensures r.password.None?
    ensures r.id == u.id && r.name == u.name && r.email == u.email && r.bio == u.bio
    ensures r.role == u.role && r.avatar == u.avatar && r.createdAt == u.createdAt && r.skills == u.skills
  {
    u.(password := None)
  }

  /** Removing the password from a found user, or passing null through. */
  function Strip(found: Option<User>): Option<User> {
    if found.Some? then Some(WithoutPassword(found.value)) else None
  }

  /** testLogin: the first user with that email and that password, without the password; otherwise null. */
  function TestLogin(users: seq<User>, email: string, password: string): (r: Option<User>)
    ensures r.None? <==> forall k :: 0 <= k < |users| ==> !(users[k].email == email && users[k].password == Some(password))
    ensures r.Some? ==> r.value.password.None? && r.value.email == email
    ensures r.Some? ==>
      exists k :: 0 <= k < |users| && users[k].password == Some(password) && WithoutPassword(users[k]) == r.value
        && users[k].email == email
        && forall j :: 0 <= j < k ==> !(users[j].email == email && users[j].password == Some(password))
  {
    Strip(Find(users, (u: User) => u.email == email && u.password == Some(password)))
  }

  /** getUserById: the user with that id without the password, or null. */
  function GetUserById(users: seq<User>, id: string): (r: Option<User>)
    ensures r.None? <==> forall k :: 0 <= k < |users| ==> users[k].id != id
    ensures r.Some? ==> r.value.password.None? && r.value.id == id
    ensures r.Some? ==>
      exists k :: 0 <= k < |users| && WithoutPassword(users[k]) == r.value
        && forall j :: 0 <= j < k ==> users[j].id != id
  {
    Strip(Find(users, (u: User) => u.id == id))
  }

  /** getUserByEmail: the user with that email without the password, or null. */
  function GetUserByEmail(users: seq<User>, email: string): (r: Option<User>)
    ensures r.None? <==> forall k :: 0 <= k < |users| ==> users[k].email != email
    ensures r.Some? ==> r.value.password.None? && r.value.email == email
    ensures r.Some? ==>
      exists k :: 0 <= k < |users| && WithoutPassword(users[k]) == r.value
        && forall j :: 0 <= j < k ==> users[j].email != email
  {
    Strip(Find(users, (u: User) => u.email == email))
  }

  /** No two users share an email. */
  predicate EmailsDistinct(users: seq<User>) {
    forall i, j :: 0 <= i < j < |users| ==> users[i].email != users[j].email
  }

  /** With distinct emails, a successful login returns the same record as the lookup by email. */
  lemma LoginAgreesWithLookup(users: seq<User>, email: string, password: string)
    requires EmailsDistinct(users)
    requires TestLogin(users, email, password).Some?
    ensures TestLogin(users, email, password) == GetUserByEmail(users, email)
  {
    var r := TestLogin(users, email, password);
    var k :| 0 <= k < |users| && users[k].password == Some(password) && WithoutPassword(users[k]) == r.value;
    var s := GetUserByEmail(users, email);
    var j :| 0 <= j < |users| && WithoutPassword(users[j]) == s.value;
    assert users[j].email == email == users[k].email;
  }

  /** With distinct emails, each user logs in with their own email and password. */
  lemma {:induction false} EveryUserLogsIn(users: seq<User>, k: nat)
    requires EmailsDistinct(users) && k < |users| && users[k].password.Some?
    ensures TestLogin(users, users[k].email, users[k].password.value) == Some(WithoutPassword(users[k]))
  {
    var r := TestLogin(users, users[k].email, users[k].password.value);
    var j :| 0 <= j < |users| && users[j].password == users[k].password && WithoutPassword(users[j]) == r.value;
    assert users[j].email == users[k].email;
  }

  /** The fixture users have distinct emails and the password password123. */
  lemma SeedUsers()
    ensures EmailsDistinct(TestData.Users())
    ensures forall k :: 0 <= k < |TestData.Users()| ==> TestData.Users()[k].password == Some("password123")
  {
  }

  /** Each fixture user logs in with password123; no one logs in with any other password. */
  lemma SeedLogin(k: nat, password: string)
    requires k < |TestData.Users()|
    ensures TestLogin(TestData.Users(), TestData.Users()[k].email, "password123")
      == Some(WithoutPassword(TestData.Users()[k]))
    ensures password != "password123" ==> TestLogin(TestData.Users(), TestData.Users()[k].email, password).None?
  {
    SeedUsers();
    EveryUserLogsIn(TestData.Users(), k);
  }
}
