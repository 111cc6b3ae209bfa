/** Reads of the users table. */
module UserQueries {
  import opened Wrappers
  import opened Seqs
  import opened Schema

  /** `getUserByEmail`: the user with that email, or absent. */
  function UserByEmail(t: seq<User>, email: string): (r: Option<User>)
    ensures r.Some? <==> email in UserEmails(t)
    ensures r.Some? ==> r.value in t && r.value.email == email
  {
    FirstWhere(t, (u: User) => u.email == email)
  }

  /** `getUserById`: the user with that id, or absent. */
  function UserById(t: seq<User>, id: Id): (r: Option<User>)
    ensures r.Some? <==> id in UserIds(t)
    ensures r.Some? ==> r.value in t && r.value.id == id
  {
    FirstWhere(t, (u: User) => u.id == id)
  }

  /** Because ids and emails are unique, each lookup finds the one user that has the key. */
  lemma LookupsFindTheUser(t: seq<User>, u: User)
    requires UniqueBy(t, UserId) && UniqueBy(t, UserEmail)
    requires u in t
    ensures UserById(t, u.id) == Some(u)
    ensures UserByEmail(t, u.email) == Some(u)
  {
    SameKeySameRow(t, UserId, UserById(t, u.id).value, u);
    SameKeySameRow(t, UserEmail, UserByEmail(t, u.email).value, u);
  }
}
