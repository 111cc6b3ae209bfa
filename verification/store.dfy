/**
 * The database: the three tables as fields of one object, and the writes of
 * the query layer (`createX`, `updateX`, `deleteX`) as methods that change
 * them in place. The object invariant `Valid()` is the schema's constraints;
 * a write that would break one fails with a `DbError` and changes nothing.
 */
module Store {
  import opened Wrappers
  import opened Seqs
  import opened Schema

  datatype NewUser = NewUser(email: string, password: string, name: Option<string>)

  /** `Partial<{email, name, password}>`: an absent field is left as it is. */
  datatype UserPatch = UserPatch(email: Option<string>, name: Option<string>, password: Option<string>)

  datatype NewCategory = NewCategory(name: string, color: Option<string>, icon: Option<string>, userId: Option<Id>)

  datatype CategoryPatch = CategoryPatch(name: Option<string>, color: Option<string>, icon: Option<string>)

  datatype NewExpense = NewExpense(userId: Id, categoryId: Option<Id>, amount: real, description: string, date: Timestamp)

  /** `categoryId` is absent (`None`), set to null (`Some(None)`) or set to an id (`Some(Some(k))`). */
  datatype ExpensePatch = ExpensePatch(
    categoryId: Option<Option<Id>>,
    amount: Option<real>,
    description: Option<string>,
    date: Option<Timestamp>)

  /** `.set({...data, updatedAt: new Date()})` on a user row. */
  function PatchUser(u: User, p: UserPatch, now: Timestamp): (r: User)
    ensures r.id == u.id && r.createdAt == u.createdAt && r.updatedAt == now
  {
    u.(email := if p.email.Some? then p.email.value else u.email,
       name := if p.name.Some? then p.name else u.name,
       password := if p.password.Some? then p.password.value else u.password,
       updatedAt := now)
  }

  /**
   * Patching the rows with id `id` keeps the ids, and keeps the emails
   * unique when the new email belongs to nobody else.
   */
  lemma PatchKeepsConsistent(users: seq<User>, cats: seq<Category>, exps: seq<Expense>,
                             id: Id, p: UserPatch, now: Timestamp, updated: seq<User>)
    requires Consistent(users, cats, exps)
    requires p.email.Some? ==> forall v :: v in users && v.id != id ==> v.email != p.email.value
    requires |updated| == |users|
    requires forall i :: 0 <= i < |users| ==>
      updated[i] == if users[i].id == id then PatchUser(users[i], p, now) else users[i]
    ensures Consistent(updated, cats, exps)
  {
    assert UserIds(updated) == UserIds(users) by {
      forall k ensures k in UserIds(updated) <==> k in UserIds(users) {
        if k in UserIds(users) {
          var i :| 0 <= i < |users| && users[i].id == k;
          assert updated[i] in updated;
        }
      }
    }
    forall i, j | 0 <= i < j < |updated| ensures updated[i].email != updated[j].email {
      assert users[i].email != users[j].email;
      if users[i].id == id { assert users[j].id != id; }
      if users[j].id == id { assert users[i].id != id; }
      if p.email.Some? && users[i].id == id { assert users[j] in users; }
      if p.email.Some? && users[j].id == id { assert users[i] in users; }
    }
  }

  /** `.set(data)` on a category row; the owner and the id are not settable. */
  function PatchCategory(c: Category, p: CategoryPatch): (r: Category)
    ensures r.id == c.id && r.userId == c.userId && r.createdAt == c.createdAt
  {
    c.(name := if p.name.Some? then p.name.value else c.name,
       color := if p.color.Some? then p.color else c.color,
       icon := if p.icon.Some? then p.icon else c.icon)
  }

  /** `.set({...data, updatedAt: new Date()})` on an expense row. */
  function PatchExpense(e: Expense, p: ExpensePatch, now: Timestamp): (r: Expense)
    ensures r.id == e.id && r.userId == e.userId && r.createdAt == e.createdAt && r.updatedAt == now
  {
    e.(categoryId := if p.categoryId.Some? then p.categoryId.value else e.categoryId,
       amount := if p.amount.Some? then p.amount.value else e.amount,
       description := if p.description.Some? then p.description.value else e.description,
       date := if p.date.Some? then p.date.value else e.date,
       updatedAt := now)
  }

  /** The row an update or delete of a category or an expense is scoped to: `(id, userId)`. */
  predicate TargetsCategory(c: Category, id: Id, userId: Id) { c.id == id && c.userId == Some(userId) }
  predicate TargetsExpense(e: Expense, id: Id, userId: Id) { e.id == id && e.userId == userId }

  function KeepsCategory(id: Id, userId: Id): Category -> bool { (c: Category) => !TargetsCategory(c, id, userId) }
  function KeepsExpense(id: Id, userId: Id): Expense -> bool { (e: Expense) => !TargetsExpense(e, id, userId) }
  function OtherUser(id: Id): User -> bool { (u: User) => u.id != id }
  function NotOwnedBy(userId: Id): Expense -> bool { (e: Expense) => e.userId != userId }

  /**
   * `ON DELETE SET NULL` of `expenses.category_id`: every expense is kept,
   * and none refers to the deleted category any more.
   */
  function SetNullCategory(es: seq<Expense>, categoryId: Id): (r: seq<Expense>)
    ensures |r| == |es|
    ensures forall i :: 0 <= i < |es| ==>
      r[i] == es[i].(categoryId := if es[i].categoryId == Some(categoryId) then None else es[i].categoryId)
    ensures forall e :: e in r ==> e.categoryId != Some(categoryId)
    ensures ExpenseIds(r) == ExpenseIds(es)
  {
    var r := seq(|es|, i requires 0 <= i < |es| =>
      es[i].(categoryId := if es[i].categoryId == Some(categoryId) then None else es[i].categoryId));
    assert ExpenseIds(r) == ExpenseIds(es) by {
      forall k ensures k in ExpenseIds(r) <==> k in ExpenseIds(es) {
        if k in ExpenseIds(es) {
          var e :| e in es && e.id == k;
          var i :| 0 <= i < |es| && es[i] == e;
          assert r[i] in r;
        }
      }
    }
    r
  }

  class Database {
    var users: seq<User>
    var categories: seq<Category>
    var expenses: seq<Expense>

    ghost predicate Valid()
      reads this
    {
      Consistent(users, categories, expenses)
    }

    constructor ()
      ensures Valid()
      ensures users == [] && categories == [] && expenses == []
    {
      users, categories, expenses := [], [], [];
    }

    /** `createUser`: inserts one user; a taken id or email is a UNIQUE violation. */
    method CreateUser(id: Id, data: NewUser, now: Timestamp) returns (r: Result<User, DbError>)
      requires Valid()
      modifies this
      ensures Valid()
      ensures categories == old(categories) && expenses == old(expenses)
      ensures id in UserIds(old(users)) ==>
        r == Failure(UniqueViolation("users.id")) && users == old(users)
      ensures id !in UserIds(old(users)) && data.email in UserEmails(old(users)) ==>
        r == Failure(UniqueViolation("users.email")) && users == old(users)
      ensures id !in UserIds(old(users)) && data.email !in UserEmails(old(users)) ==>
        && r == Success(User(id, data.email, data.name, data.password, now, now))
        && users == old(users) + [r.value]
    {
      if id in UserIds(users) {
        return Failure(UniqueViolation("users.id"));
      }
      if data.email in UserEmails(users) {
        return Failure(UniqueViolation("users.email"));
      }
      var u := User(id, data.email, data.name, data.password, now, now);
      AppendKeepsUnique(users, u, UserId);
      AppendKeepsUnique(users, u, UserEmail);
      users := users + [u];
      r := Success(u);
    }

    /**
     * `updateUser`: sets the supplied fields and `updatedAt` on the user with
     * that id; absent when there is none. Taking another user's email is a
     * UNIQUE violation.
     */
    method UpdateUser(id: Id, p: UserPatch, now: Timestamp) returns (r: Result<Option<User>, DbError>)
      requires Valid()
      modifies this
      ensures Valid()
      ensures categories == old(categories) && expenses == old(expenses)
      ensures id !in UserIds(old(users)) ==> r == Success(None) && users == old(users)
      ensures id in UserIds(old(users)) && p.email.Some? &&
              (exists v :: v in old(users) && v.id != id && v.email == p.email.value) ==>
        r == Failure(UniqueViolation("users.email")) && users == old(users)
      ensures r.Failure? ==>
        id in UserIds(old(users)) && p.email.Some? &&
        exists v :: v in old(users) && v.id != id && v.email == p.email.value
      ensures r.Success? && r.value.Some? ==>
        exists u :: u in old(users) && u.id == id && r.value.value == PatchUser(u, p, now)
      ensures r.Success? ==>
        && (r.value.Some? <==> id in UserIds(old(users)))
        && |users| == |old(users)|
        && forall i :: 0 <= i < |users| ==>
             users[i] == if old(users)[i].id == id then PatchUser(old(users)[i], p, now) else old(users)[i]
    {
      var found := FirstWhere(users, (u: User) => u.id == id);
      if found.None? {
        return Success(None);
      }
      if p.email.Some? && exists v :: v in users && v.id != id && v.email == p.email.value {
        return Failure(UniqueViolation("users.email"));
      }
      var rows := users;
      var updated := seq(|rows|, i requires 0 <= i < |rows| =>
        if rows[i].id == id then PatchUser(rows[i], p, now) else rows[i]);
      PatchKeepsConsistent(rows, categories, expenses, id, p, now, updated);
      users := updated;
      r := Success(Some(PatchUser(found.value, p, now)));
    }

    /**
     * Deleting a user (`ON DELETE CASCADE` of `expenses.user_id`): their
     * expenses go with them; categories have no foreign key to users and stay.
     */
    method DeleteUser(id: Id)
      requires Valid()
      modifies this
      ensures Valid()
      ensures users == Filter(old(users), OtherUser(id))
      ensures expenses == Filter(old(expenses), NotOwnedBy(id))
      ensures categories == old(categories)
    {
      FilterKeepsUnique(users, OtherUser(id), UserId);
      FilterKeepsUnique(users, OtherUser(id), UserEmail);
      FilterKeepsUnique(expenses, NotOwnedBy(id), ExpenseId);
      var remaining := Filter(users, OtherUser(id));
      forall e | e in Filter(expenses, NotOwnedBy(id)) ensures e.userId in UserIds(remaining) {
        var u :| u in users && u.id == e.userId;
        assert u in remaining;
      }
      users := remaining;
      expenses := Filter(expenses, NotOwnedBy(id));
    }

    /** `createCategory`: inserts one category with the given owner (null for a default one). */
    method CreateCategory(id: Id, data: NewCategory, now: Timestamp) returns (r: Result<Category, DbError>)
      requires Valid()
      modifies this
      ensures Valid()
      ensures users == old(users) && expenses == old(expenses)
      ensures id in CategoryIds(old(categories)) ==>
        r == Failure(UniqueViolation("categories.id")) && categories == old(categories)
      ensures id !in CategoryIds(old(categories)) ==>
        && r == Success(Category(id, data.name, data.color, data.icon, data.userId, now))
        && categories == old(categories) + [r.value]
    {
      if id in CategoryIds(categories) {
        return Failure(UniqueViolation("categories.id"));
      }
      var c := Category(id, data.name, data.color, data.icon, data.userId, now);
      AppendKeepsUnique(categories, c, CategoryId);
      categories := categories + [c];
      r := Success(c);
    }

    /**
     * `updateCategory`: sets the supplied fields on the row matching both id
     * and owner. A default or foreign category never matches, so it is never
     * changed; the result is absent when nothing matched.
     */
    method UpdateCategory(id: Id, userId: Id, p: CategoryPatch) returns (r: Option<Category>)
      requires Valid()
      modifies this
      ensures Valid()
      ensures users == old(users) && expenses == old(expenses)
      ensures r.Some? <==> exists c :: c in old(categories) && TargetsCategory(c, id, userId)
      ensures r.Some? ==>
        exists c :: c in old(categories) && TargetsCategory(c, id, userId) && r.value == PatchCategory(c, p)
      ensures |categories| == |old(categories)|
      ensures forall i :: 0 <= i < |categories| ==>
        categories[i] == if TargetsCategory(old(categories)[i], id, userId)
                         then PatchCategory(old(categories)[i], p) else old(categories)[i]
    {
      var found := FirstWhere(categories, (c: Category) => TargetsCategory(c, id, userId));
      var old_categories := categories;
      var updated := seq(|old_categories|, i requires 0 <= i < |old_categories| =>
        if TargetsCategory(old_categories[i], id, userId) then PatchCategory(old_categories[i], p) else old_categories[i]);
      assert CategoryIds(updated) == CategoryIds(old_categories) by {
        forall k ensures k in CategoryIds(updated) <==> k in CategoryIds(old_categories) {
          if k in CategoryIds(old_categories) {
            var i :| 0 <= i < |old_categories| && old_categories[i].id == k;
            assert updated[i] in updated;
          }
        }
      }
      categories := updated;
      r := if found.Some? then Some(PatchCategory(found.value, p)) else None;
    }

    /**
     * `deleteCategory`: removes the row matching both id and owner and returns
     * it, so a default category is never removed. Expenses that referred to it
     * are kept with a null category (`ON DELETE SET NULL`).
     */
    method DeleteCategory(id: Id, userId: Id) returns (r: Option<Category>)
      requires Valid()
      modifies this
      ensures Valid()
      ensures users == old(users)
      ensures r.Some? <==> exists c :: c in old(categories) && TargetsCategory(c, id, userId)
      ensures r.Some? ==> r.value in old(categories) && TargetsCategory(r.value, id, userId)
      ensures categories == Filter(old(categories), KeepsCategory(id, userId))
      ensures expenses == if r.Some? then SetNullCategory(old(expenses), id) else old(expenses)
    {
      r := FirstWhere(categories, (c: Category) => TargetsCategory(c, id, userId));
      FilterKeepsUnique(categories, KeepsCategory(id, userId), CategoryId);
      var remaining := Filter(categories, KeepsCategory(id, userId));
      if r.None? {
        assert remaining == categories by {
          FilterAll(categories, KeepsCategory(id, userId));
        }
        categories := remaining;
        return;
      }
      var cleared := SetNullCategory(expenses, id);
      forall e | e in cleared
        ensures e.userId in UserIds(users)
        ensures e.categoryId.Some? ==> e.categoryId.value in CategoryIds(remaining)
      {
        var i :| 0 <= i < |cleared| && cleared[i] == e;
        assert expenses[i] in expenses;
        if e.categoryId.Some? {
          var c :| c in categories && c.id == e.categoryId.value;
          assert c in remaining;
        }
      }
      FilterKeepsUnique(expenses, (e: Expense) => true, ExpenseId);
      assert UniqueBy(cleared, ExpenseId) by {
        forall i, j | 0 <= i < j < |cleared| ensures cleared[i].id != cleared[j].id {
          assert expenses[i].id != expenses[j].id;
        }
      }
      categories := remaining;
      expenses := cleared;
    }

    /**
     * `createExpense`: inserts one expense. A taken id is a UNIQUE violation;
     * an owner or a category that does not exist is a FOREIGN KEY violation.
     */
    method CreateExpense(id: Id, data: NewExpense, now: Timestamp) returns (r: Result<Expense, DbError>)
      requires Valid()
      modifies this
      ensures Valid()
      ensures users == old(users) && categories == old(categories)
      ensures id in ExpenseIds(old(expenses)) ==>
        r == Failure(UniqueViolation("expenses.id")) && expenses == old(expenses)
      ensures id !in ExpenseIds(old(expenses)) &&
              (data.userId !in UserIds(users) ||
               (data.categoryId.Some? && data.categoryId.value !in CategoryIds(categories))) ==>
        r == Failure(ForeignKeyViolation) && expenses == old(expenses)
      ensures r.Success? <==>
        id !in ExpenseIds(old(expenses)) && data.userId in UserIds(users) &&
        (data.categoryId.Some? ==> data.categoryId.value in CategoryIds(categories))
      ensures r.Success? ==>
        && r.value == Expense(id, data.userId, data.categoryId, data.amount, data.description, data.date, now, now)
        && expenses == old(expenses) + [r.value]
    {
      if id in ExpenseIds(expenses) {
        return Failure(UniqueViolation("expenses.id"));
      }
      if data.userId !in UserIds(users) || (data.categoryId.Some? && data.categoryId.value !in CategoryIds(categories)) {
        return Failure(ForeignKeyViolation);
      }
      var e := Expense(id, data.userId, data.categoryId, data.amount, data.description, data.date, now, now);
      AppendKeepsUnique(expenses, e, ExpenseId);
      expenses := expenses + [e];
      r := Success(e);
    }

    /**
     * `updateExpense`: sets the supplied fields and `updatedAt` on the row
     * matching both id and owner; absent when nothing matched. Pointing it at
     * a category that does not exist is a FOREIGN KEY violation.
     */
    method UpdateExpense(id: Id, userId: Id, p: ExpensePatch, now: Timestamp)
      returns (r: Result<Option<Expense>, DbError>)
      requires Valid()
      modifies this
      ensures Valid()
      ensures users == old(users) && categories == old(categories)
      ensures (exists e :: e in old(expenses) && TargetsExpense(e, id, userId)) &&
              p.categoryId.Some? && p.categoryId.value.Some? &&
              p.categoryId.value.value !in CategoryIds(categories) ==>
        r == Failure(ForeignKeyViolation) && expenses == old(expenses)
      ensures r.Failure? ==>
        && (exists e :: e in old(expenses) && TargetsExpense(e, id, userId))
        && p.categoryId.Some? && p.categoryId.value.Some?
        && p.categoryId.value.value !in CategoryIds(categories)
        && r == Failure(ForeignKeyViolation) && expenses == old(expenses)
      ensures r.Success? ==>
        && (r.value.Some? <==> exists e :: e in old(expenses) && TargetsExpense(e, id, userId))
        && (r.value.Some? ==>
              exists e :: e in old(expenses) && TargetsExpense(e, id, userId) && r.value.value == PatchExpense(e, p, now))
        && |expenses| == |old(expenses)|
        && forall i :: 0 <= i < |expenses| ==>
             expenses[i] == if TargetsExpense(old(expenses)[i], id, userId)
                            then PatchExpense(old(expenses)[i], p, now) else old(expenses)[i]
    {
      var found := FirstWhere(expenses, (e: Expense) => TargetsExpense(e, id, userId));
      if found.Some? && p.categoryId.Some? && p.categoryId.value.Some? &&
         p.categoryId.value.value !in CategoryIds(categories) {
        return Failure(ForeignKeyViolation);
      }
      var old_expenses := expenses;
      var updated := seq(|old_expenses|, i requires 0 <= i < |old_expenses| =>
        if TargetsExpense(old_expenses[i], id, userId) then PatchExpense(old_expenses[i], p, now) else old_expenses[i]);
      forall e | e in updated
        ensures e.userId in UserIds(users)
        ensures e.categoryId.Some? ==> e.categoryId.value in CategoryIds(categories)
      {
        var i :| 0 <= i < |updated| && updated[i] == e;
        assert old_expenses[i] in old_expenses;
        if TargetsExpense(old_expenses[i], id, userId) {
          assert found.Some?;
        }
      }
      expenses := updated;
      r := Success(if found.Some? then Some(PatchExpense(found.value, p, now)) else None);
    }

    /** `deleteExpense`: removes the row matching both id and owner and returns it. */
    method DeleteExpense(id: Id, userId: Id) returns (r: Option<Expense>)
      requires Valid()
      modifies this
      ensures Valid()
      ensures users == old(users) && categories == old(categories)
      ensures r.Some? <==> exists e :: e in old(expenses) && TargetsExpense(e, id, userId)
      ensures r.Some? ==> r.value in old(expenses) && TargetsExpense(r.value, id, userId)
      ensures expenses == Filter(old(expenses), KeepsExpense(id, userId))
    {
      r := FirstWhere(expenses, (e: Expense) => TargetsExpense(e, id, userId));
      FilterKeepsUnique(expenses, KeepsExpense(id, userId), ExpenseId);
      expenses := Filter(expenses, KeepsExpense(id, userId));
    }
  }
}
