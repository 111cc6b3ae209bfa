/**
 * The three tables of the expense tracker (users, categories, expenses), their
 * keys, uniqueness and foreign-key rules, and the errors the store raises when
 * a write would break one of them.
 */
module Schema {
  import opened Wrappers
  import opened Seqs

  /** Primary keys are generated text identifiers. */
  type Id = string

  /** A point in time, in whole seconds since the epoch, as an integer `timestamp` column stores it. */
  type Timestamp = int

  datatype User = User(
    id: Id,
    email: string,
    name: Option<string>,
    password: string,          // the bcrypt hash
    createdAt: Timestamp,
    updatedAt: Timestamp)

  /** A category whose `userId` is null is a default category, shared by everybody. */
  datatype Category = Category(
    id: Id,
    name: string,
    color: Option<string>,
    icon: Option<string>,
    userId: Option<Id>,
    createdAt: Timestamp)

  /** `amount` is a REAL column; it is modelled as a Dafny `real`. */
  datatype Expense = Expense(
    id: Id,
    userId: Id,
    categoryId: Option<Id>,
    amount: real,
    description: string,
    date: Timestamp,
    createdAt: Timestamp,
    updatedAt: Timestamp)

  function UserId(u: User): Id { u.id }
  function UserEmail(u: User): string { u.email }
  function CategoryId(c: Category): Id { c.id }
  function ExpenseId(e: Expense): Id { e.id }

  predicate IsDefault(c: Category) { c.userId.None? }

  /** JavaScript truthiness of an optional string: `undefined`, `null` and `""` are falsy. */
  predicate Truthy(s: Option<string>) { s.Some? && s.value != "" }

  function UserIds(t: seq<User>): set<Id> { set u | u in t :: u.id }
  function UserEmails(t: seq<User>): set<string> { set u | u in t :: u.email }
  function CategoryIds(t: seq<Category>): set<Id> { set c | c in t :: c.id }
  function ExpenseIds(t: seq<Expense>): set<Id> { set e | e in t :: e.id }

  /**
   * The foreign keys of the expenses table: `user_id` references a user and a
   * non-null `category_id` references a category. `categories.user_id` has no
   * foreign key, so a category may name an owner that does not exist.
   */
  ghost predicate ReferencesHold(users: seq<User>, categories: seq<Category>, expenses: seq<Expense>)
  {
    forall e :: e in expenses ==>
      && e.userId in UserIds(users)
      && (e.categoryId.Some? ==> e.categoryId.value in CategoryIds(categories))
  }

  /** Every constraint the schema declares: three primary keys, the unique email, the foreign keys. */
  ghost predicate Consistent(users: seq<User>, categories: seq<Category>, expenses: seq<Expense>)
  {
    && UniqueBy(users, UserId)
    && UniqueBy(users, UserEmail)
    && UniqueBy(categories, CategoryId)
    && UniqueBy(expenses, ExpenseId)
    && ReferencesHold(users, categories, expenses)
  }

  /** A constraint violation reported by the store; the write it interrupts changes nothing. */
  datatype DbError = UniqueViolation(column: string) | ForeignKeyViolation

  /** The message the store attaches to the error it throws. */
  function DbMessage(e: DbError): (m: string)
    ensures |m| > 0
  {
    match e
    case UniqueViolation(column) => "UNIQUE constraint failed: " + column
    case ForeignKeyViolation => "FOREIGN KEY constraint failed"
  }
}
