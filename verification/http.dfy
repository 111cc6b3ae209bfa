/** The JSON responses the route handlers send, as values. */
module Http {
  import opened Wrappers
  import opened Schema
  import opened ExpenseQueries

  /** A user as sent to the client: every column except `password`. */
  datatype PublicUser = PublicUser(
    id: Id,
    email: string,
    name: Option<string>,
    createdAt: Timestamp,
    updatedAt: Timestamp)

  datatype FieldError = FieldError(field: string, message: string)

  datatype Pagination = Pagination(page: int, limit: int, hasMore: bool)

  /** The JSON bodies of the handlers in this model. */
  datatype Body =
    | ErrorBody(error: string)
    | ValidationErrorBody(error: string, details: seq<FieldError>)
    | CategoriesBody(categories: seq<Category>)
    | CategoryBody(category: Category)
    | ExpensesBody(expenses: seq<ExpenseRow>, pagination: Pagination)
    | ExpenseBody(expense: Expense)
    | UserBody(user: PublicUser)
    | SuccessBody

  /** `NextResponse.json(body, { status })`; the status defaults to 200. */
  datatype Response = Response(status: int, body: Body)
}
