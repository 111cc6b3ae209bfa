# Spendthrift expense tracker: a verified model of its core

Spendthrift is a small expense tracker written in Next.js. It stores three tables in SQLite: users, categories and expenses. Each category has a nullable owner, and a category without an owner is a *default* category that every user sees. Every expense belongs to one user and may point to a category. The HTTP routes let the signed-in user list and create categories, page through and create expenses, read and edit their profile, and change their password. The dashboard page summarises the user's expenses. A middleware keeps signed-out visitors away from the dashboard and signed-in users away from the login and register pages.

This Dafny project models that core. Each part is verified against its specification.

- `wrappers.dfy` (`Wrappers`): `Option` and `Result`.
- `seqs.dfy` (`Seqs`): the generic parts of a query.
  - `Filter` is a WHERE clause.
  - `FirstWhere` is `SELECT … LIMIT 1`.
  - `Window` and `SqlWindow` are `LIMIT`/`OFFSET`. A negative offset counts as 0 and a negative limit means no bound, as in SQLite.
  - `UniqueBy` states that a column is unique.
- `schema.dfy` (`Schema`): the rows and the store invariant.
  - The three row types.
  - The invariant `Consistent`: unique ids, a unique email, and both foreign keys hold.
  - The constraint errors.
- `category_queries.dfy`, `expense_queries.dfy`, `user_queries.dfy`: the read queries, as functions over the tables.
  - ORDER BY is a stable insertion sort: sorted, a permutation, and with equal keys left in table order.
  - The LEFT JOIN attaches each expense's category.
  - The paginated query builds its conditions with successive pushes.
- `store.dfy` (`Store`): the writes.
  - The class `Database` holds the three tables as sequences.
  - Each create, update and delete is a method that preserves `Valid()`.
  - Deletes carry out `ON DELETE CASCADE` and `ON DELETE SET NULL`.
  - Generated ids and the current time are parameters.
  - A constraint violation is a `Failure` result.
- `validations.dfy` (`Validations`): the zod schemas. Each schema returns a list of issues, and a predicate states which inputs are accepted.
  - Lengths are JavaScript lengths (`Utf16Length`): a character beyond U+FFFF counts as two UTF-16 code units, as zod's `min` and `max` count them.
- `http.dfy` (`Http`), `api_helpers.dfy` (`ApiHelpers`): response values, error classification and validation.
  - `withAuth` is a gate method. It stores the session user on a `Request` object and answers 401 when there is no signed-in user.
- `categories_route.dfy`, `expenses_route.dfy`, `user_route.dfy`, `password_route.dfy`: the route handlers.
  - Each handler is a method.
  - An outcome predicate states the handler's effect on the store and its response.
  - A gated wrapper runs the handler only for a signed-in user.
- `dashboard.dfy` (`Dashboard`): the statistics block of the dashboard page.
  - The category tally is a loop that updates a map.
- `middleware.dfy` (`Middleware`): the redirect decision and the route matcher.

Externals are parameters:
- the session (`Option<SessionUser>`);
- bcrypt's compare (`verify`) and hash (`hash`). `hash` is a function, so the model reads bcrypt as if its random salt were fixed for the call;
- zod's email check (`isEmail`);
- `encodeURIComponent` (`encode`);
- the clock (`now`, `monthStart`);
- the id generator (`newId`).

## Model

| member | source | states |
|---|---|---|
| Seqs.Filter | src/db/queries/expenses.ts:25 | A WHERE clause keeps exactly the rows satisfying the condition, and never more rows than the table has |
| Seqs.FilterAppend | src/db/queries/expenses.ts:25 | Filtering keeps table order: filtering a concatenation filters each part in place |
| Seqs.FilterMultiset | src/db/queries/expenses.ts:25 | Filtering keeps each accepted row with its full multiplicity and drops every rejected one |
| Seqs.FilterKeepsUnique | src/db/schema.ts:7-9 | Deleting rows keeps a unique column unique |
| Seqs.FirstWhere | src/db/queries/users.ts:15 | `LIMIT 1` returns a row exactly when some row matches, and the row it returns matches |
| Seqs.FirstWhereUnique | src/db/queries/users.ts:14-17 | On a unique column, the single-row lookup returns the one row with that key |
| Seqs.Window | src/db/queries/expenses.ts:215-216 | `LIMIT`/`OFFSET` returns at most `limit` rows, the ones at positions offset, offset+1, … of the input |
| Seqs.SqlWindow | src/db/queries/expenses.ts:215-216 | SQLite's reading of `LIMIT`/`OFFSET`: a negative offset counts as 0, and a negative limit returns every row from the offset on |
| Seqs.SameKeySameRow | src/db/schema.ts:7-10 | Two rows of a table with the same unique key are the same row |
| Seqs.AppendKeepsUnique | src/db/schema.ts:7-9 | Inserting a row whose key is not yet used keeps the column unique |
| CategoryQueries.CategoriesByUserId | src/db/queries/categories.ts:5-10 | Returns exactly the categories owned by the user |
| CategoryQueries.DefaultCategories | src/db/queries/categories.ts:12-14 | Returns exactly the categories with a null owner |
| CategoryQueries.AllCategoriesForUser | src/db/queries/categories.ts:16-27 | A category is listed iff it is the user's or a default one; the two parts are disjoint, so the result is no longer than the table |
| CategoryQueries.AllCategoriesUnique | src/db/queries/categories.ts:16-27 | The listing has no duplicate ids |
| CategoryQueries.CategoryById | src/db/queries/categories.ts:29-62 | With a truthy user id, returns the row with that id if it is owned by the user, else the default row with that id, else nothing. With an absent or empty user id, returns the row with that id whatever its owner |
| CategoryQueries.DefaultVisibleToAll | src/db/queries/categories.ts:45-52 | A default category is found by id for every user and for none |
| CategoryQueries.ForeignInvisible | src/db/queries/categories.ts:30-53 | Another user's category is never found for a signed-in user |
| ExpenseQueries.JoinRow | src/db/queries/expenses.ts:7-24 | The LEFT JOIN carries a category exactly when the expense's category id names an existing category, and then it carries that category's fields |
| ExpenseQueries.Insert | src/db/queries/expenses.ts:214 | Inserting into an ordered list keeps it ordered and adds exactly that row |
| ExpenseQueries.Sort | src/db/queries/expenses.ts:214 | ORDER BY yields an ordered permutation of its input |
| ExpenseQueries.SelectJoined | src/db/queries/expenses.ts:5-27 | A joined select returns exactly the matching expenses, each once per occurrence, joined to their categories, in sort order |
| ExpenseQueries.ExpensesByUserId | src/db/queries/expenses.ts:5-27 | Exactly the user's expenses, newest first, each with its category |
| ExpenseQueries.ExpenseById | src/db/queries/expenses.ts:29-53 | Returns a row iff an expense has that id and that user |
| ExpenseQueries.ForeignExpenseInvisible | src/db/queries/expenses.ts:49 | Another user's expense looks exactly like a missing one |
| ExpenseQueries.ExpensesByDateRange | src/db/queries/expenses.ts:94-126 | Exactly the user's expenses with start ≤ date ≤ end (both inclusive), newest first |
| ExpenseQueries.ExpensesByCategoryId | src/db/queries/expenses.ts:128-153 | Exactly the user's expenses in that category, newest first |
| ExpenseQueries.PushConjoins | src/db/queries/expenses.ts:177-189 | Pushing a condition conjoins it to the WHERE clause |
| ExpenseQueries.MatchesOptions | src/db/queries/expenses.ts:177-189 | The paginated query's filter: the user's rows, in the given category when its id is truthy, and within each date bound that is present (bounds inclusive) |
| ExpenseQueries.BuildConditions | src/db/queries/expenses.ts:177-189 | The conditions start with the user test. Their conjunction is the user test, the category test when the category id is truthy, and each date bound that is present |
| ExpenseQueries.ExpensesPaginated | src/db/queries/expenses.ts:155-219 | Limit defaults to 10, offset to 0, sort to date descending; the rows are the `[offset, offset+limit)` window of the filtered and sorted selection, at most `limit` of them, each matching and joined |
| ExpenseQueries.SqlWindowOfRows | src/db/queries/expenses.ts:215-216 | A `LIMIT`/`OFFSET` window of joined, ordered rows is still joined and ordered, has at most `limit` rows, and its expenses are the same window of the expenses |
| ExpenseQueries.WindowOfRows | src/db/queries/expenses.ts:215-216 | A window of joined, ordered rows is still joined and ordered, and its expenses are the window of the expenses |
| UserQueries.UserByEmail | src/db/queries/users.ts:5-12 | Returns a user iff one has that email, and that user has it |
| UserQueries.UserById | src/db/queries/users.ts:14-17 | Returns a user iff one has that id, and that user has it |
| UserQueries.LookupsFindTheUser | src/db/queries/users.ts:5-17 | In a consistent table, looking a user up by id or by email finds exactly that user |
| Store.PatchUser | src/db/queries/users.ts:43-49 | An update never changes the id or the creation time, and stamps `updatedAt` with now |
| Store.PatchExpense | src/db/queries/expenses.ts:76-80 | An update never changes the id, owner or creation time, and stamps `updatedAt` with now |
| Store.PatchCategory | src/db/queries/categories.ts:83-87 | An update never changes the id, owner or creation time |
| Store.SetNullCategory | src/db/schema.ts:43-45 | `ON DELETE SET NULL`: every expense is kept, with its category cleared exactly when it was the deleted one; none refers to it afterwards |
| Store.Database.constructor | src/db/schema.ts:6-55 | An empty store satisfies the invariant |
| Store.Database.CreateUser | src/db/queries/users.ts:19-33 | Adds exactly one user with the given email, password and name. A taken id or email is a UNIQUE failure that changes nothing. The invariant is kept |
| Schema.ReferencesHold | src/db/schema.ts:40-45 | Every expense's owner is a stored user, and its category, when set, is a stored category |
| Schema.Consistent | src/db/schema.ts:6-45 | The store invariant: unique user, category and expense ids, unique emails, and both foreign keys hold |
| Store.PatchKeepsConsistent | src/db/schema.ts:6-10 | Patching the row of one id keeps ids unique and references intact, and keeps emails unique when the new email is nobody else's |
| Store.Database.UpdateUser | src/db/queries/users.ts:35-52 | Only the user with that id changes, and only the supplied fields plus `updatedAt`. A missing user gives no result and no change. An email taken by another user is a UNIQUE failure that changes nothing |
| Store.Database.DeleteUser | src/db/schema.ts:40-42 | Removes the user and, by cascade, all their expenses; their categories stay |
| Store.Database.CreateCategory | src/db/queries/categories.ts:64-72 | Adds exactly one category with the given fields and owner; all other rows are unchanged |
| Store.Database.UpdateCategory | src/db/queries/categories.ts:74-90 | Changes only the row matching both id and owner, so a default or foreign row never changes; the result is absent iff nothing matched |
| Store.Database.DeleteCategory | src/db/queries/categories.ts:92-99 | Removes only the row matching both id and owner and returns it. Its expenses are kept with their category cleared |
| Store.Database.CreateExpense | src/db/queries/expenses.ts:55-64 | Adds exactly one expense with the given fields. It succeeds iff the id is fresh, the user exists and the category, if any, exists; otherwise nothing changes |
| Store.Database.UpdateExpense | src/db/queries/expenses.ts:66-83 | Changes only the `(id, userId)` row, and only the supplied fields plus `updatedAt`. It fails exactly when that row exists and the patch names a category that does not exist. The failure is a FOREIGN KEY violation and leaves the table unchanged |
| Store.Database.DeleteExpense | src/db/queries/expenses.ts:85-92 | Removes only the `(id, userId)` row and returns it; other users' expenses are untouched |
| Validations.Utf16Length | src/lib/validations/category.ts:4-7 | The JavaScript length zod compares: between the number of characters and twice that |
| Validations.Utf16LengthAppend | src/lib/validations/category.ts:4-7 | Lengths add up over concatenation |
| Validations.Utf16LengthOfBmp | src/lib/validations/category.ts:4-7 | Without characters beyond U+FFFF the length is the character count |
| Validations.Utf16LengthOfAstral | src/lib/validations/category.ts:4-7 | With only characters beyond U+FFFF the length is twice the character count |
| Validations.WideNameTooLong | src/lib/validations/category.ts:7 | A name of 26 emoji is 52 code units, so the 50-character limit rejects it |
| Validations.LengthIssues | src/lib/validations/category.ts:4-7 | A string has no length issue iff its UTF-16 length is within the bounds |
| Validations.CreateCategoryIssues | src/lib/validations/category.ts:3-10 | Accepts iff a name of 1 to 50 UTF-16 code units is present; color and icon are unconstrained |
| Validations.UpdateCategoryIssues | src/lib/validations/category.ts:12-20 | Accepts iff the name, when present, is 1 to 50 UTF-16 code units |
| Validations.CreateCategoryIsUpdate | src/lib/validations/category.ts:3-20 | Every valid create body is a valid update body |
| Validations.AmountIssues | src/lib/validations/expense.ts:4 | An amount is accepted iff it is strictly positive |
| Validations.CreateExpenseIssues | src/lib/validations/expense.ts:3-10 | Accepts iff the amount is positive, the description is 1 to 200 UTF-16 code units and the date is present; categoryId may be absent, null or any string |
| Validations.UpdateExpenseIssues | src/lib/validations/expense.ts:12-22 | Accepts iff each present amount is positive and each present description is 1 to 200 UTF-16 code units |
| Validations.CreateExpenseIsUpdate | src/lib/validations/expense.ts:3-22 | Every valid create body is a valid update body |
| ApiHelpers.JoinPath | src/lib/api-helpers.ts:13 | `path.join(".")`: empty for no segments, the segment itself for one |
| ApiHelpers.FieldRoundTrip | src/lib/api-helpers.ts:13 | Splitting a joined path at its dots gives back the path, when no segment contains a dot |
| ApiHelpers.Details | src/lib/api-helpers.ts:12-15 | One detail per issue, in order, with the dotted path and the issue's message |
| ApiHelpers.HandleApiError | src/lib/api-helpers.ts:5-32 | 400 with "Validation error" and the details iff the error is a validation failure. Any other Error is a 500 with its message. Anything else is a 500 with "An unexpected error occurred" |
| ApiHelpers.ValidateRequest | src/lib/api-helpers.ts:34-39 | Returns the data iff the schema reports no issue, and otherwise fails with exactly those issues |
| ApiHelpers.RequireAuth | src/lib/api-helpers.ts:41-49 | Succeeds iff there is a session user with a non-empty id, returning that user; otherwise fails with "Unauthorized" |
| ApiHelpers.ActingUserId | src/lib/api-helpers.ts:74-76 | `getUser(req).id`: `getUser` returns the user the gate stored on the request, and each route reads its `.id`, which is non-empty |
| ApiHelpers.WithAuth | src/lib/api-helpers.ts:56-72 | Answers 401 and leaves the request alone iff authentication fails; otherwise stores the session user on the request |
| CategoriesRoute.GetHandler | src/app/api/categories/route.ts:14-23 | 200 with exactly the categories the acting user can see |
| CategoriesRoute.Get | src/app/api/categories/route.ts:14-23 | 401 without a session user, otherwise the handler's answer |
| CategoriesRoute.PostHandler | src/app/api/categories/route.ts:25-40 | An invalid body is a 400 that writes nothing. A store failure is a 500 with its message. Otherwise one category is inserted, owned by the acting user and so never a default one, and returned with 201 |
| CategoriesRoute.Post | src/app/api/categories/route.ts:25-40 | 401 without a session user and no write; otherwise the handler's outcome |
| ExpensesRoute.OrDefault | src/app/api/expenses/route.ts:22-31 | `param \|\| fallback`: an absent or empty parameter gives the fallback |
| ExpensesRoute.OptionsOf | src/app/api/expenses/route.ts:20-33 | page 1, limit 10, date and desc by default; an empty category id is dropped; offset = (page − 1) × limit |
| ExpensesRoute.GetHandler | src/app/api/expenses/route.ts:15-51 | 200 with the requested window of the acting user's matching expenses; `hasMore` iff the page has exactly `limit` rows; every row is the acting user's and joined |
| ExpensesRoute.Get | src/app/api/expenses/route.ts:15-51 | 401 without a session user. Otherwise a 200 that echoes the page and the limit and holds the requested window of the session user's matching expenses, each joined. `hasMore` holds iff the page is full |
| ExpensesRoute.PagesCoverSelection | src/app/api/expenses/route.ts:33 | With offset = (page − 1) × limit, row i of the selection appears on page i / limit + 1 at position i mod limit |
| ExpensesRoute.ShortPageIsLast | src/app/api/expenses/route.ts:50 | When `hasMore` is false (a short page), the next page is empty |
| ExpensesRoute.FullLastPageClaimsMore | src/app/api/expenses/route.ts:50 | When the selection ends exactly at the end of a full page, `hasMore` is true although the next page is empty |
| ExpensesRoute.CategoryChoice | src/app/api/expenses/route.ts:65-83 | The category to check and store is present iff the body's categoryId is a non-empty string |
| ExpensesRoute.PostHandler | src/app/api/expenses/route.ts:58-90 | First validation: an invalid body is a 400 with no write. Then a named category that is neither the user's nor default is a 400 "Category not found or access denied" with no write. Then a store failure is a 500. On 201, exactly one expense is added, owned by the acting user, with a category the user may use |
| ExpensesRoute.Post | src/app/api/expenses/route.ts:58-90 | 401 without a session user and no write; otherwise the handler's outcome |
| UserRoute.WithoutPassword | src/app/api/user/route.ts:26 | The public user carries every column of the row except the password |
| UserRoute.PasswordNeverSent | src/app/api/user/route.ts:25-28 | Two rows that differ only in the password are sent identically |
| UserRoute.ProfileIssues | src/app/api/user/route.ts:11-14 | Accepts iff the name, when present, is non-empty and the email, when present, passes the email check |
| UserRoute.GetHandler | src/app/api/user/route.ts:16-32 | 404 "User not found" when the acting user's row is missing, otherwise 200 with that row without its password |
| UserRoute.Get | src/app/api/user/route.ts:16-32 | 401 without a session user, otherwise the handler's answer |
| UserRoute.PatchHandler | src/app/api/user/route.ts:34-56 | An invalid body is a 400 with no write. A missing user is a 500 "Failed to update profile". A taken email is a 500 with the UNIQUE message. Otherwise only the acting user's name and email change, no password changes, and the updated row goes back without its password |
| UserRoute.Patch | src/app/api/user/route.ts:34-56 | 401 without a session user and no write; otherwise the handler's outcome |
| PasswordRoute.PasswordIssues | src/app/api/user/password/route.ts:13-18 | Accepts iff the current password is non-empty and the new one has at least 8 UTF-16 code units |
| PasswordRoute.FourEmojiPasswordAccepted | src/app/api/user/password/route.ts:17 | A new password of four emoji is eight code units, so it is accepted |
| PasswordRoute.ChangeHandler | src/app/api/user/password/route.ts:20-56 | An invalid body is a 400 before any lookup. A missing user is a 404. A current password that does not verify is a 400 that writes nothing. Otherwise only the acting user's hash is replaced by hash(new password), and the answer is success |
| PasswordRoute.Change | src/app/api/user/password/route.ts:20-56 | 401 without a session user and no write; otherwise the handler's outcome |
| PasswordRoute.ChangeStoresNewHash | src/app/api/user/password/route.ts:47-52 | After a successful change the acting user's stored hash is hash(new password) with `updatedAt` now, and every other row is unchanged |
| Dashboard.UserListIsNewestFirst | src/db/queries/expenses.ts:26 | The list the dashboard reads is in non-increasing date order |
| Dashboard.ThisMonth | src/app/dashboard/page.tsx:27-31 | A row is this month's iff it is dated at or after the first instant of the month, so the previous month's last day is excluded |
| Dashboard.ThisMonthIsPrefix | src/app/dashboard/page.tsx:29-31 | On a newest-first list, this month's rows are a prefix of the list |
| Dashboard.ReduceIsSum | src/app/dashboard/page.tsx:33-36 | The left-to-right reduce from an initial value is that value plus the sum of the amounts |
| Dashboard.TotalThisMonth | src/app/dashboard/page.tsx:33-36 | The total is the sum of this month's amounts, and 0 when there are none |
| Dashboard.TotalOfPositiveIsPositive | src/app/dashboard/page.tsx:33-36 | With positive amounts the total is never negative, and positive when some row is present |
| Dashboard.Recent | src/app/dashboard/page.tsx:38 | The first min(5, n) rows |
| Dashboard.RecentAreNewest | src/app/dashboard/page.tsx:38 | On a newest-first list, no row left out of the recent ones is newer than one kept |
| Dashboard.Names | src/app/dashboard/page.tsx:42-45 | The category names of the categorised rows, never more than the rows |
| Dashboard.NoNamesIffUncategorised | src/app/dashboard/page.tsx:43 | There are no names exactly when no row has a category |
| Dashboard.Distinct | src/app/dashboard/page.tsx:41-49 | The names in order of first appearance, never more than the names |
| Dashboard.DistinctMembers | src/app/dashboard/page.tsx:41-49 | The keys of the object are exactly the names, each once |
| Dashboard.Bump | src/app/dashboard/page.tsx:44 | Adding one to `acc[name]`, from 0 when it is missing, adds `name` to the keys; a new key goes last, and an existing key keeps its place |
| Dashboard.CountOne | src/app/dashboard/page.tsx:42-47 | Counting one more name keeps the keys in first-insertion order, keeps the tally exact, and adds one to the total |
| Dashboard.BumpSum | src/app/dashboard/page.tsx:44 | Over unique keys, counting one more name adds exactly one to the total of the counts |
| Dashboard.CountByCategory | src/app/dashboard/page.tsx:41-49 | Counts are keyed by category name: a name is a key iff some categorised row has it, with its number of occurrences; keys are in first-insertion order; the counts sum to the number of categorised rows |
| Dashboard.SumCountsIncrement | src/app/dashboard/page.tsx:44 | Adding one to a key's count adds one to the total of the counts |
| Dashboard.InsertByCount | src/app/dashboard/page.tsx:50-52 | Inserting an entry into a count-descending list keeps it count-descending and adds exactly that entry |
| Dashboard.SortByCount | src/app/dashboard/page.tsx:50-52 | The sort by count yields a count-descending permutation of the entries |
| Dashboard.SortedHeadIsFirstMax | src/app/dashboard/page.tsx:50-52 | The head of the stable descending sort is the first entry with the largest count |
| Dashboard.MostUsed | src/app/dashboard/page.tsx:50-52 | Absent iff there are no entries; otherwise the name of the first entry with the largest count |
| Dashboard.TopLabel | src/app/dashboard/page.tsx:109 | Shows the top name, or "N/A" when it is absent or empty |
| Dashboard.DashboardStats | src/app/dashboard/page.tsx:26-52 | This month's rows and their total, the count, the five most recent, the counts by name, and the top name. The top name is absent iff no expense has a category; otherwise it is a name with the largest count and every earlier key has a smaller one |
| Middleware.From | src/middleware.ts:18-21 | The return address is the path, followed by the query string only when there is one |
| Middleware.LoginUrl | src/middleware.ts:23-25 | The login page with `from` set to the encoded return address |
| Middleware.IsAuthPage | src/middleware.ts:6-8 | A login or register page by a plain prefix test on the pathname |
| Middleware.Matched | src/middleware.ts:29-31 | The matcher: exactly /dashboard, /login and /register, and anything under /dashboard/ |
| Middleware.Decide | src/middleware.ts:4-27 | On a login or register page (a plain prefix test): a redirect to /dashboard when signed in, continue otherwise. A signed-out request under /dashboard is redirected to the login page. Every other request gets no response |
| Middleware.Run | src/middleware.ts:29-31 | The middleware acts only on matched paths |
| Middleware.MatchedPathsSplit | src/middleware.ts:6-31 | On matched paths, the auth-page test holds exactly for /login and /register, and the dashboard test exactly for the rest |
| Middleware.GuardsMatchedPages | src/middleware.ts:10-27 | On matched paths, a signed-out request for a dashboard page is always sent to login. A signed-in request for an auth page is always sent to the dashboard. A signed-in request for a dashboard page passes through |
| Middleware.NoRedirectLoop | src/middleware.ts:10-26 | Following a redirect never leads to another one |

## Left out

- HTTP and JSON decoding. Bodies and query strings reach the handlers already decoded.
  - A malformed JSON body is not modelled.
  - A wrongly typed field is not modelled.
  - A non-numeric `page` or `limit` (where `parseInt` yields NaN) is not modelled.
- `z.date()` accepts only Date objects, while a JSON body carries dates as strings. The model takes the date as an already decoded timestamp, so it does not show that a JSON body with a date string fails validation.
- Logging (`console.error`) is not modelled.
- `withAuth` turns an "Unauthorized" error thrown by a handler into a 401. It is not modelled, because every handler here catches its own errors.
- The session lookup, bcrypt, zod's email check and `encodeURIComponent` are parameters. Nothing is assumed about them beyond their types.
- Time:
  - "now" and the first instant of the current month (in local time) are parameters.
  - Dates are integer timestamps.
- Amounts are Dafny `real`s, so the model does not capture floating-point rounding in sums.
- Ids come from a generator and are parameters. A collision is modelled as the UNIQUE failure SQLite would raise.
- The text of driver errors (`DbMessage`) follows SQLite's constraint-failure messages. The model does not capture the exact wording of the driver.
- Ordering among equal sort keys: SQLite leaves it unspecified.
  - The model fixes one permitted order: the table order, by a stable sort.
  - `ExpenseQueries.SelectJoined`, `ExpenseQueries.ExpensesPaginated` and `ExpensesRoute.GetHandler` state their results against that one order. Where equal keys straddle a page boundary, SQLite may put a different subset of them on the page; the model does not cover those other orders.
- The order of the UNION in `getAllCategoriesForUser` is unspecified. The model lists own categories first, and the contracts state membership only.
- Dashboard key order:
  - In JavaScript, `Object.entries` lists integer-like keys (a category named "42") before the others. The model keeps plain first-insertion order.
  - Names that clash with `Object.prototype` members ("constructor", "__proto__") are treated as ordinary keys.
- The rest of the dashboard page is not modelled:
  - the redirect when no user is signed in;
  - the "N times" caption;
  - the rendering.
- Middleware:
  - Its URLs are modelled as a pathname and a query string.
  - The matcher is read as exact /dashboard, /login and /register, plus anything under /dashboard/.
  - Trailing-slash and case normalisation by the framework are not modelled.
- The per-id category and expense routes (`[id]/route.ts`), the seed script, `format.ts` and all UI components are not part of this model.
- Concurrency is not modelled: each request is one sequential step on the store.
- The query builder (drizzle-orm) is not part of this model. `LIMIT`/`OFFSET` are read as SQLite reads them. How the builder renders a negative limit or a zero offset is not modelled. Whether it refuses an update with nothing to set is not modelled either.
- Store.Database.UpdateCategory: an empty patch is a no-op update that returns the row. The model does not capture a query builder that throws on an empty `set`.
- The session is `Option<SessionUser>`, so the model cannot express `auth()` itself throwing (src/lib/auth-helpers.ts:15-17). `withAuth` would pass that error to `handleApiError`, which gives a 500.
- Timestamps are whole seconds, as the `timestamp` columns store them. A JavaScript Date's milliseconds, which are dropped on write, are not tracked.
- bcrypt's salt: `hash` is a function of the password alone. `PasswordRoute.ChangeStoresNewHash` therefore speaks of the hash computed during that request, not of any hash bcrypt could produce.
