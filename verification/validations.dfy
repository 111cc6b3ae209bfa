/**
 * The zod schemas for category and expense input, as lists of issues: a body
 * is accepted exactly when its list is empty, and each predicate `Valid…`
 * states the same acceptance rule directly. Bodies arrive already decoded:
 * `None` is an absent field, so a wrongly typed field is out of scope.
 */
module Validations {
  import opened Wrappers

  /** One zod issue: the path of the offending field and its message. */
  datatype Issue = Issue(path: seq<string>, message: string)

  /** zod's message for a required field that is absent. */
  const Required := "Required"

  /**
   * JavaScript's `length`, which zod's `min` and `max` compare: UTF-16 code
   * units, so a character outside the Basic Multilingual Plane counts twice.
   */
  function Utf16Length(s: string): (n: nat)
    ensures |s| <= n <= 2 * |s|
  {
    if s == [] then 0
    else Utf16Length(s[..|s| - 1]) + (if s[|s| - 1] as int >= 0x1_0000 then 2 else 1)
  }

  /** Lengths add up over concatenation. */
  lemma {:induction false} Utf16LengthAppend(a: string, b: string)
    ensures Utf16Length(a + b) == Utf16Length(a) + Utf16Length(b)
  {
    if b != [] {
      assert (a + b)[..|a + b| - 1] == a + b[..|b| - 1];
      Utf16LengthAppend(a, b[..|b| - 1]);
    } else {
      assert a + b == a;
    }
  }

  /** Without characters beyond U+FFFF the length is the number of characters. */
  lemma {:induction false} Utf16LengthOfBmp(s: string)
    requires forall i :: 0 <= i < |s| ==> s[i] as int < 0x1_0000
    ensures Utf16Length(s) == |s|
  {
    if s != [] {
      Utf16LengthOfBmp(s[..|s| - 1]);
    }
  }

  /** With only characters beyond U+FFFF the length is twice the number of characters. */
  lemma {:induction false} Utf16LengthOfAstral(s: string)
    requires forall i :: 0 <= i < |s| ==> s[i] as int >= 0x1_0000
    ensures Utf16Length(s) == 2 * |s|
  {
    if s != [] {
      Utf16LengthOfAstral(s[..|s| - 1]);
    }
  }

  /** The issues of `z.string().min(lo, tooShort).max(hi, tooLong)` at `field`. */
  function LengthIssues(field: string, s: string, lo: nat, hi: nat, tooShort: string, tooLong: string)
    : (r: seq<Issue>)
    ensures r == [] <==> lo <= Utf16Length(s) <= hi
    ensures forall i :: 0 <= i < |r| ==> r[i].path == [field]
  {
    (if Utf16Length(s) < lo then [Issue([field], tooShort)] else [])
    + (if Utf16Length(s) > hi then [Issue([field], tooLong)] else [])
  }

  // ---- src/lib/validations/category.ts ----

  datatype CategoryInput = CategoryInput(name: Option<string>, color: Option<string>, icon: Option<string>)

  function CategoryNameIssues(name: string): seq<Issue>
  {
    LengthIssues("name", name, 1, 50, "Category name is required",
                 "Category name must be at most 50 characters")
  }

  /** Create: a name of 1 to 50 characters; color and icon any strings or absent. */
  predicate ValidCreateCategory(input: CategoryInput)
  {
    input.name.Some? && 1 <= Utf16Length(input.name.value) <= 50
  }

  /** Update: every field optional; a name, when present, is 1 to 50 characters. */
  predicate ValidUpdateCategory(input: CategoryInput)
  {
    input.name.Some? ==> 1 <= Utf16Length(input.name.value) <= 50
  }

  /** `createCategorySchema`. */
  function CreateCategoryIssues(input: CategoryInput): (r: seq<Issue>)
    ensures r == [] <==> ValidCreateCategory(input)
    ensures input.name.None? ==> r == [Issue(["name"], Required)]
  {
    match input.name
    case None => [Issue(["name"], Required)]
    case Some(name) => CategoryNameIssues(name)
  }

  /** `updateCategorySchema`. */
  function UpdateCategoryIssues(input: CategoryInput): (r: seq<Issue>)
    ensures r == [] <==> ValidUpdateCategory(input)
  {
    match input.name
    case None => []
    case Some(name) => CategoryNameIssues(name)
  }

  /** Every body the create schema accepts, the update schema accepts too. */
  lemma CreateCategoryIsUpdate(input: CategoryInput)
    requires CreateCategoryIssues(input) == []
    ensures UpdateCategoryIssues(input) == []
  {
  }

  /** 26 emoji are 52 code units: too long for a category name, though only 26 characters. */
  lemma WideNameTooLong()
    ensures var name := seq(26, _ => '\U{1F600}');
      |name| == 26 && CreateCategoryIssues(CategoryInput(Some(name), None, None)) != []
  {
    var name := seq(26, _ => '\U{1F600}');
    Utf16LengthOfAstral(name);
  }

  // ---- src/lib/validations/expense.ts ----

  /** `categoryId` is absent (`None`), null (`Some(None)`) or a string (`Some(Some(k))`). */
  datatype ExpenseInput = ExpenseInput(
    amount: Option<real>,
    description: Option<string>,
    categoryId: Option<Option<string>>,
    date: Option<int>)

  function AmountIssues(amount: real): (r: seq<Issue>)
    ensures r == [] <==> amount > 0.0
  {
    if amount > 0.0 then [] else [Issue(["amount"], "Amount must be a positive number")]
  }

  function DescriptionIssues(description: string): seq<Issue>
  {
    LengthIssues("description", description, 1, 200, "Description is required",
                 "Description must be at most 200 characters")
  }

  /**
   * Create: a strictly positive amount, a description of 1 to 200 characters
   * and a date; the category id may be absent, null or any string.
   */
  predicate ValidCreateExpense(input: ExpenseInput)
  {
    && input.amount.Some? && input.amount.value > 0.0
    && input.description.Some? && 1 <= Utf16Length(input.description.value) <= 200
    && input.date.Some?
  }

  /** Update: every field optional, with the create rules on those present. */
  predicate ValidUpdateExpense(input: ExpenseInput)
  {
    && (input.amount.Some? ==> input.amount.value > 0.0)
    && (input.description.Some? ==> 1 <= Utf16Length(input.description.value) <= 200)
  }

  /** `createExpenseSchema`: issues in field order (amount, description, categoryId, date). */
  function CreateExpenseIssues(input: ExpenseInput): (r: seq<Issue>)
    ensures r == [] <==> ValidCreateExpense(input)
  {
    (match input.amount
     case None => [Issue(["amount"], Required)]
     case Some(a) => AmountIssues(a))
    + (match input.description
       case None => [Issue(["description"], Required)]
       case Some(d) => DescriptionIssues(d))
    + (if input.date.None? then [Issue(["date"], Required)] else [])
  }

  /** `updateExpenseSchema`. */
  function UpdateExpenseIssues(input: ExpenseInput): (r: seq<Issue>)
    ensures r == [] <==> ValidUpdateExpense(input)
  {
    (match input.amount
     case None => []
     case Some(a) => AmountIssues(a))
    + (match input.description
       case None => []
       case Some(d) => DescriptionIssues(d))
  }

  /** Every body the create schema accepts, the update schema accepts too. */
  lemma CreateExpenseIsUpdate(input: ExpenseInput)
    requires CreateExpenseIssues(input) == []
    ensures UpdateExpenseIssues(input) == []
  {
  }
}
