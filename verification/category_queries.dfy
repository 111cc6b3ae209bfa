/**
 * Reads of the categories table, scoped by owner: a user sees their own
 * categories and the default (owner-less) ones, and nobody else's.
 */
module CategoryQueries {
  import opened Wrappers
  import opened Seqs
  import opened Schema

  function OwnedBy(userId: Id): Category -> bool { (c: Category) => c.userId == Some(userId) }

  /** `getCategoriesByUserId`: the rows whose owner is `userId`. */
  function CategoriesByUserId(t: seq<Category>, userId: Id): (r: seq<Category>)
    ensures forall c :: c in r <==> c in t && c.userId == Some(userId)
  {
    Filter(t, OwnedBy(userId))
  }

  /** `getDefaultCategories`: the rows with a null owner. */
  function DefaultCategories(t: seq<Category>): (r: seq<Category>)
    ensures forall c :: c in r <==> c in t && IsDefault(c)
  {
    Filter(t, IsDefault)
  }

  /** `getAllCategoriesForUser`: the UNION of the user's own rows and the default rows. */
  function AllCategoriesForUser(t: seq<Category>, userId: Id): (r: seq<Category>)
    ensures forall c :: c in r <==> c in t && (c.userId == Some(userId) || IsDefault(c))
    ensures |r| <= |t|
  {
    var own := CategoriesByUserId(t, userId);
    var defaults := DefaultCategories(t);
    FilterMultiset(t, OwnedBy(userId));
    FilterMultiset(t, IsDefault);
    DisjointSubsetsFit(t, own, defaults);
    own + defaults
  }

  /** Two sub-multisets of a table with no element in common together fit in the table. */
  lemma DisjointSubsetsFit(t: seq<Category>, a: seq<Category>, b: seq<Category>)
    requires forall c :: multiset(a)[c] <= multiset(t)[c]
    requires forall c :: multiset(b)[c] <= multiset(t)[c]
    requires forall c :: c in a ==> c !in b
    ensures |a + b| <= |t|
  {
    var m := multiset(a) + multiset(b);
    assert m <= multiset(t) by {
      forall c ensures m[c] <= multiset(t)[c] {
        if c in a { assert multiset(b)[c] == 0; } else { assert multiset(a)[c] == 0; }
      }
    }
    assert |m| == |a + b| by { assert multiset(a + b) == m; }
    var n := multiset(t);
    assert n == m + (n - m);
    assert |n| == |m| + |n - m|;
  }

  /**
   * The union holds no row twice: the two halves are disjoint (an owned row
   * is never a default row) and each half keeps the table's unique ids.
   */
  lemma {:induction false} AllCategoriesUnique(t: seq<Category>, userId: Id)
    requires UniqueBy(t, CategoryId)
    ensures UniqueBy(AllCategoriesForUser(t, userId), CategoryId)
  {
    var own := CategoriesByUserId(t, userId);
    var defaults := DefaultCategories(t);
    var r := own + defaults;
    FilterKeepsUnique(t, OwnedBy(userId), CategoryId);
    FilterKeepsUnique(t, IsDefault, CategoryId);
    forall i, j | 0 <= i < j < |r| ensures r[i].id != r[j].id {
      if j < |own| {
        assert r[i] == own[i] && r[j] == own[j];
      } else if |own| <= i {
        assert r[i] == defaults[i - |own|] && r[j] == defaults[j - |own|];
      } else {
        assert r[i] in own && r[j] in defaults;
        if r[i].id == r[j].id {
          SameKeySameRow(t, CategoryId, r[i], r[j]);
        }
      }
    }
  }

  /**
   * `getCategoryById`. With a truthy acting user the lookup is scoped: first
   * the user's own row with that id, then a default row with that id. With no
   * user (or an empty id, which JavaScript treats as false) any row with that
   * id is returned, whoever owns it.
   */
  function CategoryById(t: seq<Category>, id: Id, userId: Option<Id>): (r: Option<Category>)
    ensures r.Some? ==> r.value in t && r.value.id == id
    ensures Truthy(userId) ==>
      (r.Some? <==> exists c :: c in t && c.id == id && (c.userId == userId || IsDefault(c)))
    ensures Truthy(userId) && r.Some? ==> r.value.userId == userId || IsDefault(r.value)
    ensures Truthy(userId) && (exists c :: c in t && c.id == id && c.userId == userId) ==>
      r.Some? && r.value.userId == userId
    ensures !Truthy(userId) ==> (r.Some? <==> exists c :: c in t && c.id == id)
  {
    if Truthy(userId) then
      var own := FirstWhere(t, (c: Category) => c.id == id && c.userId == userId);
      if own.Some? then own
      else FirstWhere(t, (c: Category) => c.id == id && c.userId.None?)
    else
      FirstWhere(t, (c: Category) => c.id == id)
  }

  /** A default category is found by its id whatever the acting user. */
  lemma DefaultVisibleToAll(t: seq<Category>, c: Category, userId: Option<Id>)
    requires UniqueBy(t, CategoryId)
    requires c in t && IsDefault(c)
    ensures CategoryById(t, c.id, userId) == Some(c)
  {
    var r := CategoryById(t, c.id, userId);
    SameKeySameRow(t, CategoryId, r.value, c);
  }

  /** A category owned by someone else is invisible to a (truthy) acting user. */
  lemma ForeignInvisible(t: seq<Category>, c: Category, userId: Id)
    requires UniqueBy(t, CategoryId)
    requires c in t && c.userId.Some? && c.userId != Some(userId) && userId != ""
    ensures CategoryById(t, c.id, Some(userId)) == None
  {
    var r := CategoryById(t, c.id, Some(userId));
    if r.Some? {
      SameKeySameRow(t, CategoryId, r.value, c);
    }
  }
}
