/*
 * repositories/CategoryRepository.js and services/CategoryService.js: the
 * category tree stored as parent, ancestors and level on each record, its
 * creation, update, move and deletion, and the path and statistics reads.
 * The product collection appears only as the category id of each product;
 * slugify is the parameter `slugify`.
 */
module Categories {
  import opened Common

  const MAX_LEVEL: int := 5

  const MSG_DUPLICATE: string := "Category with this name or slug already exists"
  const MSG_NOT_FOUND: string := "Category not found"
  const MSG_HAS_CHILDREN: string := "Cannot delete category with subcategories"
  const MSG_HAS_PRODUCTS: string := "Cannot delete category with associated products"
  const MSG_PARENT_NOT_FOUND: string := "New parent category not found"
  const MSG_CYCLE: string := "Cannot move category to its own subcategory"
  const MSG_LEVEL: string := "Category validation failed: level"
  const MSG_NO_PRODUCT_COUNT: string := "category.updateProductCount is not a function"

  datatype Category = Category(id: string, name: string, slug: string, parent: Option<string>,
                               ancestors: seq<string>, level: int)

  /** What $set writes for the parent: nothing, null, or an id. */
  datatype ParentSet = KeepParent | ToRoot | ToParent(id: string)

  /** The update document: name, slug and parent, each optional. */
  datatype Patch = Patch(name: Option<string>, slug: Option<string>, parent: ParentSet)

  /** The result of one call and the collection afterwards. */
  datatype Outcome<T> = Outcome(result: Result<T>, categories: seq<Category>)

  predicate UniqueIds(cats: seq<Category>)
  {
    forall i, j :: 0 <= i < j < |cats| ==> cats[i].id != cats[j].id
  }

  predicate UniqueSlugs(cats: seq<Category>)
  {
    forall i, j :: 0 <= i < j < |cats| ==> cats[i].slug != cats[j].slug
  }

  /** The schema bounds level to 0..5. */
  predicate LevelsInRange(cats: seq<Category>)
  {
    forall i :: 0 <= i < |cats| ==> 0 <= cats[i].level <= MAX_LEVEL
  }

  predicate WellFormed(cats: seq<Category>)
  {
    UniqueIds(cats) && UniqueSlugs(cats) && LevelsInRange(cats)
  }

  function IndexOf(cats: seq<Category>, id: string): (i: int)
    ensures -1 <= i < |cats|
    ensures 0 <= i ==> cats[i].id == id && forall k :: 0 <= k < i ==> cats[k].id != id
    ensures i < 0 ==> forall k :: 0 <= k < |cats| ==> cats[k].id != id
  {
    if cats == [] then -1
    else if cats[0].id == id then 0
    else
      var k := IndexOf(cats[1..], id);
      if k < 0 then -1 else k + 1
  }

  /** The index of a category other than `except` that already uses this slug, or -1. */
  function SlugOwner(cats: seq<Category>, slug: string, except: int): (i: int)
    ensures -1 <= i < |cats|
    ensures 0 <= i ==> cats[i].slug == slug && i != except
    ensures i < 0 ==> forall k :: 0 <= k < |cats| && k != except ==> cats[k].slug != slug
    decreases |cats|
  {
    if cats == [] then -1
    else
      var k := SlugOwner(cats[..|cats| - 1], slug, except);
      if k >= 0 then k
      else if cats[|cats| - 1].slug == slug && |cats| - 1 != except then |cats| - 1
      else -1
  }

  /** The record a parent position derives: ancestors extended by the parent, one level deeper. */
  function UnderParent(c: Category, p: Category): (r: Category)
    ensures r.id == c.id && r.slug == c.slug && r.parent == c.parent && r.name == c.name
    ensures r.ancestors == p.ancestors + [p.id] && r.level == p.level + 1
  {
    c.(ancestors := p.ancestors + [p.id], level := p.level + 1)
  }

  /**
   * create: Category.create first (a duplicate slug is reported as 400), then,
   * for a truthy parent, findById and a second save with the derived ancestors
   * and level. A missing parent throws on `parent.ancestors`, and a level past
   * 5 fails validation; either way the first insert stays, at the root.
   */
  function CreateSpec(cats: seq<Category>, id: string, name: string, slug: string, parent: Option<string>)
    : Outcome<Category>
  {
    if SlugOwner(cats, slug, -1) >= 0 then Outcome(Fail(AppError(400, MSG_DUPLICATE)), cats)
    else
      var c := Category(id, name, slug, parent, [], 0);
      var inserted := cats + [c];
      if !Truthy(parent) then Outcome(Ok(c), inserted)
      else
        var pi := IndexOf(inserted, parent.value);
        if pi < 0 then Outcome(Fail(Thrown(MSG_NULL_READ)), inserted)
        else if inserted[pi].level + 1 > MAX_LEVEL then Outcome(Fail(Thrown(MSG_LEVEL)), inserted)
        else
          var placed := UnderParent(c, inserted[pi]);
          Outcome(Ok(placed), cats + [placed])
  }

  /** $set of the patch on one record. */
  function ApplyPatch(c: Category, p: Patch): (r: Category)
    ensures r.id == c.id && r.ancestors == c.ancestors && r.level == c.level
  {
    c.(name := if p.name.Some? then p.name.value else c.name,
       slug := if p.slug.Some? then p.slug.value else c.slug,
       parent := match p.parent
                 case KeepParent => c.parent
                 case ToRoot => None
                 case ToParent(pid) => Some(pid))
  }

  /**
   * update: findByIdAndUpdate with the patch (404 when no record has the id;
   * a slug taken by another record is MongoDB's duplicate-key error), then,
   * only for a truthy parent, the derived ancestors and level are saved. A
   * parent set to null keeps the old ancestors and level.
   */
  function UpdateSpec(cats: seq<Category>, id: string, p: Patch): Outcome<Category>
  {
    var i := IndexOf(cats, id);
    if i < 0 then Outcome(Fail(AppError(404, MSG_NOT_FOUND)), cats)
    else if p.slug.Some? && SlugOwner(cats, p.slug.value, i) >= 0 then Outcome(Fail(Thrown(MSG_DUPLICATE_KEY)), cats)
    else
      var c := ApplyPatch(cats[i], p);
      var patched := cats[i := c];
      if !p.parent.ToParent? || p.parent.id == "" then Outcome(Ok(c), patched)
      else
        var pi := IndexOf(patched, p.parent.id);
        if pi < 0 then Outcome(Fail(Thrown(MSG_NULL_READ)), patched)
        else if patched[pi].level + 1 > MAX_LEVEL then Outcome(Fail(Thrown(MSG_LEVEL)), patched)
        else
          var placed := UnderParent(c, patched[pi]);
          Outcome(Ok(placed), cats[i := placed])
  }

  /** moveCategory: 404 for the category, 404 for a given new parent, 400 when the parent descends from it. */
  function MoveSpec(cats: seq<Category>, id: string, newParent: Option<string>): Outcome<Category>
  {
    var i := IndexOf(cats, id);
    if i < 0 then Outcome(Fail(AppError(404, MSG_NOT_FOUND)), cats)
    else if Truthy(newParent) && IndexOf(cats, newParent.value) < 0 then
      Outcome(Fail(AppError(404, MSG_PARENT_NOT_FOUND)), cats)
    else if Truthy(newParent) && id in cats[IndexOf(cats, newParent.value)].ancestors then
      Outcome(Fail(AppError(400, MSG_CYCLE)), cats)
    else
      UpdateSpec(cats, id, Patch(None, None, if Truthy(newParent) then ToParent(newParent.value) else ToRoot))
  }

  /** delete: children first, then products, then existence. */
  function DeleteSpec(cats: seq<Category>, productCategories: seq<string>, id: string): Outcome<()>
  {
    if ChildCount(cats, id) > 0 then Outcome(Fail(AppError(400, MSG_HAS_CHILDREN)), cats)
    else if ProductCount(productCategories, id) > 0 then Outcome(Fail(AppError(400, MSG_HAS_PRODUCTS)), cats)
    else
      var i := IndexOf(cats, id);
      if i < 0 then Outcome(Fail(AppError(404, MSG_NOT_FOUND)), cats)
      else Outcome(Ok(()), cats[..i] + cats[i + 1..])
  }

  /** count({ parent: id }). */
  function ChildCount(cats: seq<Category>, id: string): (n: nat)
    ensures n == 0 <==> forall k :: 0 <= k < |cats| ==> cats[k].parent != Some(id)
  {
    if cats == [] then 0
    else ChildCount(cats[..|cats| - 1], id) + (if cats[|cats| - 1].parent == Some(id) then 1 else 0)
  }

  /** Product.countDocuments({ category: id }). */
  function ProductCount(productCategories: seq<string>, id: string): (n: nat)
    ensures n == 0 <==> id !in productCategories
  {
    if productCategories == [] then 0
    else ProductCount(productCategories[..|productCategories| - 1], id) +
         (if productCategories[|productCategories| - 1] == id then 1 else 0)
  }

  /** find({ parent: p }): the records with that parent, in stored order. */
  function WithParent(cats: seq<Category>, p: Option<string>): (r: seq<Category>)
    ensures forall c :: c in r <==> c in cats && c.parent == p
    ensures |r| <= |cats|
  {
    if cats == [] then []
    else WithParent(cats[..|cats| - 1], p) + (if cats[|cats| - 1].parent == p then [cats[|cats| - 1]] else [])
  }

  lemma {:induction false} ChildCountIsWithParent(cats: seq<Category>, id: string)
    ensures ChildCount(cats, id) == |WithParent(cats, Some(id))|
  {
    if cats != [] {
      ChildCountIsWithParent(cats[..|cats| - 1], id);
    }
  }

  /** find({ _id: { $in: ids } }): the records whose id is listed, in stored order. */
  function WithIdIn(cats: seq<Category>, ids: seq<string>): (r: seq<Category>)
    ensures forall c :: c in r <==> c in cats && c.id in ids
    ensures multiset(r) <= multiset(cats)
  {
    if cats == [] then []
    else
      assert cats == cats[..|cats| - 1] + [cats[|cats| - 1]];
      WithIdIn(cats[..|cats| - 1], ids) + (if cats[|cats| - 1].id in ids then [cats[|cats| - 1]] else [])
  }

  predicate LevelLe(a: Category, b: Category)
  {
    a.level <= b.level
  }

  predicate SortedByLevel(s: seq<Category>)
  {
    SortedBy(s, LevelLe)
  }

  /** .sort('level'): ordered by level, equal levels in stored order. */
  function SortByLevel(s: seq<Category>): (r: seq<Category>)
    ensures SortedByLevel(r)
    ensures multiset(r) == multiset(s)
  {
    assert TotalPreorder(LevelLe);
    SortBy(s, LevelLe)
  }

  /** getCategoryPath: 404 for an unknown id; otherwise the ancestors and the category itself, by level. */
  function PathSpec(cats: seq<Category>, id: string): (r: Result<seq<Category>>)
    ensures IndexOf(cats, id) < 0 <==> r == Fail(AppError(404, MSG_NOT_FOUND))
    ensures r.Ok? ==> SortedByLevel(r.value) &&
                      var c := cats[IndexOf(cats, id)];
                      (forall x :: x in r.value <==> x in cats && (x.id in c.ancestors || x.id == id))
  {
    var i := IndexOf(cats, id);
    if i < 0 then Fail(AppError(404, MSG_NOT_FOUND))
    else
      var selected := WithIdIn(cats, cats[i].ancestors + [cats[i].id]);
      var sorted := SortByLevel(selected);
      assert forall x :: x in sorted <==> x in multiset(selected);
      Ok(sorted)
  }

  datatype Statistics = Statistics(productCount: nat, subcategoryCount: nat, level: int, path: seq<Category>)

  /** getStatistics. */
  function StatisticsSpec(cats: seq<Category>, productCategories: seq<string>, id: string): (r: Result<Statistics>)
    ensures IndexOf(cats, id) < 0 <==> r == Fail(AppError(404, MSG_NOT_FOUND))
    ensures r.Ok? ==> r.value.level == cats[IndexOf(cats, id)].level &&
                      (r.value.subcategoryCount == 0 <==> forall k :: 0 <= k < |cats| ==> cats[k].parent != Some(id)) &&
                      (r.value.productCount == 0 <==> id !in productCategories) &&
                      PathSpec(cats, id) == Ok(r.value.path)
  {
    var i := IndexOf(cats, id);
    if i < 0 then Fail(AppError(404, MSG_NOT_FOUND))
    else
      var path := PathSpec(cats, id);
      Ok(Statistics(ProductCount(productCategories, id), ChildCount(cats, id), cats[i].level, path.value))
  }

  // ---- Properties of the tree operations ----

  /** A created child records its parent's ancestors followed by the parent, one level deeper, at the end. */
  lemma CreateUnderParent(cats: seq<Category>, id: string, name: string, slug: string, pid: string)
    requires pid != "" && IndexOf(cats, id) < 0
    requires SlugOwner(cats, slug, -1) < 0 && IndexOf(cats, pid) >= 0
    requires cats[IndexOf(cats, pid)].level < MAX_LEVEL
    ensures var out := CreateSpec(cats, id, name, slug, Some(pid));
            var p := cats[IndexOf(cats, pid)];
            out.result.Ok? && out.categories == cats + [out.result.value] &&
            out.result.value.ancestors == p.ancestors + [pid] && out.result.value.level == p.level + 1 &&
            out.result.value.parent == Some(pid)
  {
    var c := Category(id, name, slug, Some(pid), [], 0);
    var inserted := cats + [c];
    SameIndexAfterAppend(cats, c, pid);
  }

  lemma {:induction false} SameIndexAfterAppend(cats: seq<Category>, c: Category, x: string)
    requires IndexOf(cats, x) >= 0
    ensures IndexOf(cats + [c], x) == IndexOf(cats, x)
  {
    if cats[0].id != x {
      assert (cats + [c])[1..] == cats[1..] + [c];
      SameIndexAfterAppend(cats[1..], c, x);
    }
  }

  lemma {:induction false} AbsentAfterAppend(cats: seq<Category>, c: Category, x: string)
    requires IndexOf(cats, x) < 0 && c.id != x
    ensures IndexOf(cats + [c], x) < 0
  {
    if cats != [] {
      assert (cats + [c])[1..] == cats[1..] + [c];
      AbsentAfterAppend(cats[1..], c, x);
    }
  }

  /** A missing parent throws after the insert: a root-level record with no ancestors is left behind. */
  lemma CreateMissingParentLeavesRootRecord(cats: seq<Category>, id: string, name: string, slug: string, pid: string)
    requires pid != "" && pid != id && SlugOwner(cats, slug, -1) < 0 && IndexOf(cats, pid) < 0
    ensures var out := CreateSpec(cats, id, name, slug, Some(pid));
            out.result == Fail(Thrown(MSG_NULL_READ)) &&
            out.categories == cats + [Category(id, name, slug, Some(pid), [], 0)]
  {
    AbsentAfterAppend(cats, Category(id, name, slug, Some(pid), [], 0), pid);
  }

  /** Creation keeps ids and slugs unique and levels within 0..5. */
  lemma CreateKeepsWellFormed(cats: seq<Category>, id: string, name: string, slug: string, parent: Option<string>)
    requires WellFormed(cats) && IndexOf(cats, id) < 0
    ensures WellFormed(CreateSpec(cats, id, name, slug, parent).categories)
  {
    if SlugOwner(cats, slug, -1) < 0 {
      var c := Category(id, name, slug, parent, [], 0);
      var inserted := cats + [c];
      assert WellFormed(inserted);
      if Truthy(parent) {
        var pi := IndexOf(inserted, parent.value);
        if pi >= 0 && inserted[pi].level + 1 <= MAX_LEVEL {
          var placed := UnderParent(c, inserted[pi]);
          assert WellFormed(cats + [placed]);
        }
      }
    }
  }

  /** Updates keep ids and slugs unique and levels within 0..5. */
  lemma UpdateKeepsWellFormed(cats: seq<Category>, id: string, p: Patch)
    requires WellFormed(cats)
    ensures WellFormed(UpdateSpec(cats, id, p).categories)
  {
    var i := IndexOf(cats, id);
    if i >= 0 && !(p.slug.Some? && SlugOwner(cats, p.slug.value, i) >= 0) {
      var c := ApplyPatch(cats[i], p);
      var patched := cats[i := c];
      assert UniqueIds(patched);
      assert UniqueSlugs(patched) by {
        forall a, b | 0 <= a < b < |patched|
          ensures patched[a].slug != patched[b].slug
        {
          if a != i && b != i {
          } else if p.slug.Some? {
            assert SlugOwner(cats, p.slug.value, i) < 0;
          }
        }
      }
    }
  }

  /** Deleting removes that one record and keeps the rest in order. */
  lemma DeleteRemovesOnlyThatRecord(cats: seq<Category>, productCategories: seq<string>, id: string)
    requires UniqueIds(cats)
    requires DeleteSpec(cats, productCategories, id).result.Ok?
    ensures var after := DeleteSpec(cats, productCategories, id).categories;
            |after| == |cats| - 1 && IndexOf(after, id) < 0 &&
            forall c :: c in cats && c.id != id ==> c in after
  {
    var i := IndexOf(cats, id);
    var out := DeleteSpec(cats, productCategories, id);
    assert i >= 0 && out.categories == cats[..i] + cats[i + 1..];
    RemoveAtKeepsOthers(cats, i, out.categories);
    RemoveAtDropsId(cats, i, out.categories);
  }

  /** Cutting record i out leaves every other record in place. */
  lemma RemoveAtKeepsOthers(cats: seq<Category>, i: int, after: seq<Category>)
    requires 0 <= i < |cats|
    requires after == cats[..i] + cats[i + 1..]
    ensures |after| == |cats| - 1
    ensures forall c :: c in cats && c.id != cats[i].id ==> c in after
  {
    forall c | c in cats && c.id != cats[i].id ensures c in after {
      var k :| 0 <= k < |cats| && cats[k] == c;
      if k < i { assert after[k] == c; } else { assert after[k - 1] == c; }
    }
  }

  /** With unique ids, no record with the cut record's id is left. */
  lemma RemoveAtDropsId(cats: seq<Category>, i: int, after: seq<Category>)
    requires UniqueIds(cats) && 0 <= i < |cats|
    requires after == cats[..i] + cats[i + 1..]
    ensures IndexOf(after, cats[i].id) < 0
  {
    forall k | 0 <= k < |after| ensures after[k].id != cats[i].id {
      if k < i { assert after[k] == cats[k]; } else { assert after[k] == cats[k + 1]; }
    }
  }

  /** The children check runs first: a category with both children and products reports the children. */
  lemma DeleteReportsChildrenFirst(cats: seq<Category>, productCategories: seq<string>, id: string, k: int)
    requires 0 <= k < |cats| && cats[k].parent == Some(id)
    ensures DeleteSpec(cats, productCategories, id) == Outcome(Fail(AppError(400, MSG_HAS_CHILDREN)), cats)
  {
  }

  /** findRootCategories: exactly the records whose parent is null. */
  lemma RootCategoriesExact(cats: seq<Category>, c: Category)
    ensures c in WithParent(cats, None) <==> c in cats && c.parent.None?
  {
  }

  // ---- Findings ----

  /**
   * As written: moving a nested category to the root nulls its parent but
   * keeps its old ancestors and level.
   */
  lemma MoveToRootKeepsStaleAncestors(cats: seq<Category>, id: string)
    requires IndexOf(cats, id) >= 0
    ensures var out := MoveSpec(cats, id, None);
            var c := cats[IndexOf(cats, id)];
            out.result.Ok? && out.result.value.parent.None? &&
            out.result.value.ancestors == c.ancestors && out.result.value.level == c.level
  {
  }

  /** A record whose stored ancestors and level agree with its parent field. */
  predicate Placed(cats: seq<Category>, c: Category)
  {
    if c.parent.None? then c.ancestors == [] && c.level == 0
    else
      var pi := IndexOf(cats, c.parent.value);
      pi >= 0 && c.ancestors == cats[pi].ancestors + [cats[pi].id] && c.level == cats[pi].level + 1
  }

  /** A concrete tree where the stale move shows: b under a, moved to the root, stays at level 1. */
  lemma MoveToRootExample()
    ensures var a := Category("a", "A", "a", None, [], 0);
            var b := Category("b", "B", "b", Some("a"), ["a"], 1);
            var out := MoveSpec([a, b], "b", None);
            Placed([a, b], b) && out.result.Ok? && !Placed(out.categories, out.result.value)
  {
    var a := Category("a", "A", "a", None, [], 0);
    var b := Category("b", "B", "b", Some("a"), ["a"], 1);
    assert IndexOf([a, b], "b") == 1;
    assert IndexOf([a, b], "a") == 0;
  }

  /**
   * Corrected update: a parent set to null also resets ancestors to [] and
   * level to 0, so the moved record is placed consistently either way.
   */
  function UpdateSpecCorrected(cats: seq<Category>, id: string, p: Patch): Outcome<Category>
  {
    var out := UpdateSpec(cats, id, p);
    if out.result.Ok? && p.parent.ToRoot? then
      var c := out.result.value.(ancestors := [], level := 0);
      Outcome(Ok(c), cats[IndexOf(cats, id) := c])
    else out
  }

  // ---- The parent fields as a graph ----

  /** The parent field of the record with that id; none for an unknown id or a root. */
  function ParentOf(cats: seq<Category>, x: string): Option<string>
  {
    var i := IndexOf(cats, x);
    if i < 0 then None else cats[i].parent
  }

  /** Up to `fuel` ids met climbing the parent fields from x, x itself not included. */
  function ParentChain(cats: seq<Category>, x: string, fuel: nat): (r: seq<string>)
    ensures |r| <= fuel
    decreases fuel
  {
    if fuel == 0 then []
    else match ParentOf(cats, x)
      case None => []
      case Some(p) => [p] + ParentChain(cats, p, fuel - 1)
  }

  /** A climb through the parent fields: each id's parent is the next id. */
  ghost predicate IsClimb(cats: seq<Category>, s: seq<string>)
  {
    forall k :: 0 <= k < |s| - 1 ==> ParentOf(cats, s[k]) == Some(s[k + 1])
  }

  /** No climb through the parent fields comes back to where it started. */
  ghost predicate Acyclic(cats: seq<Category>)
  {
    forall s :: IsClimb(cats, s) && |s| >= 2 ==> s[0] != s[|s| - 1]
  }

  /** Every id a climb of at most `fuel` steps reaches is in the chain of that length. */
  lemma {:induction false} ClimbInChain(cats: seq<Category>, s: seq<string>, fuel: nat)
    requires IsClimb(cats, s) && 2 <= |s| && |s| - 1 <= fuel
    ensures s[|s| - 1] in ParentChain(cats, s[0], fuel)
  {
    assert ParentOf(cats, s[0]) == Some(s[1]);
    if |s| > 2 {
      ClimbSlice(cats, s, 1, |s|);
      ClimbInChain(cats, s[1..], fuel - 1);
    }
  }

  lemma ClimbSlice(cats: seq<Category>, s: seq<string>, a: int, b: int)
    requires IsClimb(cats, s) && 0 <= a <= b <= |s|
    ensures IsClimb(cats, s[a..b])
  {
    forall k | 0 <= k < b - a - 1 ensures ParentOf(cats, s[a..b][k]) == Some(s[a..b][k + 1]) {
      assert s[a..b][k] == s[a + k] && s[a..b][k + 1] == s[a + k + 1];
    }
  }

  lemma ClimbJoin(cats: seq<Category>, s: seq<string>, t: seq<string>)
    requires IsClimb(cats, s) && IsClimb(cats, t)
    requires s != [] && t != [] ==> ParentOf(cats, s[|s| - 1]) == Some(t[0])
    ensures IsClimb(cats, s + t)
  {
    forall k | 0 <= k < |s + t| - 1 ensures ParentOf(cats, (s + t)[k]) == Some((s + t)[k + 1]) {
      if k < |s| - 1 {
        assert (s + t)[k] == s[k] && (s + t)[k + 1] == s[k + 1];
      } else if k == |s| - 1 {
        assert (s + t)[k] == s[k] && (s + t)[k + 1] == t[0];
      } else {
        assert (s + t)[k] == t[k - |s|] && (s + t)[k + 1] == t[k - |s| + 1];
      }
    }
  }

  /** Distinct ids drawn from a list of ids are no more than the list holds. */
  lemma {:induction false} DistinctWithin(w: seq<string>, ids: seq<string>)
    requires forall a, b :: 0 <= a < b < |w| ==> w[a] != w[b]
    requires forall a :: 0 <= a < |w| ==> w[a] in ids
    ensures |w| <= |ids|
  {
    if w != [] {
      var x := w[|w| - 1];
      assert x in ids;
      var j :| 0 <= j < |ids| && ids[j] == x;
      var rest := ids[..j] + ids[j + 1..];
      var v := w[..|w| - 1];
      forall a | 0 <= a < |v| ensures v[a] in rest {
        assert v[a] == w[a] && w[a] in ids && w[a] != x;
        var b :| 0 <= b < |ids| && ids[b] == v[a];
        if b < j {
          assert rest[b] == ids[b];
        } else {
          assert rest[b - 1] == ids[b];
        }
      }
      DistinctWithin(v, rest);
    }
  }

  function Ids(cats: seq<Category>): (r: seq<string>)
    ensures |r| == |cats| && forall k :: 0 <= k < |cats| ==> r[k] == cats[k].id
  {
    seq(|cats|, k requires 0 <= k < |cats| => cats[k].id)
  }

  /** Without cycles, a climb visits each stored record at most once, so it takes at most |cats| steps. */
  lemma ClimbLength(cats: seq<Category>, s: seq<string>)
    requires Acyclic(cats) && IsClimb(cats, s) && s != []
    ensures |s| - 1 <= |cats|
  {
    var w := s[..|s| - 1];
    forall a, b | 0 <= a < b < |w| ensures w[a] != w[b] {
      ClimbSlice(cats, s, a, b + 1);
      assert s[a..b + 1][0] == s[a] && s[a..b + 1][b - a] == s[b];
    }
    forall a | 0 <= a < |w| ensures w[a] in Ids(cats) {
      assert ParentOf(cats, s[a]) == Some(s[a + 1]);
      assert Ids(cats)[IndexOf(cats, s[a])] == s[a];
    }
    DistinctWithin(w, Ids(cats));
  }

  /** A climb that takes no step out of `id` uses only parent fields the change left alone. */
  lemma ClimbAvoidingIsOld(cats: seq<Category>, after: seq<Category>, id: string, s: seq<string>)
    requires forall y :: y != id ==> ParentOf(after, y) == ParentOf(cats, y)
    requires IsClimb(after, s) && forall k :: 0 <= k < |s| - 1 ==> s[k] != id
    ensures IsClimb(cats, s)
  {
  }

  /** A cycle through s[j] can be started at s[j + 1], so it runs from there back to s[j]. */
  lemma RotateCycle(cats: seq<Category>, s: seq<string>, j: int) returns (t: seq<string>)
    requires IsClimb(cats, s) && |s| >= 2 && s[0] == s[|s| - 1] && 0 <= j < |s| - 1
    ensures IsClimb(cats, t) && |t| == |s| - 1 && t[0] == s[j + 1] && t[|t| - 1] == s[j]
  {
    ClimbSlice(cats, s, j + 1, |s|);
    ClimbSlice(cats, s, 1, j + 1);
    ClimbJoin(cats, s[j + 1..], s[1..j + 1]);
    t := s[j + 1..] + s[1..j + 1];
    if j == 0 {
      assert t == s[1..];
    }
  }

  /**
   * After one record's parent field changed, a climb from somewhere else that
   * first reaches that record used only the old fields, so the old chain of
   * where it started holds the record.
   */
  lemma ClimbToChangedRecord(cats: seq<Category>, after: seq<Category>, id: string, t: seq<string>)
    requires Acyclic(cats)
    requires forall y :: y != id ==> ParentOf(after, y) == ParentOf(cats, y)
    requires IsClimb(after, t) && 2 <= |t| && t[0] != id && t[|t| - 1] == id
    ensures id in ParentChain(cats, t[0], |cats|)
  {
    var u := ClimbToFirstVisit(after, t, id);
    ClimbAvoidingIsOld(cats, after, id, u);
    ClimbLength(cats, u);
    ClimbInChain(cats, u, |cats|);
  }

  /** The prefix of a climb up to its first visit of `id`. */
  lemma ClimbToFirstVisit(cats: seq<Category>, t: seq<string>, id: string) returns (u: seq<string>)
    requires IsClimb(cats, t) && 2 <= |t| && t[0] != id && t[|t| - 1] == id
    ensures IsClimb(cats, u) && 2 <= |u| && u[0] == t[0] && u[|u| - 1] == id
    ensures forall k :: 0 <= k < |u| - 1 ==> u[k] != id
  {
    var m := FindIndex(t, (x: string) => x == id);
    assert 1 <= m;
    u := t[..m + 1];
    ClimbSlice(cats, t, 0, m + 1);
    forall k | 0 <= k < |u| - 1 ensures u[k] != id {
      assert u[k] == t[k];
    }
  }

  /**
   * A cycle after one record's parent field changed must climb through that
   * record, so its new parent reaches it by the old fields, which the guard
   * refuses.
   */
  lemma NoCycleThroughReparented(cats: seq<Category>, after: seq<Category>, id: string, s: seq<string>)
    requires Acyclic(cats)
    requires forall y :: y != id ==> ParentOf(after, y) == ParentOf(cats, y)
    requires ParentOf(after, id).Some? ==>
               ParentOf(after, id).value != id && id !in ParentChain(cats, ParentOf(after, id).value, |cats|)
    requires IsClimb(after, s) && |s| >= 2
    ensures s[0] != s[|s| - 1]
  {
    if s[0] == s[|s| - 1] {
      if j :| 0 <= j < |s| - 1 && s[j] == id {
        assert ParentOf(after, id) == Some(s[j + 1]);
        var t := RotateCycle(after, s, j);
        ClimbToChangedRecord(cats, after, id, t);
      } else {
        ClimbAvoidingIsOld(cats, after, id, s);
      }
    }
  }

  lemma {:induction false} IndexOfSameIds(a: seq<Category>, b: seq<Category>, x: string)
    requires |a| == |b| && forall k :: 0 <= k < |a| ==> a[k].id == b[k].id
    ensures IndexOf(a, x) == IndexOf(b, x)
  {
    if a != [] && a[0].id != x {
      IndexOfSameIds(a[1..], b[1..], x);
    }
  }

  /** Changing one record's parent to a record that does not climb back to it keeps the tree acyclic. */
  lemma ReparentKeepsAcyclic(cats: seq<Category>, after: seq<Category>, i: int)
    requires UniqueIds(cats) && Acyclic(cats) && 0 <= i < |cats|
    requires |after| == |cats| && after[i].id == cats[i].id
    requires forall k :: 0 <= k < |cats| && k != i ==> after[k] == cats[k]
    requires after[i].parent.Some? ==>
               after[i].parent.value != cats[i].id && cats[i].id !in ParentChain(cats, after[i].parent.value, |cats|)
    ensures Acyclic(after)
  {
    var id := cats[i].id;
    forall y ensures ParentOf(after, y) == (if y == id then after[i].parent else ParentOf(cats, y)) {
      IndexOfSameIds(after, cats, y);
    }
    forall s | IsClimb(after, s) && |s| >= 2 ensures s[0] != s[|s| - 1] {
      NoCycleThroughReparented(cats, after, id, s);
    }
  }

  /**
   * Corrected move: the new parent is refused when it is the category itself
   * or when climbing its parent fields reaches the category, which finds a
   * descendant even where a stored ancestors list is stale; a move to the root
   * also resets the derived fields.
   */
  function MoveSpecCorrected(cats: seq<Category>, id: string, newParent: Option<string>): Outcome<Category>
  {
    if Truthy(newParent) && IndexOf(cats, id) >= 0 &&
       (newParent.value == id || id in ParentChain(cats, newParent.value, |cats|)) then
      Outcome(Fail(AppError(400, MSG_CYCLE)), cats)
    else
      var out := MoveSpec(cats, id, newParent);
      if out.result.Ok? && !Truthy(newParent) then
        var c := out.result.value.(ancestors := [], level := 0);
        Outcome(Ok(c), cats[IndexOf(cats, id) := c])
      else out
  }

  /**
   * As written, the service's create and update call `updateProductCount` on
   * the stored document once the repository has written it; the model defines
   * no such method, so the call throws a TypeError and a write that succeeded
   * is reported as an error. moveCategory ends in the same update.
   */
  function ThenUpdateProductCount(out: Outcome<Category>): Outcome<Category>
  {
    if out.result.Ok? then Outcome(Fail(Thrown(MSG_NO_PRODUCT_COUNT)), out.categories) else out
  }

  /**
   * As written, the service's create, update and move never succeed: each one
   * that the repository carried out is stored and then reported as thrown,
   * and every other outcome is the repository's own error.
   */
  lemma ServiceWritesThenThrowsAsWritten(cats: seq<Category>, id: string, name: string, slug: string,
                                         parent: Option<string>, p: Patch, newParent: Option<string>)
    ensures var repo := CreateSpec(cats, id, name, slug, parent);
            var out := ThenUpdateProductCount(repo);
            out.result.Fail? && out.categories == repo.categories &&
            (out.result == Fail(Thrown(MSG_NO_PRODUCT_COUNT)) <==> repo.result.Ok?)
    ensures var repo := UpdateSpec(cats, id, p);
            var out := ThenUpdateProductCount(repo);
            out.result.Fail? && out.categories == repo.categories &&
            (out.result == Fail(Thrown(MSG_NO_PRODUCT_COUNT)) <==> repo.result.Ok?)
    ensures var repo := MoveSpec(cats, id, newParent);
            var out := ThenUpdateProductCount(repo);
            out.result.Fail? && out.categories == repo.categories &&
            (out.result == Fail(Thrown(MSG_NO_PRODUCT_COUNT)) <==> repo.result.Ok?)
  {
    CreateNeverThrowsUpdateMessage(cats, id, name, slug, parent);
    UpdateNeverThrowsUpdateMessage(cats, id, p);
    UpdateNeverThrowsUpdateMessage(cats, id, Patch(None, None, if Truthy(newParent) then ToParent(newParent.value) else ToRoot));
  }

  lemma CreateNeverThrowsUpdateMessage(cats: seq<Category>, id: string, name: string, slug: string, parent: Option<string>)
    ensures CreateSpec(cats, id, name, slug, parent).result != Fail(Thrown(MSG_NO_PRODUCT_COUNT))
  {
    assert MSG_NO_PRODUCT_COUNT != MSG_NULL_READ && MSG_NO_PRODUCT_COUNT != MSG_LEVEL;
  }

  lemma UpdateNeverThrowsUpdateMessage(cats: seq<Category>, id: string, p: Patch)
    ensures UpdateSpec(cats, id, p).result != Fail(Thrown(MSG_NO_PRODUCT_COUNT))
  {
    assert MSG_NO_PRODUCT_COUNT != MSG_NULL_READ && MSG_NO_PRODUCT_COUNT != MSG_LEVEL;
    assert MSG_NO_PRODUCT_COUNT != MSG_DUPLICATE_KEY;
  }

  /** As written: creating a root category with a fresh slug stores it, yet the call reports a thrown error. */
  lemma CreateStoredButThrowsAsWritten(cats: seq<Category>, id: string, name: string, slug: string)
    requires SlugOwner(cats, slug, -1) < 0
    ensures var out := ThenUpdateProductCount(CreateSpec(cats, id, name, slug, None));
            out.categories == cats + [Category(id, name, slug, None, [], 0)] &&
            out.result == Fail(Thrown(MSG_NO_PRODUCT_COUNT))
  {
  }

  /** The corrected update keeps ids and slugs unique and levels within 0..5. */
  lemma UpdateCorrectedKeepsWellFormed(cats: seq<Category>, id: string, p: Patch)
    requires WellFormed(cats)
    ensures WellFormed(UpdateSpecCorrected(cats, id, p).categories)
  {
    UpdateKeepsWellFormed(cats, id, p);
    var out := UpdateSpec(cats, id, p);
    if out.result.Ok? && p.parent.ToRoot? {
      var i := IndexOf(cats, id);
      var c := out.result.value.(ancestors := [], level := 0);
      assert out.categories == cats[i := out.result.value];
      assert forall k :: 0 <= k < |cats| ==> cats[i := c][k].id == out.categories[k].id &&
                                               cats[i := c][k].slug == out.categories[k].slug;
    }
  }

  /** As written: a category can be made its own parent, and then lists itself among its ancestors. */
  lemma MoveOntoItselfAccepted(cats: seq<Category>, id: string)
    requires WellFormed(cats) && id != ""
    requires var i := IndexOf(cats, id); i >= 0 && id !in cats[i].ancestors && cats[i].level < MAX_LEVEL
    ensures var out := MoveSpec(cats, id, Some(id));
            out.result.Ok? && out.result.value.parent == Some(id) && id in out.result.value.ancestors
  {
  }

  /** A rank that every parent field lowers rules out parent cycles. */
  lemma RankedIsAcyclic(cats: seq<Category>, rank: string -> nat)
    requires forall y :: ParentOf(cats, y).Some? ==> rank(ParentOf(cats, y).value) < rank(y)
    ensures Acyclic(cats)
  {
    forall s | IsClimb(cats, s) && |s| >= 2 ensures s[0] != s[|s| - 1] {
      ClimbDescends(cats, rank, s);
    }
  }

  lemma {:induction false} ClimbDescends(cats: seq<Category>, rank: string -> nat, s: seq<string>)
    requires forall y :: ParentOf(cats, y).Some? ==> rank(ParentOf(cats, y).value) < rank(y)
    requires IsClimb(cats, s) && |s| >= 2
    ensures rank(s[|s| - 1]) < rank(s[0])
  {
    assert ParentOf(cats, s[0]) == Some(s[1]);
    if |s| > 2 {
      ClimbSlice(cats, s, 1, |s|);
      ClimbDescends(cats, rank, s[1..]);
    }
  }

  /** The positions of the ids x, a, b and c in a four-record store that holds them in that order. */
  lemma ExampleIndexes(cats: seq<Category>)
    requires |cats| == 4 && cats[0].id == "x" && cats[1].id == "a" && cats[2].id == "b" && cats[3].id == "c"
    ensures IndexOf(cats, "x") == 0 && IndexOf(cats, "a") == 1 && IndexOf(cats, "b") == 2 && IndexOf(cats, "c") == 3
    ensures forall y :: y != "x" && y != "a" && y != "b" && y != "c" ==> IndexOf(cats, y) == -1
  {
    assert "x" != "a" && "x" != "b" && "x" != "c" && "a" != "b" && "a" != "c" && "b" != "c";
  }

  /** Root x, and the chain a, b, c below it. */
  const EXAMPLE_TREE: seq<Category> :=
    [Category("x", "X", "x", None, [], 0), Category("a", "A", "a", None, [], 0),
     Category("b", "B", "b", Some("a"), ["a"], 1), Category("c", "C", "c", Some("b"), ["a", "b"], 2)]

  /** The example after a moved under x: b and c keep their old ancestors. */
  const EXAMPLE_MOVED: seq<Category> :=
    [Category("x", "X", "x", None, [], 0), Category("a", "A", "a", Some("x"), ["x"], 1),
     Category("b", "B", "b", Some("a"), ["a"], 1), Category("c", "C", "c", Some("b"), ["a", "b"], 2)]

  /** The example after x moved under c. */
  const EXAMPLE_CYCLED: seq<Category> :=
    [Category("x", "X", "x", Some("c"), ["a", "b", "c"], 3), Category("a", "A", "a", Some("x"), ["x"], 1),
     Category("b", "B", "b", Some("a"), ["a"], 1), Category("c", "C", "c", Some("b"), ["a", "b"], 2)]

  lemma ExampleTreeWellFormed()
    ensures WellFormed(EXAMPLE_TREE)
  {
    assert "x" != "a" && "x" != "b" && "x" != "c" && "a" != "b" && "a" != "c" && "b" != "c";
  }

  lemma ExampleTreeAcyclic()
    ensures Acyclic(EXAMPLE_TREE)
  {
    var cats := EXAMPLE_TREE;
    ExampleIndexes(cats);
    var rank := (y: string) => if y == "c" then 2 else if y == "b" then 1 else 0;
    forall y ensures ParentOf(cats, y).Some? ==> rank(ParentOf(cats, y).value) < rank(y) {
      if y == "b" {
        assert ParentOf(cats, y) == Some("a");
      } else if y == "c" {
        assert ParentOf(cats, y) == Some("b");
      } else {
        assert ParentOf(cats, y) == None;
      }
    }
    RankedIsAcyclic(cats, rank);
  }

  lemma ExampleFirstMove()
    ensures MoveSpec(EXAMPLE_TREE, "a", Some("x")) == Outcome(Ok(EXAMPLE_MOVED[1]), EXAMPLE_MOVED)
  {
    var cats := EXAMPLE_TREE;
    ExampleIndexes(cats);
    var c := ApplyPatch(cats[1], Patch(None, None, ToParent("x")));
    var patched := cats[1 := c];
    ExampleIndexes(patched);
    var placed := UnderParent(c, patched[0]);
    assert placed == EXAMPLE_MOVED[1];
    assert cats[1 := placed] == EXAMPLE_MOVED;
    assert UpdateSpec(cats, "a", Patch(None, None, ToParent("x"))) == Outcome(Ok(placed), cats[1 := placed]);
  }

  lemma ExampleSecondMove()
    ensures MoveSpec(EXAMPLE_MOVED, "x", Some("c")) == Outcome(Ok(EXAMPLE_CYCLED[0]), EXAMPLE_CYCLED)
  {
    var cats := EXAMPLE_MOVED;
    ExampleIndexes(cats);
    var c := ApplyPatch(cats[0], Patch(None, None, ToParent("c")));
    var patched := cats[0 := c];
    ExampleIndexes(patched);
    var placed := UnderParent(c, patched[3]);
    assert placed == EXAMPLE_CYCLED[0];
    assert cats[0 := placed] == EXAMPLE_CYCLED;
    assert "x" !in cats[3].ancestors;
    assert UpdateSpec(cats, "x", Patch(None, None, ToParent("c"))) == Outcome(Ok(placed), cats[0 := placed]);
  }

  lemma ExampleMoves()
    ensures MoveSpec(EXAMPLE_TREE, "a", Some("x")) == Outcome(Ok(EXAMPLE_MOVED[1]), EXAMPLE_MOVED)
    ensures MoveSpec(EXAMPLE_MOVED, "x", Some("c")) == Outcome(Ok(EXAMPLE_CYCLED[0]), EXAMPLE_CYCLED)
  {
    ExampleFirstMove();
    ExampleSecondMove();
  }

  lemma ExampleCycle()
    ensures IsClimb(EXAMPLE_CYCLED, ["x", "c", "b", "a", "x"])
  {
    ExampleIndexes(EXAMPLE_CYCLED);
  }

  lemma ExampleCorrectedRefuses()
    ensures MoveSpecCorrected(EXAMPLE_MOVED, "x", Some("c")).result == Fail(AppError(400, MSG_CYCLE))
  {
    ExampleIndexes(EXAMPLE_MOVED);
    assert ParentChain(EXAMPLE_MOVED, "x", 1) == [];
    assert ParentChain(EXAMPLE_MOVED, "a", 2) == ["x"];
    assert ParentChain(EXAMPLE_MOVED, "c", |EXAMPLE_MOVED|) == ["b", "a", "x"];
  }

  /**
   * As written: a move leaves the moved record's descendants with their old
   * ancestors, so a second move can put an ancestor under its own grandchild.
   * Here a is moved under x, then x under c, closing the parent cycle
   * x, c, b, a, x; the corrected move refuses the second step.
   */
  lemma StaleAncestorsAdmitCycleAsWritten()
    ensures var first := MoveSpec(EXAMPLE_TREE, "a", Some("x"));
            var second := MoveSpec(first.categories, "x", Some("c"));
            WellFormed(EXAMPLE_TREE) && Acyclic(EXAMPLE_TREE) && first.result.Ok? && second.result.Ok? &&
            IsClimb(second.categories, ["x", "c", "b", "a", "x"]) &&
            MoveSpecCorrected(first.categories, "x", Some("c")).result == Fail(AppError(400, MSG_CYCLE))
  {
    ExampleTreeWellFormed();
    ExampleTreeAcyclic();
    ExampleMoves();
    ExampleCycle();
    ExampleCorrectedRefuses();
  }

  /**
   * With the corrected move, a successful move never makes a category its own
   * parent or lists it in its own ancestors field, provided no record did so
   * before, and the moved record is placed consistently with its new parent.
   */
  lemma CorrectedMovePlacesRecord(cats: seq<Category>, id: string, newParent: Option<string>)
    requires WellFormed(cats)
    requires forall k :: 0 <= k < |cats| ==> cats[k].id !in cats[k].ancestors
    requires MoveSpecCorrected(cats, id, newParent).result.Ok?
    ensures var c := MoveSpecCorrected(cats, id, newParent).result.value;
            c.parent != Some(c.id) && c.id !in c.ancestors && c.id == id
    ensures var out := MoveSpecCorrected(cats, id, newParent);
            Placed(cats, out.result.value)
  {
    var i := IndexOf(cats, id);
    if Truthy(newParent) {
      var j := IndexOf(cats, newParent.value);
      assert j != i;
    }
  }

  /** An update that patches only the parent field changes at most that one record's parent. */
  lemma UpdateParentChangesOneRecord(cats: seq<Category>, id: string, pp: ParentSet)
    requires pp != KeepParent
    ensures var out := UpdateSpecCorrected(cats, id, Patch(None, None, pp));
            var i := IndexOf(cats, id);
            out.categories == cats ||
            (0 <= i && |out.categories| == |cats| && out.categories[i].id == id &&
             out.categories[i].parent == (if pp.ToParent? then Some(pp.id) else None) &&
             forall k :: 0 <= k < |cats| && k != i ==> out.categories[k] == cats[k])
  {
  }

  /**
   * With the corrected move, no climb through the parent fields ever comes
   * back to where it started: whatever the move's outcome, including a move
   * refused after the parent was already written, a tree without parent
   * cycles stays without them.
   */
  lemma CorrectedMoveKeepsAcyclic(cats: seq<Category>, id: string, newParent: Option<string>)
    requires UniqueIds(cats) && Acyclic(cats)
    ensures Acyclic(MoveSpecCorrected(cats, id, newParent).categories)
  {
    var out := MoveSpecCorrected(cats, id, newParent);
    var i := IndexOf(cats, id);
    var pp := if Truthy(newParent) then ToParent(newParent.value) else ToRoot;
    if out.categories != cats {
      assert out.categories == UpdateSpecCorrected(cats, id, Patch(None, None, pp)).categories;
      UpdateParentChangesOneRecord(cats, id, pp);
      ReparentKeepsAcyclic(cats, out.categories, i);
    }
  }

  // ---- The repository and the service over the stored collection ----

  class CategoryRepository {
    var categories: seq<Category>

    predicate Valid()
      reads this
    {
      WellFormed(categories)
    }

    constructor ()
      ensures Valid() && categories == []
    {
      categories := [];
    }

    method FindById(id: string) returns (r: Option<Category>)
      ensures r.Some? <==> exists k :: 0 <= k < |categories| && categories[k].id == id
      ensures r.Some? ==> r.value in categories && r.value.id == id
      ensures r.Some? ==> r.value == categories[IndexOf(categories, id)]
    {
      var i := IndexOf(categories, id);
      r := if i < 0 then None else Some(categories[i]);
    }

    /** findBySlug. */
    method FindBySlug(slug: string) returns (r: Option<Category>)
      ensures r.Some? <==> exists k :: 0 <= k < |categories| && categories[k].slug == slug
      ensures r.Some? ==> r.value in categories && r.value.slug == slug
    {
      var i := SlugOwner(categories, slug, -1);
      r := if i < 0 then None else Some(categories[i]);
    }

    /** findRootCategories. */
    method FindRootCategories() returns (r: seq<Category>)
      ensures forall c :: c in r <==> c in categories && c.parent.None?
    {
      r := WithParent(categories, None);
    }

    /** findByParent. */
    method FindByParent(pid: string) returns (r: seq<Category>)
      ensures forall c :: c in r <==> c in categories && c.parent == Some(pid)
    {
      r := WithParent(categories, Some(pid));
    }

    method Create(id: string, name: string, slug: string, parent: Option<string>) returns (r: Result<Category>)
      requires Valid() && IndexOf(categories, id) < 0
      modifies this
      ensures Valid()
      ensures Outcome(r, categories) == CreateSpec(old(categories), id, name, slug, parent)
    {
      CreateKeepsWellFormed(categories, id, name, slug, parent);
      if SlugOwner(categories, slug, -1) >= 0 {
        return Fail(AppError(400, MSG_DUPLICATE));
      }
      var c := Category(id, name, slug, parent, [], 0);
      categories := categories + [c];
      if !Truthy(parent) {
        return Ok(c);
      }
      var pi := IndexOf(categories, parent.value);
      if pi < 0 {
        return Fail(Thrown(MSG_NULL_READ));
      }
      var p := categories[pi];
      if p.level + 1 > MAX_LEVEL {
        return Fail(Thrown(MSG_LEVEL));
      }
      c := c.(ancestors := p.ancestors + [p.id], level := p.level + 1);
      categories := categories[|categories| - 1 := c];
      assert categories == old(categories) + [c];
      r := Ok(c);
    }

    /** update, with a parent set to null also resetting the derived ancestors and level. */
    method Update(id: string, p: Patch) returns (r: Result<Category>)
      requires Valid()
      modifies this
      ensures Valid()
      ensures Outcome(r, categories) == UpdateSpecCorrected(old(categories), id, p)
    {
      UpdateCorrectedKeepsWellFormed(categories, id, p);
      var i := IndexOf(categories, id);
      if i < 0 {
        return Fail(AppError(404, MSG_NOT_FOUND));
      }
      if p.slug.Some? && SlugOwner(categories, p.slug.value, i) >= 0 {
        return Fail(Thrown(MSG_DUPLICATE_KEY));
      }
      var c := ApplyPatch(categories[i], p);
      if p.parent.ToRoot? {
        c := c.(ancestors := [], level := 0);
      }
      categories := categories[i := c];
      if !p.parent.ToParent? || p.parent.id == "" {
        return Ok(c);
      }
      var pi := IndexOf(categories, p.parent.id);
      if pi < 0 {
        return Fail(Thrown(MSG_NULL_READ));
      }
      var parent := categories[pi];
      if parent.level + 1 > MAX_LEVEL {
        return Fail(Thrown(MSG_LEVEL));
      }
      c := c.(ancestors := parent.ancestors + [parent.id], level := parent.level + 1);
      categories := categories[i := c];
      r := Ok(c);
    }

    method Delete(id: string, productCategories: seq<string>) returns (r: Result<()>)
      requires Valid()
      modifies this
      ensures Valid()
      ensures Outcome(r, categories) == DeleteSpec(old(categories), productCategories, id)
    {
      if ChildCount(categories, id) > 0 {
        return Fail(AppError(400, MSG_HAS_CHILDREN));
      }
      if ProductCount(productCategories, id) > 0 {
        return Fail(AppError(400, MSG_HAS_PRODUCTS));
      }
      var i := IndexOf(categories, id);
      if i < 0 {
        return Fail(AppError(404, MSG_NOT_FOUND));
      }
      ghost var before := categories;
      categories := categories[..i] + categories[i + 1..];
      assert forall k :: 0 <= k < |categories| ==> categories[k] == (if k < i then before[k] else before[k + 1]);
      r := Ok(());
    }

    method GetCategoryPath(id: string) returns (r: Result<seq<Category>>)
      ensures r == PathSpec(categories, id)
      ensures r.Ok? ==> SortedByLevel(r.value)
    {
      r := PathSpec(categories, id);
    }
  }

  class CategoryService {
    const repo: CategoryRepository

    constructor (repo: CategoryRepository)
      ensures this.repo == repo
    {
      this.repo := repo;
    }

    /** create: the slug is always derived from the name. */
    method Create(id: string, name: string, parent: Option<string>, slugify: string -> string) returns (r: Result<Category>)
      requires repo.Valid() && IndexOf(repo.categories, id) < 0
      modifies repo
      ensures repo.Valid()
      ensures Outcome(r, repo.categories) == CreateSpec(old(repo.categories), id, name, slugify(name), parent)
      ensures r.Ok? ==> r.value.slug == slugify(name)
    {
      r := repo.Create(id, name, slugify(name), parent);
    }

    /** update: a new slug only when a truthy name is given. */
    method Update(id: string, name: Option<string>, parent: ParentSet, slugify: string -> string) returns (r: Result<Category>)
      requires repo.Valid()
      modifies repo
      ensures repo.Valid()
      ensures Outcome(r, repo.categories) ==
              UpdateSpecCorrected(old(repo.categories), id, Patch(name, if Truthy(name) then Some(slugify(name.value)) else None, parent))
    {
      var slug := if Truthy(name) then Some(slugify(name.value)) else None;
      r := repo.Update(id, Patch(name, slug, parent));
    }

    /** getBySlug. */
    method GetBySlug(slug: string) returns (r: Result<Category>)
      ensures r.Ok? <==> exists k :: 0 <= k < |repo.categories| && repo.categories[k].slug == slug
      ensures r.Ok? ==> r.value in repo.categories && r.value.slug == slug
      ensures r.Fail? ==> r == Fail(AppError(404, MSG_NOT_FOUND))
    {
      var found := repo.FindBySlug(slug);
      if found.None? {
        return Fail(AppError(404, MSG_NOT_FOUND));
      }
      r := Ok(found.value);
    }

    /** moveCategory, refusing the category itself, or any record whose parent fields climb to it, as its new parent. */
    method MoveCategory(id: string, newParent: Option<string>) returns (r: Result<Category>)
      requires repo.Valid()
      modifies repo
      ensures repo.Valid()
      ensures Outcome(r, repo.categories) == MoveSpecCorrected(old(repo.categories), id, newParent)
    {
      var category := repo.FindById(id);
      if category.None? {
        return Fail(AppError(404, MSG_NOT_FOUND));
      }
      if Truthy(newParent) && newParent.value == id {
        return Fail(AppError(400, MSG_CYCLE));
      }
      if Truthy(newParent) {
        var np := repo.FindById(newParent.value);
        if np.None? {
          return Fail(AppError(404, MSG_PARENT_NOT_FOUND));
        }
        assert np.value == repo.categories[IndexOf(repo.categories, newParent.value)];
        if id in np.value.ancestors || id in ParentChain(repo.categories, newParent.value, |repo.categories|) {
          return Fail(AppError(400, MSG_CYCLE));
        }
      }
      r := repo.Update(id, Patch(None, None, if Truthy(newParent) then ToParent(newParent.value) else ToRoot));
    }

    method GetStatistics(id: string, productCategories: seq<string>) returns (r: Result<Statistics>)
      ensures r == StatisticsSpec(repo.categories, productCategories, id)
    {
      var category := repo.FindById(id);
      if category.None? {
        return Fail(AppError(404, MSG_NOT_FOUND));
      }
      var path := repo.GetCategoryPath(id);
      assert path.Ok?;
      r := Ok(Statistics(ProductCount(productCategories, id), ChildCount(repo.categories, id), category.value.level, path.value));
    }
  }
}

