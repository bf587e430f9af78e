/** The catalog half of the storefront database: categories and products
    kept as lists in insertion order, looked up by a linear scan for the
    first entry with a given id, and given fresh ids as "largest id so far
    plus one". */
module Catalog {
  import opened Common

  datatype Category = Category(id: int, name: string)

  /** A product record; `quantity` is the stock on hand (9999 when the admin gives none). */
  datatype Product = Product(id: int, categoryId: int, name: string, price: real,
                             description: string, quantity: int)

  const DefaultStock := 9999

  function ProductIds(products: seq<Product>): (ids: seq<int>)
    ensures |ids| == |products|
    ensures forall k :: 0 <= k < |products| ==> ids[k] == products[k].id
  {
    seq(|products|, k requires 0 <= k < |products| => products[k].id)
  }

  function CategoryIds(categories: seq<Category>): (ids: seq<int>)
    ensures |ids| == |categories|
    ensures forall k :: 0 <= k < |categories| ==> ids[k] == categories[k].id
  {
    seq(|categories|, k requires 0 <= k < |categories| => categories[k].id)
  }

  /** No id occurs twice. */
  predicate Distinct(ids: seq<int>)
  {
    forall i, j :: 0 <= i < j < |ids| ==> ids[i] != ids[j]
  }

  /** Position of the first entry equal to `id`, or -1: the scan behind
      `get_product` and `get_category`. */
  function FirstIndex(ids: seq<int>, id: int): (i: int)
    ensures -1 <= i < |ids|
    ensures 0 <= i ==> ids[i] == id && forall k :: 0 <= k < i ==> ids[k] != id
    ensures i == -1 <==> forall k :: 0 <= k < |ids| ==> ids[k] != id
  {
    if ids == [] then -1
    else if ids[0] == id then 0
    else
      var j := FirstIndex(ids[1..], id);
      if j < 0 then -1 else j + 1
  }

  /** Among distinct ids, the first index of an id is its only index. */
  lemma FirstIndexOfDistinct(ids: seq<int>, k: int)
    requires Distinct(ids) && 0 <= k < |ids|
    ensures FirstIndex(ids, ids[k]) == k
  {
  }

  /** `get_product`: the first product with that id, if any. */
  function FindProduct(products: seq<Product>, id: int): (r: Option<Product>)
    ensures r.Some? ==> r.value in products && r.value.id == id
    ensures r.None? <==> forall p :: p in products ==> p.id != id
  {
    var i := FirstIndex(ProductIds(products), id);
    if i < 0 then None else Some(products[i])
  }

  /** `get_category`: the first category with that id, if any. */
  function FindCategory(categories: seq<Category>, id: int): (r: Option<Category>)
    ensures r.Some? ==> r.value in categories && r.value.id == id
    ensures r.None? <==> forall c :: c in categories ==> c.id != id
  {
    var i := FirstIndex(CategoryIds(categories), id);
    if i < 0 then None else Some(categories[i])
  }

  /** `max(ids, default=0)`. */
  function MaxId(ids: seq<int>): (m: int)
    ensures ids == [] ==> m == 0
    ensures forall k :: 0 <= k < |ids| ==> ids[k] <= m
    ensures ids != [] ==> exists k :: 0 <= k < |ids| && ids[k] == m
  {
    if ids == [] then 0
    else if |ids| == 1 then ids[0]
    else
      var m := MaxId(ids[1..]);
      assert forall k :: 1 <= k < |ids| ==> ids[k] == ids[1..][k - 1];
      if ids[0] >= m then ids[0] else m
  }

  /** The id `add_category` and `add_product` allocate: larger than every
      existing id, and 1 for an empty list. */
  function NextId(ids: seq<int>): (n: int)
    ensures ids == [] ==> n == 1
    ensures forall k :: 0 <= k < |ids| ==> ids[k] < n
    ensures ids != [] ==> exists k :: 0 <= k < |ids| && ids[k] == n - 1
  {
    MaxId(ids) + 1
  }

  /** The entries of `s` that `keep` accepts, in their original order: the
      list comprehensions of `get_products_by_category` and `delete_product`. */
  function Filter<T>(s: seq<T>, keep: T -> bool): seq<T>
  {
    if s == [] then []
    else
      var rest := Filter(s[1..], keep);
      if keep(s[0]) then [s[0]] + rest else rest
  }

  /** The filter holds exactly the accepted entries, and drops one exactly
      when some entry is refused. */
  lemma {:induction false} FilterSpec<T(!new)>(s: seq<T>, keep: T -> bool)
    ensures forall x :: x in Filter(s, keep) <==> x in s && keep(x)
    ensures |Filter(s, keep)| <= |s|
    ensures |Filter(s, keep)| == |s| <==> forall x :: x in s ==> keep(x)
  {
    if s != [] {
      FilterSpec(s[1..], keep);
      assert forall x :: x in s <==> x == s[0] || x in s[1..];
    }
  }

  /** Filtering a concatenation filters each part and keeps them in order,
      so the kept entries stay in their original order. */
  lemma {:induction false} FilterConcat<T>(a: seq<T>, b: seq<T>, keep: T -> bool)
    ensures Filter(a + b, keep) == Filter(a, keep) + Filter(b, keep)
  {
    if a == [] {
      assert a + b == b;
    } else {
      var rest := Filter(a[1..], keep) + Filter(b, keep);
      assert Filter(a[1..] + b, keep) == rest by {
        FilterConcat(a[1..], b, keep);
      }
      assert (a + b)[0] == a[0] && (a + b)[1..] == a[1..] + b;
      if keep(a[0]) {
        assert [a[0]] + rest == ([a[0]] + Filter(a[1..], keep)) + Filter(b, keep);
      }
    }
  }

  /** A filter that keeps every entry returns the list itself, order included. */
  lemma {:induction false} FilterKeepsAll<T>(s: seq<T>, keep: T -> bool)
    requires forall x :: x in s ==> keep(x)
    ensures Filter(s, keep) == s
  {
    if s != [] {
      assert forall x :: x in s[1..] ==> x in s;
      FilterKeepsAll(s[1..], keep);
      assert s == [s[0]] + s[1..];
    }
  }

  /** `get_products_by_category`: the products of the category in catalog order. */
  function ProductsInCategory(products: seq<Product>, categoryId: int): (r: seq<Product>)
    ensures forall p :: p in r <==> p in products && p.categoryId == categoryId
    ensures (forall p :: p in products ==> p.categoryId == categoryId) ==> r == products
  {
    var keep := (p: Product) => p.categoryId == categoryId;
    FilterSpec(products, keep);
    if forall p :: p in products ==> keep(p) then FilterKeepsAll(products, keep); Filter(products, keep)
    else Filter(products, keep)
  }

  /** The listing of a catalog made of two parts is the listing of the first
      part followed by that of the second: the listing keeps catalog order. */
  lemma ProductsInCategoryConcat(a: seq<Product>, b: seq<Product>, categoryId: int)
    ensures ProductsInCategory(a + b, categoryId) == ProductsInCategory(a, categoryId) + ProductsInCategory(b, categoryId)
  {
    FilterConcat(a, b, (p: Product) => p.categoryId == categoryId);
  }

  /** The list `delete_product` leaves behind; it is shorter exactly when
      a product with that id was there, and unchanged otherwise. */
  function WithoutProduct(products: seq<Product>, id: int): (r: seq<Product>)
    ensures forall p :: p in r <==> p in products && p.id != id
    ensures |r| < |products| <==> FindProduct(products, id).Some?
    ensures FindProduct(products, id).None? ==> r == products
  {
    var keep := (p: Product) => p.id != id;
    FilterSpec(products, keep);
    if forall p :: p in products ==> keep(p) then FilterKeepsAll(products, keep); Filter(products, keep)
    else Filter(products, keep)
  }

  lemma WithoutProductConcat(a: seq<Product>, b: seq<Product>, id: int)
    ensures WithoutProduct(a + b, id) == WithoutProduct(a, id) + WithoutProduct(b, id)
  {
    FilterConcat(a, b, (p: Product) => p.id != id);
  }

  /** With distinct ids, deleting the product at position `i` closes the gap
      and leaves every other product where it was relative to the rest. */
  lemma WithoutProductAt(products: seq<Product>, i: nat)
    requires Distinct(ProductIds(products)) && i < |products|
    ensures WithoutProduct(products, products[i].id) == products[..i] + products[i + 1..]
  {
    var id := products[i].id;
    assert forall k :: 0 <= k < |products| && k != i ==> ProductIds(products)[k] != ProductIds(products)[i];
    FilterDropsOne(products, i, (p: Product) => p.id != id);
  }

  /** A filter that refuses exactly the entry at `i` closes the gap there. */
  lemma {:induction false} FilterDropsOne<T>(s: seq<T>, i: nat, keep: T -> bool)
    requires i < |s| && !keep(s[i])
    requires forall k :: 0 <= k < |s| && k != i ==> keep(s[k])
    ensures Filter(s, keep) == s[..i] + s[i + 1..]
  {
    if i == 0 {
      assert Filter(s[1..], keep) == s[1..] by {
        assert forall x :: x in s[1..] ==> keep(x) by {
          forall x | x in s[1..]
            ensures keep(x)
          {
            var k :| 0 <= k < |s[1..]| && s[1..][k] == x;
            assert s[k + 1] == x;
          }
        }
        FilterKeepsAll(s[1..], keep);
      }
      assert s[..0] + s[1..] == s[1..];
    } else {
      var t := s[1..];
      assert Filter(t, keep) == t[..i - 1] + t[i..] by {
        assert forall k :: 0 <= k < |t| ==> t[k] == s[k + 1];
        FilterDropsOne(t, i - 1, keep);
      }
      assert [s[0]] + (t[..i - 1] + t[i..]) == s[..i] + s[i + 1..];
    }
  }

  /** Appending an id other than `id` does not move the first index of `id`. */
  lemma FirstIndexAppend(ids: seq<int>, x: int, id: int)
    requires x != id
    ensures FirstIndex(ids + [x], id) == FirstIndex(ids, id)
  {
    var ids' := ids + [x];
    var b := FirstIndex(ids, id);
    var a := FirstIndex(ids', id);
    if b >= 0 {
      assert ids'[b] == id;
      assert a <= b;
      assert ids[a] == ids'[a];
    } else {
      assert forall k :: 0 <= k < |ids'| ==> ids'[k] != id by {
        assert forall k :: 0 <= k < |ids| ==> ids'[k] == ids[k];
      }
    }
  }

  /** Appending an entry under `NextId` keeps the ids distinct. */
  lemma {:induction false} NextIdKeepsDistinct(ids: seq<int>)
    requires Distinct(ids)
    ensures Distinct(ids + [NextId(ids)])
  {
    var n := NextId(ids);
    var ids' := ids + [n];
    forall i, j | 0 <= i < j < |ids'|
      ensures ids'[i] != ids'[j]
    {
      if j == |ids| {
        assert ids'[i] == ids[i] < n;
      } else {
        assert ids'[i] == ids[i] && ids'[j] == ids[j];
      }
    }
  }

  /** The tail of a list with distinct ids has distinct ids, none equal to the head's. */
  lemma DistinctTail(products: seq<Product>)
    requires products != [] && Distinct(ProductIds(products))
    ensures Distinct(ProductIds(products[1..]))
    ensures forall p :: p in products[1..] ==> p.id != products[0].id
  {
    forall i, j | 0 <= i < j < |products| - 1
      ensures products[1..][i].id != products[1..][j].id
    {
      assert products[1..][i] == products[i + 1] && products[1..][j] == products[j + 1];
    }
    forall p | p in products[1..]
      ensures p.id != products[0].id
    {
      var k :| 0 <= k < |products[1..]| && products[1..][k] == p;
      assert products[k + 1] == p;
    }
  }

  /** Putting a product in front of a list with distinct ids, none its own, keeps them distinct. */
  lemma DistinctCons(x: Product, rest: seq<Product>)
    requires Distinct(ProductIds(rest)) && forall p :: p in rest ==> p.id != x.id
    ensures Distinct(ProductIds([x] + rest))
  {
    var r := [x] + rest;
    forall i, j | 0 <= i < j < |r|
      ensures r[i].id != r[j].id
    {
      assert r[j] == rest[j - 1];
      if i > 0 {
        assert r[i] == rest[i - 1];
      }
    }
  }

  /** Dropping entries keeps product ids distinct. */
  lemma {:induction false} FilterKeepsDistinct(products: seq<Product>, keep: Product -> bool)
    requires Distinct(ProductIds(products))
    ensures Distinct(ProductIds(Filter(products, keep)))
  {
    if products != [] {
      DistinctTail(products);
      FilterKeepsDistinct(products[1..], keep);
      if keep(products[0]) {
        FilterSpec(products[1..], keep);
        DistinctCons(products[0], Filter(products[1..], keep));
      }
    }
  }
}
