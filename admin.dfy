/**
  The admin page: it owns the list of products shown in the catalog manager
  and hands the product manager three callbacks that rebuild that list by
  spread, `map` and `filter`.
 */
module Admin {
  import opened Nullable
  import opened Catalog

  /** `[...products, { ...productData, id: now }]`: the id the argument carries is replaced. */
  function Added(products: seq<Product>, productData: Product, now: string): (r: seq<Product>)
    ensures |r| == |products| + 1
    ensures r[..|products|] == products
    ensures r[|products|] == productData.(id := now)
  {
    products + [productData.(id := now)]
  }

  /** `products.map(p => p.id === id ? { ...p, ...patch } : p)`. */
  function Updated(products: seq<Product>, id: string, patch: ProductPatch): (r: seq<Product>)
    ensures |r| == |products|
    ensures forall i :: 0 <= i < |products| ==>
      r[i] == (if products[i].id == id then Merge(products[i], patch) else products[i])
  {
    if products == [] then []
    else
      [if products[0].id == id then Merge(products[0], patch) else products[0]]
      + Updated(products[1..], id, patch)
  }

  /** `products.filter(p => p.id !== id)`. */
  function Deleted(products: seq<Product>, id: string): (r: seq<Product>)
    ensures forall p :: p in r <==> p in products && p.id != id
    ensures |r| <= |products|
  {
    if products == [] then []
    else (if products[0].id == id then [] else [products[0]]) + Deleted(products[1..], id)
  }

  /** Filtering is taken piece by piece, so the entries that stay keep their relative order. */
  lemma {:induction false} DeletedKeepsOrder(a: seq<Product>, b: seq<Product>, id: string)
    ensures Deleted(a + b, id) == Deleted(a, id) + Deleted(b, id)
  {
    if a == [] {
      assert a + b == b;
    } else {
      assert (a + b)[1..] == a[1..] + b;
      DeletedKeepsOrder(a[1..], b, id);
    }
  }

  /** Deleting an id that no entry carries leaves the list as it was. */
  lemma {:induction false} DeletedAbsent(products: seq<Product>, id: string)
    requires forall p :: p in products ==> p.id != id
    ensures Deleted(products, id) == products
  {
    if products != [] {
      assert products[0] in products;
      assert forall p :: p in products[1..] ==> p in products;
      DeletedAbsent(products[1..], id);
    }
  }

  /** Deleting the same id twice is the same as deleting it once. */
  lemma DeletedIdempotent(products: seq<Product>, id: string)
    ensures Deleted(Deleted(products, id), id) == Deleted(products, id)
  {
    DeletedAbsent(Deleted(products, id), id);
  }

  /** Deleting under the id a product was just added with takes it out again. */
  lemma DeleteUndoesAdd(products: seq<Product>, productData: Product, now: string)
    ensures Deleted(Added(products, productData, now), now) == Deleted(products, now)
  {
    DeletedKeepsOrder(products, [productData.(id := now)], now);
  }

  /** Updating an id that no entry carries leaves the list as it was. */
  lemma UpdatedAbsent(products: seq<Product>, id: string, patch: ProductPatch)
    requires forall i :: 0 <= i < |products| ==> products[i].id != id
    ensures Updated(products, id, patch) == products
  {
  }

  /** Applying the same update twice is the same as applying it once, even when the patch renames the id. */
  lemma UpdatedIdempotent(products: seq<Product>, id: string, patch: ProductPatch)
    ensures Updated(Updated(products, id, patch), id, patch) == Updated(products, id, patch)
  {
    var once := Updated(products, id, patch);
    var twice := Updated(once, id, patch);
    forall i | 0 <= i < |products|
      ensures twice[i] == once[i]
    {
      if products[i].id == id {
        MergeIdempotent(products[i], patch);
      }
    }
  }

  /** The page component; its `products` state starts as the empty list. */
  class AdminPage {
    var products: seq<Product>

    constructor ()
      ensures products == []
    {
      products := [];
    }

    method AddProduct(productData: Product, now: string)
      modifies this
      ensures products == Added(old(products), productData, now)
    {
      products := products + [productData.(id := now)];
    }

    method UpdateProduct(id: string, patch: ProductPatch)
      modifies this
      ensures products == Updated(old(products), id, patch)
    {
      products := Updated(products, id, patch);
    }

    method DeleteProduct(id: string)
      modifies this
      ensures products == Deleted(old(products), id)
    {
      products := Deleted(products, id);
    }
  }
}
