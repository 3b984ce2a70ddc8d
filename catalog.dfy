/**
  The product record shared by the admin page and the product manager
  (`interface Product` of the product manager component), and the object
  spread `{ ...product, ...patch }` that applies a `Partial<Product>` to it.
 */
module Catalog {
  import opened Nullable

  /** An optional field of the record is None when it is null or undefined. */
  datatype Product = Product(
    id: string,
    name: string,
    price: real,
    category: string,
    image: Option<string>,
    description: Option<string>,
    featured: bool,
    salePrice: Option<real>,
    discountPercentage: Option<real>)

  /**
    `Partial<Product>`: every key may be absent (None). A present key of an
    optional field may carry null, hence the nested Option for those.
   */
  datatype ProductPatch = ProductPatch(
    id: Option<string>,
    name: Option<string>,
    price: Option<real>,
    category: Option<string>,
    image: Option<Option<string>>,
    description: Option<Option<string>>,
    featured: Option<bool>,
    salePrice: Option<Option<real>>,
    discountPercentage: Option<Option<real>>)

  /** The empty object `{}`. */
  const NoChanges: ProductPatch :=
    ProductPatch(None, None, None, None, None, None, None, None, None)

  /** The value a key ends up with in a spread: the later object's, when it has the key. */
  function Override<T>(later: Option<T>, earlier: T): T
  {
    if later.Some? then later.value else earlier
  }

  /** `{ ...p, ...patch }`: keys present in the patch win, every other key keeps its value. */
  function Merge(p: Product, patch: ProductPatch): (r: Product)
    ensures r.id == (if patch.id.Some? then patch.id.value else p.id)
    ensures r.name == (if patch.name.Some? then patch.name.value else p.name)
    ensures r.price == (if patch.price.Some? then patch.price.value else p.price)
    ensures r.category == (if patch.category.Some? then patch.category.value else p.category)
    ensures r.image == (if patch.image.Some? then patch.image.value else p.image)
    ensures r.description == (if patch.description.Some? then patch.description.value else p.description)
    ensures r.featured == (if patch.featured.Some? then patch.featured.value else p.featured)
    ensures r.salePrice == (if patch.salePrice.Some? then patch.salePrice.value else p.salePrice)
    ensures r.discountPercentage ==
      (if patch.discountPercentage.Some? then patch.discountPercentage.value else p.discountPercentage)
  {
    Product(
      Override(patch.id, p.id),
      Override(patch.name, p.name),
      Override(patch.price, p.price),
      Override(patch.category, p.category),
      Override(patch.image, p.image),
      Override(patch.description, p.description),
      Override(patch.featured, p.featured),
      Override(patch.salePrice, p.salePrice),
      Override(patch.discountPercentage, p.discountPercentage))
  }

  /** Spreading an empty object changes nothing. */
  lemma MergeNoChanges(p: Product)
    ensures Merge(p, NoChanges) == p
  {
  }

  /** Applying the same patch a second time changes nothing more. */
  lemma MergeIdempotent(p: Product, patch: ProductPatch)
    ensures Merge(Merge(p, patch), patch) == Merge(p, patch)
  {
  }
}
