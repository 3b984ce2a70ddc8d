/**
  The admin product manager: a form with its own state (`isAdding`,
  `editingId`, `formData`, `loading`) whose submit and delete handlers call
  the backend's products table and, on success, the admin page's callbacks.
 */
module Manager {
  import opened Nullable
  import opened Catalog
  import Admin

  /** The five category choices offered by the form's select. */
  function Categories(): (cs: seq<string>)
    ensures |cs| == 5
    ensures forall i, j :: 0 <= i < j < |cs| ==> cs[i] != cs[j]
    ensures forall c :: c in cs <==> c in {"TOPS", "SHORTS", "TSHIRTS", "JACKETS", "SETS"}
  {
    ["TOPS", "SHORTS", "TSHIRTS", "JACKETS", "SETS"]
  }

  /**
    The form's fields. The price input is a number input: its text is either
    empty (None) or the text of a number (Some), and parsing that text back
    gives the number.
   */
  datatype FormData = FormData(
    name: string,
    price: Option<real>,
    category: string,
    image: string,
    description: string,
    featured: bool)

  /** The form as `resetForm` leaves it. */
  const EmptyForm: FormData := FormData("", None, "", "", "", false)

  /** The `productData` object built by the submit handler. */
  datatype ProductData = ProductData(
    name: string,
    price: real,
    category: string,
    image: Option<string>,
    description: Option<string>,
    featured: bool)

  /** `product.x || ""` for the optional text fields. */
  function EmptyIfNull(o: Option<string>): (s: string)
    ensures s == "" <==> o.None? || o.value == ""
    ensures o.Some? ==> s == o.value
  {
    if o.Some? then o.value else ""
  }

  /** The submit handler's form-to-record mapping. */
  function ToProductData(f: FormData): (d: ProductData)
    requires f.price.Some?
    ensures d.name == f.name && d.price == f.price.value && d.category == f.category
    ensures d.featured == f.featured
    ensures d.image.None? <==> f.image == ""
    ensures d.description.None? <==> f.description == ""
    ensures d.image.Some? ==> d.image.value == f.image
    ensures d.description.Some? ==> d.description.value == f.description
  {
    ProductData(f.name, f.price.value, f.category, NullIfEmpty(f.image), NullIfEmpty(f.description), f.featured)
  }

  /** The form `startEdit` fills in from a product. */
  function FormOf(p: Product): (f: FormData)
    ensures f.name == p.name && f.category == p.category && f.featured == p.featured
    ensures f.price == Some(p.price)
    ensures f.image == "" <==> p.image.None? || p.image.value == ""
    ensures f.description == "" <==> p.description.None? || p.description.value == ""
    ensures p.image.Some? ==> f.image == p.image.value
    ensures p.description.Some? ==> f.description == p.description.value
  {
    FormData(p.name, Some(p.price), p.category, EmptyIfNull(p.image), EmptyIfNull(p.description), p.featured)
  }

  /** `productData` passed to `onUpdateProduct`: the six form keys, nothing else. */
  function AsPatch(d: ProductData): (patch: ProductPatch)
    ensures forall p: Product ::
              Merge(p, patch) == Product(p.id, d.name, d.price, d.category, d.image, d.description, d.featured, p.salePrice, p.discountPercentage)
  {
    ProductPatch(None, Some(d.name), Some(d.price), Some(d.category), Some(d.image), Some(d.description),
                 Some(d.featured), None, None)
  }

  /** `{ ...productData, id: data.id }` passed to `onAddProduct`. */
  function AsProduct(d: ProductData, id: string): (p: Product)
    ensures p.id == id
    ensures p.name == d.name && p.price == d.price && p.category == d.category
    ensures p.image == d.image && p.description == d.description && p.featured == d.featured
    ensures p.salePrice.None? && p.discountPercentage.None?
  {
    Product(id, d.name, d.price, d.category, d.image, d.description, d.featured, None, None)
  }

  /**
    Loading a product into the form and submitting it unchanged gives back
    its fields, provided it has no empty-string image or description (those
    come back as null).
   */
  lemma EditRoundTrip(p: Product)
    requires p.image != Some("") && p.description != Some("")
    ensures ToProductData(FormOf(p)) == ProductData(p.name, p.price, p.category, p.image, p.description, p.featured)
  {
  }

  /** Saving an edited product without touching the form leaves its entry in the admin list as it was. */
  lemma UnchangedEditIsNoOp(products: seq<Product>, p: Product)
    requires p.image != Some("") && p.description != Some("")
    requires forall i :: 0 <= i < |products| && products[i].id == p.id ==> products[i] == p
    ensures Admin.Updated(products, p.id, AsPatch(ToProductData(FormOf(p)))) == products
  {
    EditRoundTrip(p);
    var r := Admin.Updated(products, p.id, AsPatch(ToProductData(FormOf(p))));
    forall i | 0 <= i < |products|
      ensures r[i] == products[i]
    {
    }
  }

  /** A backend reply: success with the id of the inserted row (unused by update and delete), or an error message. */
  datatype Reply = Ok(rowId: string) | Err(message: string)

  /** A call on the backend's products table. */
  datatype Request = UpdateRow(id: string, data: ProductData) | InsertRow(data: ProductData) | DeleteRow(id: string)

  /** What the handlers do that is visible outside the component state: loading changes, backend calls, toasts. */
  datatype Event = LoadingChanged(on: bool) | Sent(request: Request) | Notified(success: bool, message: string)

  /** `if (editingId)`: null and the empty string both choose the insert path. */
  predicate Editing(editingId: Option<string>): (b: bool)
    ensures b <==> editingId != None && editingId != Some("")
  {
    editingId.Some? && editingId.value != ""
  }

  /** `error.message || "An error occurred"`. */
  function ErrorText(message: string): (t: string)
    ensures t != ""
    ensures message != "" ==> t == message
    ensures message == "" ==> t == "An error occurred"
  {
    if message == "" then "An error occurred" else message
  }

  /** The events of one submit. */
  function SubmitEvents(editingId: Option<string>, d: ProductData, reply: Reply): (es: seq<Event>)
    ensures |es| == 4 && es[0] == LoadingChanged(true) && es[3] == LoadingChanged(false)
    ensures es[2].Notified? && (es[2].success <==> reply.Ok?)
    ensures reply.Err? ==> es[2].message == ErrorText(reply.message)
  {
    var request := if Editing(editingId) then UpdateRow(editingId.value, d) else InsertRow(d);
    var notice :=
      if reply.Err? then Notified(false, ErrorText(reply.message))
      else if Editing(editingId) then Notified(true, "Product updated successfully!")
      else Notified(true, "Product added successfully!");
    [LoadingChanged(true), Sent(request), notice, LoadingChanged(false)]
  }

  /** The events of one delete click; nothing at all when the confirmation is declined. */
  function DeleteEvents(id: string, confirmed: bool, reply: Reply): (es: seq<Event>)
    ensures es == [] <==> !confirmed
    ensures confirmed ==> |es| == 4 && es[1] == Sent(DeleteRow(id)) && es[3] == LoadingChanged(false)
    ensures confirmed ==> es[2].Notified? && (es[2].success <==> reply.Ok?)
  {
    if !confirmed then []
    else
      var notice := if reply.Err? then Notified(false, ErrorText(reply.message))
                    else Notified(true, "Product deleted successfully!");
      [LoadingChanged(true), Sent(DeleteRow(id)), notice, LoadingChanged(false)]
  }

  /** True when the only backend call in `es` is issued after loading is switched on and before it is switched off. */
  predicate LoadingCoversRequest(es: seq<Event>)
  {
    && |es| >= 3
    && es[0] == LoadingChanged(true)
    && es[|es| - 1] == LoadingChanged(false)
    && (forall i :: 0 <= i < |es| && es[i].Sent? ==> 0 < i < |es| - 1)
    && (forall i, j :: 0 <= i < j < |es| && es[i].Sent? && es[j].Sent? ==> false)
  }

  /** A submit sends exactly one request, the update when editing and the insert otherwise, inside the loading window. */
  lemma SubmitSendsOneRequest(editingId: Option<string>, d: ProductData, reply: Reply)
    ensures LoadingCoversRequest(SubmitEvents(editingId, d, reply))
    ensures Editing(editingId) ==> Sent(UpdateRow(editingId.value, d)) in SubmitEvents(editingId, d, reply)
    ensures Sent(InsertRow(d)) in SubmitEvents(editingId, d, reply) <==> !Editing(editingId)
  {
    var es := SubmitEvents(editingId, d, reply);
    assert es[1].Sent? && !es[0].Sent? && !es[2].Sent? && !es[3].Sent?;
  }

  /** A declined confirmation sends nothing; an accepted one sends exactly the delete, inside the loading window. */
  lemma DeleteGate(id: string, confirmed: bool, reply: Reply)
    ensures !confirmed <==> DeleteEvents(id, confirmed, reply) == []
    ensures confirmed ==> LoadingCoversRequest(DeleteEvents(id, confirmed, reply))
    ensures confirmed ==> Sent(DeleteRow(id)) in DeleteEvents(id, confirmed, reply)
  {
    if confirmed {
      var es := DeleteEvents(id, confirmed, reply);
      assert es[1].Sent? && !es[0].Sent? && !es[2].Sent? && !es[3].Sent?;
    }
  }

  /**
    A successful insert leaves the admin list with an entry under the id
    the admin page generates, not the id the backend returned, whenever the
    two differ.
   */
  lemma InsertedEntryLosesRowId(products: seq<Product>, d: ProductData, rowId: string, now: string)
    requires rowId != now
    ensures var r := Admin.Added(products, AsProduct(d, rowId), now);
      r[|r| - 1].id == now && r[|r| - 1].id != rowId
  {
  }

  /** The component. `admin` stands for the callbacks its parent page passes in. */
  class ProductManager {
    var isAdding: bool
    var editingId: Option<string>
    var formData: FormData
    var loading: bool
    var log: seq<Event>
    const admin: Admin.AdminPage

    constructor (admin: Admin.AdminPage)
      ensures this.admin == admin
      ensures !isAdding && editingId == None && formData == EmptyForm && !loading && log == []
    {
      this.admin := admin;
      isAdding := false;
      editingId := None;
      formData := EmptyForm;
      loading := false;
      log := [];
    }

    /** The "Add Product" button. */
    method OpenForm()
      modifies this
      ensures isAdding
      ensures editingId == old(editingId) && formData == old(formData)
      ensures loading == old(loading) && log == old(log)
    {
      isAdding := true;
    }

    /** Typing into, toggling or choosing in one of the form's inputs replaces the form. */
    method ChangeForm(f: FormData)
      modifies this
      ensures formData == f
      ensures isAdding == old(isAdding) && editingId == old(editingId)
      ensures loading == old(loading) && log == old(log)
    {
      formData := f;
    }

    method ResetForm()
      modifies this
      ensures formData == EmptyForm && !isAdding && editingId == None
      ensures loading == old(loading) && log == old(log)
    {
      formData := EmptyForm;
      isAdding := false;
      editingId := None;
    }

    method StartEdit(p: Product)
      modifies this
      ensures editingId == Some(p.id) && isAdding && formData == FormOf(p)
      ensures loading == old(loading) && log == old(log)
    {
      editingId := Some(p.id);
      formData := FormData(p.name, Some(p.price), p.category, EmptyIfNull(p.image), EmptyIfNull(p.description), p.featured);
      isAdding := true;
    }

    /**
      The form's submit handler, with the backend's reply and the clock
      reading the admin page takes as a new id. The browser fires it only
      once the required price input holds a number.
     */
    method HandleSubmit(reply: Reply, now: string)
      requires formData.price.Some?
      modifies this, admin
      ensures !loading
      ensures log == old(log) + SubmitEvents(old(editingId), ToProductData(old(formData)), reply)
      ensures admin.products ==
        if reply.Err? then old(admin.products)
        else if Editing(old(editingId)) then
          Admin.Updated(old(admin.products), old(editingId).value, AsPatch(ToProductData(old(formData))))
        else Admin.Added(old(admin.products), AsProduct(ToProductData(old(formData)), reply.rowId), now)
      ensures reply.Ok? ==> formData == EmptyForm && !isAdding && editingId == None
      ensures reply.Err? ==>
        formData == old(formData) && isAdding == old(isAdding) && editingId == old(editingId)
    {
      loading := true;
      log := log + [LoadingChanged(true)];
      var productData := ToProductData(formData);
      if editingId.Some? && editingId.value != "" {
        log := log + [Sent(UpdateRow(editingId.value, productData))];
        if reply.Err? {
          log := log + [Notified(false, ErrorText(reply.message))];
        } else {
          admin.UpdateProduct(editingId.value, AsPatch(productData));
          log := log + [Notified(true, "Product updated successfully!")];
          ResetForm();
        }
      } else {
        log := log + [Sent(InsertRow(productData))];
        if reply.Err? {
          log := log + [Notified(false, ErrorText(reply.message))];
        } else {
          admin.AddProduct(AsProduct(productData, reply.rowId), now);
          log := log + [Notified(true, "Product added successfully!")];
          ResetForm();
        }
      }
      loading := false;
      log := log + [LoadingChanged(false)];
    }

    /** A delete click, with the answer to the confirmation dialog and the backend's reply. */
    method HandleDelete(id: string, confirmed: bool, reply: Reply)
      modifies this, admin
      ensures log == old(log) + DeleteEvents(id, confirmed, reply)
      ensures !confirmed ==> unchanged(this) && unchanged(admin)
      ensures confirmed ==> !loading
      ensures admin.products ==
        if confirmed && reply.Ok? then Admin.Deleted(old(admin.products), id) else old(admin.products)
      ensures formData == old(formData) && isAdding == old(isAdding) && editingId == old(editingId)
    {
      if !confirmed {
        return;
      }
      loading := true;
      log := log + [LoadingChanged(true), Sent(DeleteRow(id))];
      if reply.Err? {
        log := log + [Notified(false, ErrorText(reply.message))];
      } else {
        admin.DeleteProduct(id);
        log := log + [Notified(true, "Product deleted successfully!")];
      }
      loading := false;
      log := log + [LoadingChanged(false)];
    }
  }
}
