/** The admin product editor (src/components/admin/ProductsManager.tsx): the mapping from a
    product row to the edit form and from the form to the data submitted, the choice between
    update and insert, the category labels and the rule for striking through an original
    price. The remote database is reduced to the request sent and a success flag. */
module ProductsManager {
  import opened Wrappers

  /** A row of the products table. */
  datatype ProductRow = ProductRow(
    id: string, name: string, description: Option<string>, price: real,
    originalPrice: Option<real>, category: string, imageUrl: Option<string>,
    rating: real, reviewCount: int, isActive: bool)

  /** The edit form's fields. */
  datatype FormData = FormData(
    name: string, description: string, price: real, originalPrice: real, category: string,
    imageUrl: string, rating: real, reviewCount: int, isActive: bool)

  /** `submitData`: the form with `original_price` replaced by null when not positive. */
  datatype SubmitData = SubmitData(
    name: string, description: string, price: real, originalPrice: Option<real>,
    category: string, imageUrl: string, rating: real, reviewCount: int, isActive: bool)

  /** The request a submit or a delete sends. */
  datatype Request = Update(id: string, data: SubmitData) | Insert(data: SubmitData) | Delete(id: string)

  /** The form's initial value and the value `resetForm` restores. */
  const EmptyForm: FormData := FormData("", "", 0.0, 0.0, "", "", 0.0, 0, true)

  /** `x || ''` on a nullable string. */
  function OrEmpty(s: Option<string>): string
  {
    if s.Some? then s.value else ""
  }

  /** `x || 0` on a nullable number. */
  function OrZero(x: Option<real>): real
  {
    if x.Some? then x.value else 0.0
  }

  /** The form `openEditDialog(product)` fills in. */
  function FormOf(p: ProductRow): (f: FormData)
    ensures f.name == p.name && f.price == p.price && f.category == p.category
    ensures f.rating == p.rating && f.reviewCount == p.reviewCount && f.isActive == p.isActive
    ensures f.description == (if p.description.Some? then p.description.value else "")
    ensures f.imageUrl == (if p.imageUrl.Some? then p.imageUrl.value else "")
    ensures f.originalPrice == (if p.originalPrice.Some? then p.originalPrice.value else 0.0)
  {
    FormData(p.name, OrEmpty(p.description), p.price, OrZero(p.originalPrice), p.category,
      OrEmpty(p.imageUrl), p.rating, p.reviewCount, p.isActive)
  }

  /** `submitData` built from the form. */
  function Submitted(f: FormData): (d: SubmitData)
    ensures d.originalPrice.Some? <==> f.originalPrice > 0.0
    ensures d.originalPrice.Some? ==> d.originalPrice.value == f.originalPrice
    ensures d.name == f.name && d.description == f.description && d.price == f.price
    ensures d.category == f.category && d.imageUrl == f.imageUrl && d.rating == f.rating
    ensures d.reviewCount == f.reviewCount && d.isActive == f.isActive
  {
    SubmitData(f.name, f.description, f.price, if f.originalPrice > 0.0 then Some(f.originalPrice) else None,
      f.category, f.imageUrl, f.rating, f.reviewCount, f.isActive)
  }

  /** Opening a row for editing and submitting it unchanged keeps every field; the original
      price survives when it is null or positive (a zero or negative one becomes null), and
      a null description or image URL becomes the empty string. */
  lemma EditRoundTrip(p: ProductRow)
    ensures Submitted(FormOf(p)).originalPrice
      == if p.originalPrice.Some? && p.originalPrice.value > 0.0 then p.originalPrice else None
    ensures p.originalPrice.None? || p.originalPrice.value > 0.0 ==> Submitted(FormOf(p)).originalPrice == p.originalPrice
    ensures Submitted(FormOf(p)).description == OrEmpty(p.description)
    ensures Submitted(FormOf(p)).imageUrl == OrEmpty(p.imageUrl)
    ensures Submitted(FormOf(p)).name == p.name && Submitted(FormOf(p)).price == p.price
  {
  }

  // ------------------------------------------------------------------ categories

  datatype Category = Category(value: string, caption: string)

  const Categories: seq<Category> := [
    Category("dermato-cosmetice", "Dermato-Cosmetice"),
    Category("suplimente", "Suplimente"),
    Category("vouchere", "Vouchere Cadou")
  ]

  /** `CATEGORIES.find(cat => cat.value === category)?.label || category`. */
  function CategoryLabel(categories: seq<Category>, category: string): (r: string)
    ensures (forall i :: 0 <= i < |categories| ==> categories[i].value != category) ==> r == category
    ensures r == category || exists i :: 0 <= i < |categories| && categories[i].value == category && categories[i].caption == r
    ensures forall i :: (0 <= i < |categories| && categories[i].value == category && categories[i].caption != ""
      && (forall j :: 0 <= j < i ==> categories[j].value != category)) ==> r == categories[i].caption
  {
    if categories == [] then category
    else if categories[0].value == category then (if categories[0].caption != "" then categories[0].caption else category)
    else CategoryLabel(categories[1..], category)
  }

  /** The three known categories get their labels; any other value is shown as it is. */
  lemma CategoryLabels(category: string)
    ensures CategoryLabel(Categories, "dermato-cosmetice") == "Dermato-Cosmetice"
    ensures CategoryLabel(Categories, "suplimente") == "Suplimente"
    ensures CategoryLabel(Categories, "vouchere") == "Vouchere Cadou"
    ensures category !in {"dermato-cosmetice", "suplimente", "vouchere"} ==> CategoryLabel(Categories, category) == category
  {
  }

  // ------------------------------------------------------------------ strikethrough

  /** `product.original_price && product.original_price > product.price`: non-null,
      non-zero and above the price. */
  predicate ShowsOriginalPrice(p: ProductRow)
  {
    p.originalPrice.Some? && p.originalPrice.value != 0.0 && p.originalPrice.value > p.price
  }

  /** For a row stored from a submitted form with a non-negative price, the old price is
      struck through exactly when the form's original price exceeds the price. */
  lemma StrikethroughOfSubmitted(id: string, f: FormData)
    requires f.price >= 0.0
    ensures ShowsOriginalPrice(StoredRow(id, Submitted(f))) <==> f.originalPrice > f.price
  {
  }

  /** The row the database holds after storing `d` under `id`. */
  function StoredRow(id: string, d: SubmitData): (p: ProductRow)
    ensures p.id == id && p.originalPrice == d.originalPrice && p.price == d.price
    ensures p.description == Some(d.description) && p.imageUrl == Some(d.imageUrl)
  {
    ProductRow(id, d.name, Some(d.description), d.price, d.originalPrice, d.category,
      Some(d.imageUrl), d.rating, d.reviewCount, d.isActive)
  }

  // ------------------------------------------------------------------ editor state

  class ProductsEditor {
    var products: seq<ProductRow>
    var loading: bool
    var isDialogOpen: bool
    var editingProduct: Option<ProductRow>
    var formData: FormData

    constructor ()
      ensures products == [] && loading && !isDialogOpen && editingProduct == None && formData == EmptyForm
    {
      products := [];
      loading := true;
      isDialogOpen := false;
      editingProduct := None;
      formData := EmptyForm;
    }

    /** `fetchProducts` with the query's outcome as a parameter: `Some(rows)` on success
        (`None` standing for a null `data`), nothing on an error. */
    method FetchProducts(outcome: Option<Option<seq<ProductRow>>>)
      modifies this`products, this`loading
      ensures outcome.Some? ==> products == (if outcome.value.Some? then outcome.value.value else [])
      ensures outcome.None? ==> products == old(products)
      ensures !loading
    {
      if outcome.Some? {
        products := if outcome.value.Some? then outcome.value.value else [];
      }
      loading := false;
    }

    /** `resetForm`. */
    method ResetForm()
      modifies this`formData, this`editingProduct
      ensures formData == EmptyForm && editingProduct == None
    {
      formData := EmptyForm;
      editingProduct := None;
    }

    /** `openEditDialog(product)`. */
    method OpenEditDialog(product: ProductRow)
      modifies this`formData, this`editingProduct, this`isDialogOpen
      ensures editingProduct == Some(product) && formData == FormOf(product) && isDialogOpen
    {
      editingProduct := Some(product);
      formData := FormOf(product);
      isDialogOpen := true;
    }

    /** The request `handleSubmit` sends: an update of the row being edited, or an insert. */
    function SubmitRequest(): (r: Request)
      reads this
      ensures r.Update? <==> editingProduct.Some?
      ensures r.Update? ==> r.id == editingProduct.value.id && r.data == Submitted(formData)
      ensures r.Insert? ==> r.data == Submitted(formData)
    {
      if editingProduct.Some? then Update(editingProduct.value.id, Submitted(formData))
      else Insert(Submitted(formData))
    }

    /** `handleSubmit` with the database's answer as `remoteOk`: on success the dialog is
        closed and the form reset (the refetch is a separate `FetchProducts`); on failure
        only a toast is shown and the dialog, the form and the edited row stay. */
    method HandleSubmit(remoteOk: bool) returns (sent: Request)
      modifies this`isDialogOpen, this`formData, this`editingProduct
      ensures sent == old(SubmitRequest())
      ensures remoteOk ==> !isDialogOpen && formData == EmptyForm && editingProduct == None
      ensures !remoteOk ==> (isDialogOpen == old(isDialogOpen) && formData == old(formData)
        && editingProduct == old(editingProduct))
    {
      sent := SubmitRequest();
      if remoteOk {
        isDialogOpen := false;
        ResetForm();
      }
    }

    /** `handleDelete(id)`: sends the delete; the list only changes through the refetch. */
    method HandleDelete(id: string) returns (sent: Request)
      ensures sent == Delete(id)
    {
      sent := Delete(id);
    }
  }
}
