/**
 * The stock screen: search, the low-stock alert, product deletion and upsert, and the
 * category list with its duplicate and in-use guards. The lists themselves belong to the
 * application (see module App); these are the list transformations its handlers apply.
 */
module Inventory {
  import opened Wrappers
  import opened Types
  import opened Text
  import opened Seqs

  predicate IsLow(p: Product)
  {
    p.stock <= p.threshold
  }

  /** `lowStockProducts`. */
  function LowStock(ps: seq<Product>): (r: seq<Product>)
    ensures forall p :: p in r <==> p in ps && p.stock <= p.threshold
    ensures IsSubsequence(r, ps)
  {
    Filter(ps, IsLow)
  }

  predicate NameMatches(p: Product, term: string)
  {
    Contains(Lower(p.name), Lower(term))
  }

  /** `filteredProducts`: the products whose lowercased name contains the lowercased term. */
  function Search(ps: seq<Product>, term: string): (r: seq<Product>)
    ensures forall p :: p in r <==> p in ps && Contains(Lower(p.name), Lower(term))
    ensures IsSubsequence(r, ps)
  {
    Filter(ps, (p: Product) => NameMatches(p, term))
  }

  /** An empty search term lists the whole catalogue. */
  lemma SearchEmptyKeepsAll(ps: seq<Product>)
    ensures Search(ps, "") == ps
  {
    forall i | 0 <= i < |ps|
      ensures NameMatches(ps[i], "")
    {
      ContainsEmpty(Lower(ps[i].name));
    }
    FilterAll(ps, (p: Product) => NameMatches(p, ""));
  }

  /** The filter of `handleDelete`. */
  function WithoutProduct(ps: seq<Product>, id: string): (r: seq<Product>)
    ensures forall p :: p in r <==> p in ps && p.id != id
    ensures forall i :: 0 <= i < |r| ==> r[i].id != id
    ensures IsSubsequence(r, ps)
  {
    Filter(ps, (p: Product) => p.id != id)
  }

  /** The fields of the product form; `hasConsigne` is the checkbox's submitted value, if any. */
  datatype ProductForm = ProductForm(
    name: string,
    price: int,
    costPrice: int,
    stock: int,
    threshold: int,
    hasConsigne: Option<string>,
    category: string)

  /** `productData`: the edited product's id (a fresh one when it is empty or when creating). */
  function ProductFromForm(editing: Option<Product>, form: ProductForm, image: Option<string>,
                           freshId: string): (r: Product)
    ensures r.id == if editing.Some? && editing.value.id != "" then editing.value.id else freshId
    ensures r.hasConsigne <==> form.hasConsigne == Some("on")
    ensures r.name == form.name && r.price == form.price && r.costPrice == form.costPrice
    ensures r.stock == form.stock && r.threshold == form.threshold
    ensures r.category == form.category && r.image == image
  {
    Product(
      if editing.Some? && editing.value.id != "" then editing.value.id else freshId,
      form.name, form.price, form.costPrice, form.stock, form.threshold,
      form.hasConsigne == Some("on"), form.category, image)
  }

  /** `handleSave`: replace the product being edited, or append the new one. */
  function SaveProduct(ps: seq<Product>, editing: Option<Product>, form: ProductForm,
                       image: Option<string>, freshId: string): (r: seq<Product>)
    ensures editing.None? ==> r == ps + [ProductFromForm(editing, form, image, freshId)]
    ensures editing.Some? ==> |r| == |ps|
    ensures editing.Some? ==> forall i :: 0 <= i < |ps| ==>
              r[i] == if ps[i].id == editing.value.id then ProductFromForm(editing, form, image, freshId)
                      else ps[i]
    ensures editing.Some? && editing.value.id != "" ==> forall i :: 0 <= i < |ps| ==> r[i].id == ps[i].id
  {
    var data := ProductFromForm(editing, form, image, freshId);
    if editing.Some? then ReplaceWhere(ps, (p: Product) => p.id == editing.value.id, data) else ps + [data]
  }

  datatype CategoryError = EmptyName | AlreadyExists | InUse

  /** `handleAddCategory`: the trimmed name, refused when empty or already listed. */
  function AddCategory(cats: seq<string>, name: string): (r: Result<seq<string>, CategoryError>)
    ensures Trim(name) == "" ==> r == Err(EmptyName)
    ensures Trim(name) != "" && Trim(name) in cats ==> r == Err(AlreadyExists)
    ensures Trim(name) != "" && Trim(name) !in cats ==> r == Ok(cats + [Trim(name)])
    ensures r.Ok? ==> r.value == cats + [Trim(name)] && multiset(r.value)[Trim(name)] == 1
    ensures r.Ok? && (forall c :: multiset(cats)[c] <= 1) ==> forall c :: multiset(r.value)[c] <= 1
  {
    var n := Trim(name);
    if n == "" then Err(EmptyName)
    else if n in cats then Err(AlreadyExists)
    else Ok(cats + [n])
  }

  predicate UsedBy(ps: seq<Product>, cat: string)
  {
    exists i :: 0 <= i < |ps| && ps[i].category == cat
  }

  /** `removeCategory`: refused while some product is in it; otherwise only that name goes. */
  function RemoveCategory(cats: seq<string>, ps: seq<Product>, cat: string): (r: Result<seq<string>, CategoryError>)
    ensures r.Err? <==> exists i :: 0 <= i < |ps| && ps[i].category == cat
    ensures r.Err? ==> r.error == InUse
    ensures r.Ok? ==> (forall c :: c in r.value <==> c in cats && c != cat) && IsSubsequence(r.value, cats)
    ensures r.Ok? && (forall c :: multiset(cats)[c] <= 1) ==> forall c :: multiset(r.value)[c] <= 1
  {
    if UsedBy(ps, cat) then Err(InUse)
    else
      FilterCounts(cats, (c: string) => c != cat);
      Ok(Filter(cats, (c: string) => c != cat))
  }
}
