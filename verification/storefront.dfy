/**
 * The storefront's state and its event handlers (App.tsx): the merchant adds
 * and deletes products and categories, the shopper picks a product and asks
 * for a try-on. React state becomes the fields of one `App` object; each
 * handler is a method that changes only the fields its frame names.
 */
module Storefront {
  import opened Wrappers
  import opened StoreTypes
  import opened Tags
  import opened ImagePayload
  import opened TryOnService

  const MissingInputMessage: string :=
    "Por favor, asegúrate de subir tu foto y seleccionar una prenda."
  const GenericTryOnMessage: string :=
    "Error al generar la imagen. Inténtalo de nuevo."

  /** The price typed into the form: a number, or NaN when `parseFloat` could not read it. */
  datatype Price = NotANumber | Amount(value: real)

  /** `!newItem.price` is false: the price is a number other than zero. */
  predicate PriceSet(p: Price)
  {
    p.Amount? && p.value != 0.0
  }

  /** The new-product form (`newItem`, a partial product); its description may be missing. */
  datatype ItemForm = ItemForm(
    name: string,
    sku: string,
    price: Price,
    description: Option<string>,
    category: string,
    tags: seq<string>)

  const EmptyItemForm: ItemForm := ItemForm("", "", Amount(0.0), Some(""), "", [])

  /** A `string | null` state value is truthy: present and not empty. */
  predicate Present(s: Option<string>)
  {
    s.Some? && s.value != ""
  }

  /** The guard of `handleAddItem`. */
  predicate ItemFormComplete(form: ItemForm, image: Option<string>)
  {
    form.name != "" && form.sku != "" && PriceSet(form.price) && Present(image) && form.category != ""
  }

  /** What every product in the catalog satisfies. */
  predicate ValidProduct(p: Product)
  {
    p.name != "" && p.sku != "" && p.price != 0.0 && p.category != "" && p.imageUrl != "" &&
    forall t <- p.tags :: IsTag(t)
  }

  /** What every category satisfies. */
  predicate ValidCategory(c: Category)
  {
    c.name != "" && c.imageUrl != ""
  }

  /** The product `handleAddItem` builds from a complete form. */
  function NewProduct(id: string, form: ItemForm, tagsInput: string, image: Option<string>): (p: Product)
    requires ItemFormComplete(form, image)
    ensures ValidProduct(p)
    ensures p.id == id && p.tags == ParseTags(tagsInput) && p.imageUrl == image.value
    ensures p.sku == form.sku && p.name == form.name && p.price == form.price.value && p.category == form.category
    ensures form.description.Some? ==> p.description == form.description.value
    ensures form.description.None? ==> p.description == ""
  {
    Product(
      id, form.sku, form.name, form.price.value, form.category, ParseTags(tagsInput), image.value,
      if form.description.Some? then form.description.value else "")
  }

  /** The message `handleTryOn` shows for a thrown value. */
  function ErrorText(e: Thrown): (text: string)
    ensures e.Error? ==> text == e.message
    ensures e.NonError? ==> text == GenericTryOnMessage
  {
    match e
    case Error(message) => message
    case NonError => GenericTryOnMessage
  }

  function ProductId(p: Product): string { p.id }

  function CategoryId(c: Category): string { c.id }

  /** `filter(x => x.id !== id)`: the entries whose id differs, in their original order. */
  function WithoutId<T>(s: seq<T>, id: string, idOf: T -> string): (r: seq<T>)
    ensures |r| <= |s|
    ensures forall x <- r :: x in s && idOf(x) != id
    ensures forall x <- s :: idOf(x) != id ==> x in r
  {
    if s == [] then []
    else (if idOf(s[0]) == id then [] else [s[0]]) + WithoutId(s[1..], id, idOf)
  }

  /** Every kept entry is kept as often as it occurs; the others not at all. */
  lemma {:induction false} WithoutIdMultiplicity<T>(s: seq<T>, id: string, idOf: T -> string)
    ensures forall x <- s :: multiset(WithoutId(s, id, idOf))[x] == if idOf(x) == id then 0 else multiset(s)[x]
  {
    if s != [] {
      var rest := WithoutId(s[1..], id, idOf);
      WithoutIdMultiplicity(s[1..], id, idOf);
      assert s == [s[0]] + s[1..];
      forall x <- s
        ensures multiset(WithoutId(s, id, idOf))[x] == if idOf(x) == id then 0 else multiset(s)[x]
      {
        if x !in s[1..] {
          assert x !in rest;
        }
      }
    }
  }

  /** Filtering works entry by entry, so it keeps the order of what it keeps. */
  lemma {:induction false} WithoutIdAppend<T>(a: seq<T>, b: seq<T>, id: string, idOf: T -> string)
    ensures WithoutId(a + b, id, idOf) == WithoutId(a, id, idOf) + WithoutId(b, id, idOf)
  {
    if a == [] {
      assert a + b == b;
    } else {
      var ab := a + b;
      assert ab[0] == a[0] && ab[1..] == a[1..] + b;
      WithoutIdAppend(a[1..], b, id, idOf);
      var kept := if idOf(a[0]) == id then [] else [a[0]];
      calc {
        WithoutId(ab, id, idOf);
        kept + WithoutId(a[1..] + b, id, idOf);
        kept + (WithoutId(a[1..], id, idOf) + WithoutId(b, id, idOf));
        (kept + WithoutId(a[1..], id, idOf)) + WithoutId(b, id, idOf);
      }
    }
  }

  /** Deleting an id that no entry has changes nothing. */
  lemma {:induction false} WithoutAbsentId<T>(s: seq<T>, id: string, idOf: T -> string)
    requires forall x <- s :: idOf(x) != id
    ensures WithoutId(s, id, idOf) == s
  {
    if s != [] {
      assert s[0] in s;
      WithoutAbsentId(s[1..], id, idOf);
      assert s == [s[0]] + s[1..];
    }
  }

  /** Deleting the same id twice is deleting it once. */
  lemma WithoutIdIdempotent<T>(s: seq<T>, id: string, idOf: T -> string)
    ensures WithoutId(WithoutId(s, id, idOf), id, idOf) == WithoutId(s, id, idOf)
  {
    WithoutAbsentId(WithoutId(s, id, idOf), id, idOf);
  }

  /** Deleting a product just put in front of a catalog that lacked its id gives the catalog back. */
  lemma AddThenDeleteProduct(p: Product, catalog: seq<Product>)
    requires forall q <- catalog :: q.id != p.id
    ensures WithoutId([p] + catalog, p.id, ProductId) == catalog
  {
    WithoutIdAppend([p], catalog, p.id, ProductId);
    WithoutAbsentId(catalog, p.id, ProductId);
  }

  /** Deleting a category just appended to a list that lacked its id gives the list back. */
  lemma AddThenDeleteCategory(c: Category, categories: seq<Category>)
    requires forall d <- categories :: d.id != c.id
    ensures WithoutId(categories + [c], c.id, CategoryId) == categories
  {
    WithoutIdAppend(categories, [c], c.id, CategoryId);
    WithoutAbsentId(categories, c.id, CategoryId);
  }

  const InitialCategories: seq<Category> := [
    Category("c1", "Chaquetas",
      "https://images.unsplash.com/photo-1551028919-ac7eed881093?ixlib=rb-4.0.3&auto=format&fit=crop&w=500&q=80"),
    Category("c2", "Vestidos",
      "https://images.unsplash.com/photo-1595777457583-95e059d581b8?ixlib=rb-4.0.3&auto=format&fit=crop&w=500&q=80"),
    Category("c3", "Sudaderas",
      "https://images.unsplash.com/photo-1556905055-8f358a7a47b2?ixlib=rb-4.0.3&auto=format&fit=crop&w=500&q=80")
  ]

  const InitialProducts: seq<Product> := [
    Product("1", "VINT-001", "Cazadora Vaquera Vintage", 89.99, "Chaquetas",
      ["vintage", "denim", "casual", "invierno"],
      "https://images.unsplash.com/photo-1523205565295-f8e91625443b?ixlib=rb-4.0.3&auto=format&fit=crop&w=800&q=80",
      "Cazadora vaquera clásica lavada con estilo retro y corte relajado."),
    Product("2", "SMMR-DRS-02", "Vestido Floral de Verano", 45.50, "Vestidos",
      ["verano", "floral", "ligero", "playa"],
      "https://images.unsplash.com/photo-1572804013309-59a88b7e92f1?ixlib=rb-4.0.3&auto=format&fit=crop&w=800&q=80",
      "Vestido ligero de algodón con estampado floral, perfecto para días soleados."),
    Product("3", "URBN-HD-99", "Sudadera Urbana Street", 65.00, "Sudaderas",
      ["streetwear", "negro", "oversize", "algodón"],
      "https://images.unsplash.com/photo-1556905055-8f358a7a47b2?ixlib=rb-4.0.3&auto=format&fit=crop&w=800&q=80",
      "Sudadera negra oversize de estilo urbano con diseño minimalista.")
  ]

  lemma JacketTagsValid()
    ensures forall t <- ["vintage", "denim", "casual", "invierno"] :: IsTag(t)
  {
  }

  lemma DressTagsValid()
    ensures forall t <- ["verano", "floral", "ligero", "playa"] :: IsTag(t)
  {
  }

  lemma HoodieTagsValid()
    ensures forall t <- ["streetwear", "negro", "oversize", "algodón"] :: IsTag(t)
  {
  }

  /** The sample data satisfies the store's invariant. */
  lemma InitialDataValid()
    ensures forall p <- InitialProducts :: ValidProduct(p)
    ensures forall c <- InitialCategories :: ValidCategory(c)
  {
    JacketTagsValid();
    DressTagsValid();
    HoodieTagsValid();
  }

  class App {
    var role: UserRole
    var catalog: seq<Product>
    var categories: seq<Category>

    // merchant forms
    var newItem: ItemForm
    var newItemTagsInput: string
    var newItemImage: Option<string>
    var newCategoryName: string
    var newCategoryImage: Option<string>

    // shopper view
    var selectedProduct: Option<Product>
    var userPhoto: Option<string>
    var generatedImage: Option<string>
    var customInstructions: string
    var isGenerating: bool
    var error: Option<string>

    /** Every product and every category in the store is complete. */
    ghost predicate Valid()
      reads this
    {
      (forall p <- catalog :: ValidProduct(p)) && (forall c <- categories :: ValidCategory(c))
    }

    /** The initial state: the sample catalog and categories, empty forms, nothing selected. */
    constructor ()
      ensures Valid()
      ensures role == NoRole && catalog == InitialProducts && categories == InitialCategories
      ensures newItem == EmptyItemForm && newItemTagsInput == "" && newItemImage == None
      ensures newCategoryName == "" && newCategoryImage == None
      ensures selectedProduct == None && userPhoto == None && generatedImage == None
      ensures customInstructions == "" && !isGenerating && error == None
    {
      role := NoRole;
      catalog := InitialProducts;
      categories := InitialCategories;
      newItem := EmptyItemForm;
      newItemTagsInput := "";
      newItemImage := None;
      newCategoryName := "";
      newCategoryImage := None;
      selectedProduct := None;
      userPhoto := None;
      generatedImage := None;
      customInstructions := "";
      isGenerating := false;
      error := None;
      InitialDataValid();
    }

    /** `handleRoleSelect`: switch role and clear the shopper's selection, result and error. */
    method RoleSelect(selected: UserRole)
      requires Valid()
      modifies this`role, this`selectedProduct, this`generatedImage, this`error
      ensures Valid()
      ensures role == selected && selectedProduct == None && generatedImage == None && error == None
      ensures catalog == old(catalog) && categories == old(categories)
    {
      role := selected;
      selectedProduct := None;
      generatedImage := None;
      error := None;
    }

    /**
     * `handleAddItem`: with a complete form, put the new product (id `id`,
     * tags parsed from the tag field) in front of the catalog and reset the
     * form; otherwise change nothing.
     */
    method AddItem(id: string)
      requires Valid()
      modifies this`catalog, this`newItem, this`newItemTagsInput, this`newItemImage
      ensures Valid()
      ensures !ItemFormComplete(old(newItem), old(newItemImage)) ==>
        catalog == old(catalog) && newItem == old(newItem) &&
        newItemTagsInput == old(newItemTagsInput) && newItemImage == old(newItemImage)
      ensures ItemFormComplete(old(newItem), old(newItemImage)) ==>
        catalog == [NewProduct(id, old(newItem), old(newItemTagsInput), old(newItemImage))] + old(catalog) &&
        newItem == EmptyItemForm && newItemTagsInput == "" && newItemImage == None
    {
      if !ItemFormComplete(newItem, newItemImage) {
        return;
      }
      var product := NewProduct(id, newItem, newItemTagsInput, newItemImage);
      catalog := [product] + catalog;
      newItem := EmptyItemForm;
      newItemTagsInput := "";
      newItemImage := None;
    }

    /**
     * `handleAddCategory`: with a name and an image, append the category
     * (id `cat-` followed by `stamp`) and reset the form; otherwise change
     * nothing.
     */
    method AddCategory(stamp: string)
      requires Valid()
      modifies this`categories, this`newCategoryName, this`newCategoryImage
      ensures Valid()
      ensures !(old(newCategoryName) != "" && Present(old(newCategoryImage))) ==>
        categories == old(categories) &&
        newCategoryName == old(newCategoryName) && newCategoryImage == old(newCategoryImage)
      ensures old(newCategoryName) != "" && Present(old(newCategoryImage)) ==>
        categories == old(categories) + [Category("cat-" + stamp, old(newCategoryName), old(newCategoryImage).value)] &&
        newCategoryName == "" && newCategoryImage == None
    {
      if newCategoryName == "" || !Present(newCategoryImage) {
        return;
      }
      categories := categories + [Category("cat-" + stamp, newCategoryName, newCategoryImage.value)];
      newCategoryName := "";
      newCategoryImage := None;
    }

    /** `handleDeleteProduct`: drop the products with this id. */
    method DeleteProduct(id: string)
      requires Valid()
      modifies this`catalog
      ensures Valid()
      ensures catalog == WithoutId(old(catalog), id, ProductId)
    {
      catalog := WithoutId(catalog, id, ProductId);
    }

    /** `handleDeleteCategory`: drop the categories with this id; the products are untouched. */
    method DeleteCategory(id: string)
      requires Valid()
      modifies this`categories
      ensures Valid()
      ensures categories == WithoutId(old(categories), id, CategoryId)
      ensures catalog == old(catalog)
    {
      categories := WithoutId(categories, id, CategoryId);
    }

    /** A photo is uploaded and a product is selected. */
    predicate ReadyToTryOn()
      reads this
    {
      Present(userPhoto) && selectedProduct.Some?
    }

    /**
     * `handleTryOn`: without a photo or a product, show the missing-input
     * message and do nothing else; otherwise run the try-on with the photo,
     * the product's image and the instructions, and settle with the image or
     * the error message, generation no longer in progress. Returns the calls
     * made on the outside world.
     */
    method TryOn(apiKey: Option<string>, fetch: string -> FetchOutcome, generate: GenerateRequest -> CallOutcome)
      returns (effects: seq<Effect>)
      requires Valid()
      modifies this`isGenerating, this`error, this`generatedImage
      ensures Valid()
      ensures userPhoto == old(userPhoto) && selectedProduct == old(selectedProduct)
      ensures !ReadyToTryOn() ==>
        error == Some(MissingInputMessage) && effects == [] &&
        isGenerating == old(isGenerating) && generatedImage == old(generatedImage)
      ensures ReadyToTryOn() ==>
        var run := TryOnRun(apiKey, TryOnRequest(userPhoto.value, selectedProduct.value.imageUrl, customInstructions),
                            fetch, generate);
        !isGenerating && effects == run.effects &&
        (run.result.Ok? ==> generatedImage == Some(run.result.value) && error == None) &&
        (run.result.Err? ==> generatedImage == old(generatedImage) && error == Some(ErrorText(run.result.error)))
    {
      if !ReadyToTryOn() {
        error := Some(MissingInputMessage);
        return [];
      }
      isGenerating := true;
      error := None;
      var request := TryOnRequest(userPhoto.value, selectedProduct.value.imageUrl, customInstructions);
      var result;
      result, effects := GenerateTryOnImage(apiKey, request, fetch, generate);
      match result {
        case Ok(image) => generatedImage := Some(image);
        case Err(e) => error := Some(ErrorText(e));
      }
      isGenerating := false;
    }
  }
}
