/** The admin form for a new product: the product fields, an editable list
    of variants and an editable list of images (add a row, remove the row at
    an index, change one field of the row at an index), and the payload the
    form submits, which leaves out the incomplete rows. The page calls
    `useEffect` without importing it, so as shipped it throws on its first
    render; the model gives the handlers as they run once that import is present. */
module AdminNewProduct {
  import opened Common

  /** A variant row; `price` is None while it holds the initial "". */
  datatype FormVariant = FormVariant(size: string, color: string, stock: int, sku: string, price: Option<real>)

  datatype FormImage = FormImage(url: string, alt: string, position: int)

  /** The text inputs and check boxes of the product itself. */
  datatype FormData = FormData(name: string, description: string, price: string, salePrice: string, sku: string,
                               categoryId: string, isFeatured: bool, isActive: bool)

  /** `handleInputChange(field, value)`: one field and its new value. */
  datatype InputEdit =
    | SetName(name: string) | SetDescription(description: string) | SetPrice(price: string)
    | SetSalePrice(salePrice: string) | SetSku(sku: string) | SetCategory(categoryId: string)
    | SetFeatured(isFeatured: bool) | SetActive(isActive: bool)

  /** `handleVariantChange(index, field, value)`: one field and its new value.
      The handler accepts a price, but the form renders inputs only for size,
      colour, stock and SKU, so the page never issues `SetVariantPrice` and a
      variant is always submitted with its blank price ("", modelled as `None`). */
  datatype VariantEdit =
    | SetSize(size: string) | SetColor(color: string) | SetStock(stock: int) | SetVariantSku(sku: string)
    | SetVariantPrice(price: Option<real>)

  /** `handleImageChange(index, field, value)`: one field and its new value. */
  datatype ImageEdit = SetUrl(url: string) | SetAlt(alt: string) | SetPosition(position: int)

  const InitialFormData: FormData := FormData("", "", "", "", "", "", false, true)
  const BlankVariant: FormVariant := FormVariant("", "", 0, "", None)

  function BlankImage(position: int): FormImage { FormImage("", "", position) }

  function ApplyInput(f: FormData, e: InputEdit): FormData
  {
    match e
    case SetName(v) => f.(name := v)
    case SetDescription(v) => f.(description := v)
    case SetPrice(v) => f.(price := v)
    case SetSalePrice(v) => f.(salePrice := v)
    case SetSku(v) => f.(sku := v)
    case SetCategory(v) => f.(categoryId := v)
    case SetFeatured(v) => f.(isFeatured := v)
    case SetActive(v) => f.(isActive := v)
  }

  function ApplyToVariant(v: FormVariant, e: VariantEdit): FormVariant
  {
    match e
    case SetSize(x) => v.(size := x)
    case SetColor(x) => v.(color := x)
    case SetStock(x) => v.(stock := x)
    case SetVariantSku(x) => v.(sku := x)
    case SetVariantPrice(x) => v.(price := x)
  }

  function ApplyToImage(img: FormImage, e: ImageEdit): FormImage
  {
    match e
    case SetUrl(x) => img.(url := x)
    case SetAlt(x) => img.(alt := x)
    case SetPosition(x) => img.(position := x)
  }

  // ---------------------------------------------------------------------
  // Removing a row

  /** `list.filter((_, i) => i !== index)`. */
  function Without<T>(s: seq<T>, index: int): seq<T>
  {
    if s == [] then [] else (if index == 0 then [] else [s[0]]) + Without(s[1..], index - 1)
  }

  /** Removing at an index in range drops exactly that row and keeps the
      others in order; an index out of range changes nothing. */
  lemma {:induction false} WithoutIsSplice<T>(s: seq<T>, index: int)
    ensures 0 <= index < |s| ==> Without(s, index) == s[..index] + s[index + 1..]
    ensures !(0 <= index < |s|) ==> Without(s, index) == s
  {
    if s != [] {
      WithoutIsSplice(s[1..], index - 1);
      if index > 0 && index < |s| {
        assert s[..index] == [s[0]] + s[1..][..index - 1];
        assert s[index + 1..] == s[1..][index..];
      }
    }
  }

  /** The remove buttons show only while a list has more than one row, so
      removing through them never empties the list. */
  lemma RemoveButtonKeepsARow<T>(s: seq<T>, index: int)
    requires |s| > 1 && 0 <= index < |s|
    ensures |Without(s, index)| == |s| - 1 >= 1
  {
    WithoutIsSplice(s, index);
  }

  // ---------------------------------------------------------------------
  // Image positions

  /** Every image's position is its index in the list. */
  predicate PositionsAreIndices(images: seq<FormImage>)
  {
    forall i :: 0 <= i < |images| ==> images[i].position == i
  }

  /** Adding an image keeps positions equal to indices. */
  lemma AddImageKeepsPositions(images: seq<FormImage>)
    requires PositionsAreIndices(images)
    ensures PositionsAreIndices(images + [BlankImage(|images|)])
  {
  }

  /** Removing any image but the last leaves the later positions one too
      high: the submitted positions need not match the order (the products
      endpoint ignores them and numbers the images itself). */
  lemma RemoveImageShiftsPositions(images: seq<FormImage>, index: int)
    requires PositionsAreIndices(images) && 0 <= index < |images| - 1
    ensures !PositionsAreIndices(Without(images, index))
  {
    WithoutIsSplice(images, index);
    var r := Without(images, index);
    assert r[index] == images[index + 1];
  }

  // ---------------------------------------------------------------------
  // The form

  class NewProductForm {
    var formData: FormData
    var variants: seq<FormVariant>
    var images: seq<FormImage>

    /** One blank variant row and one blank image row at position 0. */
    constructor ()
      ensures formData == InitialFormData && variants == [BlankVariant] && images == [BlankImage(0)]
    {
      formData := InitialFormData;
      variants := [BlankVariant];
      images := [BlankImage(0)];
    }

    method ChangeInput(e: InputEdit)
      modifies this`formData
      ensures formData == ApplyInput(old(formData), e)
    {
      formData := ApplyInput(formData, e);
    }

    /** `handleVariantChange`: the form calls it with the index of a shown row. */
    method ChangeVariant(index: nat, e: VariantEdit)
      requires index < |variants|
      modifies this`variants
      ensures variants == old(variants)[index := ApplyToVariant(old(variants)[index], e)]
    {
      variants := variants[index := ApplyToVariant(variants[index], e)];
    }

    method AddVariant()
      modifies this`variants
      ensures variants == old(variants) + [BlankVariant]
    {
      variants := variants + [BlankVariant];
    }

    method RemoveVariant(index: int)
      modifies this`variants
      ensures variants == Without(old(variants), index)
    {
      variants := Without(variants, index);
    }

    /** `handleImageChange`: the form calls it with the index of a shown row. */
    method ChangeImage(index: nat, e: ImageEdit)
      requires index < |images|
      modifies this`images
      ensures images == old(images)[index := ApplyToImage(old(images)[index], e)]
    {
      images := images[index := ApplyToImage(images[index], e)];
    }

    /** `addImage`: the new row's position is the number of rows before it. */
    method AddImage()
      modifies this`images
      ensures images == old(images) + [BlankImage(|old(images)|)]
    {
      images := images + [BlankImage(|images|)];
    }

    method RemoveImage(index: int)
      modifies this`images
      ensures images == Without(old(images), index)
    {
      images := Without(images, index);
    }
  }

  /** Changing a row touches only the edited field of that row. */
  lemma ChangeTouchesOneField(vs: seq<FormVariant>, index: nat, e: VariantEdit)
    requires index < |vs|
    ensures var r := vs[index := ApplyToVariant(vs[index], e)];
      && |r| == |vs| && (forall i :: 0 <= i < |vs| && i != index ==> r[i] == vs[i])
      && (!e.SetSize? ==> r[index].size == vs[index].size)
      && (!e.SetColor? ==> r[index].color == vs[index].color)
      && (!e.SetStock? ==> r[index].stock == vs[index].stock)
      && (!e.SetVariantSku? ==> r[index].sku == vs[index].sku)
      && (!e.SetVariantPrice? ==> r[index].price == vs[index].price)
  {
  }

  // ---------------------------------------------------------------------
  // The payload

  datatype Payload = Payload(name: string, description: string, price: real, salePrice: Option<real>, sku: string,
                             categoryId: string, isFeatured: bool, isActive: bool,
                             variants: seq<FormVariant>, images: seq<FormImage>)

  predicate Complete(v: FormVariant) { v.sku != "" && v.stock > 0 }

  function CompleteTest(): FormVariant -> bool { (v: FormVariant) => Complete(v) }

  predicate HasUrl(img: FormImage) { img.url != "" }

  function HasUrlTest(): FormImage -> bool { (img: FormImage) => HasUrl(img) }

  /** The variants sent: those with an SKU and a positive stock, in order. */
  function PayloadVariants(vs: seq<FormVariant>): (r: seq<FormVariant>)
    ensures forall v :: v in r <==> v in vs && v.sku != "" && v.stock > 0
    ensures IsSubseq(r, vs)
  {
    FilterIsSubseq(vs, CompleteTest());
    Filter(vs, CompleteTest())
  }

  /** The images sent: those with a URL, in order. */
  function PayloadImages(images: seq<FormImage>): (r: seq<FormImage>)
    ensures forall img :: img in r <==> img in images && img.url != ""
    ensures IsSubseq(r, images)
  {
    FilterIsSubseq(images, HasUrlTest());
    Filter(images, HasUrlTest())
  }

  /** `handleSubmit`'s payload; `parse` stands for `parseFloat`. A blank sale
      price is left out. */
  function MakePayload(f: FormData, vs: seq<FormVariant>, images: seq<FormImage>, parse: string -> real): (p: Payload)
    ensures p.salePrice.None? <==> f.salePrice == ""
    ensures p.salePrice.Some? ==> p.salePrice.value == parse(f.salePrice)
    ensures p.price == parse(f.price) && p.name == f.name && p.sku == f.sku && p.isActive == f.isActive
  {
    Payload(f.name, f.description, parse(f.price), if f.salePrice != "" then Some(parse(f.salePrice)) else None,
            f.sku, f.categoryId, f.isFeatured, f.isActive, PayloadVariants(vs), PayloadImages(images))
  }

  /** The untouched form submits no variant and no image. */
  lemma BlankRowsAreNotSent(parse: string -> real)
    ensures MakePayload(InitialFormData, [BlankVariant], [BlankImage(0)], parse).variants == []
    ensures MakePayload(InitialFormData, [BlankVariant], [BlankImage(0)], parse).images == []
  {
    FilterKeepsNone([BlankVariant], CompleteTest());
    FilterKeepsNone([BlankImage(0)], HasUrlTest());
  }
}
