/** The product card (`src/components/ProductCard.tsx`): the line its quick-add button puts in
    the cart, and how many colour swatches and size chips it shows. */
module ProductCard {
  import opened Wrappers
  import opened CartLines

  datatype ColorOption = ColorOption(id: int, nombre: string, codigoHex: string)
  datatype SizeOption = SizeOption(id: int, nombre: string)

  /** The card's props that the logic reads; `tallas` is optional. */
  datatype CardProps = CardProps(
    id: int, nombre: string, precio: real, colores: seq<ColorOption>, tallas: Option<seq<SizeOption>>)

  /** `agregarAlCarrito`'s item: a placeholder variant `id * 100`, size "Única", the first
      colour or "Estándar" / "#000000", one unit. */
  function QuickAddItem(p: CardProps): CartItem
  {
    CartItem(
      p.id * 100, p.id, p.nombre, p.precio, "Única",
      if |p.colores| > 0 then p.colores[0].nombre else "Estándar",
      if |p.colores| > 0 then p.colores[0].codigoHex else "#000000",
      1)
  }

  /** The quick-add line is a valid cart line of the card's product: one unit, the card's
      name and price, and a variant id that only this product's quick-add produces. */
  lemma QuickAddItemSpec(p: CardProps, q: CardProps)
    ensures var item := QuickAddItem(p);
      item.productId == p.id && item.cantidad == 1 && item.nombre == p.nombre && item.precio == p.precio
      && item.talla == "Única" && item.variantId == 100 * p.id
      && (p.colores == [] ==> item.color == "Estándar" && item.colorHex == "#000000")
      && (p.colores != [] ==> item.color == p.colores[0].nombre && item.colorHex == p.colores[0].codigoHex)
    ensures QuickAddItem(p).variantId == QuickAddItem(q).variantId <==> p.id == q.id
  {
  }

  /** Quick-adding the same card twice to a cart without that line gives one new last line
      with two units, because the variant id is fixed by the product id. */
  lemma QuickAddTwice(lines: seq<CartItem>, p: CardProps)
    requires !HasVariant(lines, p.id * 100)
    ensures var item := QuickAddItem(p);
      AddLine(AddLine(lines, item), item) == lines + [item.(cantidad := 2)]
  {
    var item := QuickAddItem(p);
    var once := AddLine(lines, item);
    assert once == lines + [item];
    HasVariantAppend(lines, item, item.variantId);
    var i := FindIndex(once, item.variantId);
    HasVariantIff(lines, item.variantId);
    assert i == |lines|;
    var twice := AddLine(once, item);
    assert |twice| == |lines| + 1;
    assert forall k :: 0 <= k < |lines| ==> twice[k] == lines[k];
    assert twice[|lines|] == item.(cantidad := 2);
  }

  /** How a list of `n` entries is shown with at most `limit` of them: the entries shown and
      the "+k" badge, if any. */
  function Shown(n: nat, limit: nat): (r: (nat, Option<nat>))
    ensures r.0 <= limit && r.0 <= n
    ensures r.1.Some? <==> n > limit
    ensures r.0 + r.1.GetOr(0) == n
  {
    if n > limit then (limit, Some(n - limit)) else (n, None)
  }

  /** The colour swatches: nothing at all without colours, else `slice(0, 4)` and `+(n - 4)`. */
  function Swatches(p: CardProps): (r: Option<(nat, Option<nat>)>)
    ensures r.None? <==> p.colores == []
    ensures r.Some? ==> r.value.0 == (if |p.colores| < 4 then |p.colores| else 4)
    ensures r.Some? ==> r.value.0 + r.value.1.GetOr(0) == |p.colores|
  {
    if |p.colores| > 0 then Some(Shown(|p.colores|, 4)) else None
  }

  /** The size chips: nothing without sizes, else `slice(0, 5)` and `+(m - 5)`. */
  function SizeChips(p: CardProps): (r: Option<(nat, Option<nat>)>)
    ensures r.None? <==> p.tallas.None? || p.tallas.value == []
    ensures r.Some? ==> r.value.0 == (if |p.tallas.value| < 5 then |p.tallas.value| else 5)
    ensures r.Some? ==> r.value.0 + r.value.1.GetOr(0) == |p.tallas.value|
  {
    if p.tallas.Some? && |p.tallas.value| > 0 then Some(Shown(|p.tallas.value|, 5)) else None
  }
}
