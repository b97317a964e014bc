/** The checkout page (`src/app/carrito/checkout/page.tsx`): the price formula, the two form
    validators, the three-step wizard and the order commit, over the coupon cart store. */
module Checkout {
  import opened Wrappers
  import opened Seqs
  import opened Text
  import opened Decimal
  import opened CartLines
  import opened CouponCart

  // ---------------------------------------------------------------- pricing

  /** Flat shipping cost. */
  const Envio: real := 500.0

  /** `descuento`: a percentage of the subtotal for a 'porcentaje' coupon, the coupon's
      amount as it stands for a 'monto' one (no clamp), 0 without a coupon. */
  function Descuento(subtotal: real, coupon: Option<Coupon>): real
  {
    match coupon
    case None => 0.0
    case Some(c) => if c.tipo == Porcentaje then subtotal * (c.descuento / 100.0) else c.descuento
  }

  /** `total = subtotal - descuento + envio`, with no floor. */
  function OrderTotal(subtotal: real, coupon: Option<Coupon>): real
  {
    subtotal - Descuento(subtotal, coupon) + Envio
  }

  /** Without a coupon the customer pays the cart's Σ precio × cantidad plus shipping. */
  lemma NoCouponTotal(cart: seq<CartItem>)
    ensures Descuento(Total(cart), None) == 0.0
    ensures OrderTotal(Total(cart), None) == Total(cart) + 500.0
  {
  }

  /** A percentage coupon between 0 and 100 on a non-negative subtotal takes off between
      nothing and the whole subtotal, so the total stays between 500 and subtotal + 500. */
  lemma PercentageDiscountBounds(subtotal: real, c: Coupon)
    requires c.tipo == Porcentaje && 0.0 <= c.descuento <= 100.0 && subtotal >= 0.0
    ensures 0.0 <= Descuento(subtotal, Some(c)) <= subtotal
    ensures Envio <= OrderTotal(subtotal, Some(c)) <= subtotal + Envio
  {
    var f := c.descuento / 100.0;
    assert 0.0 <= f <= 1.0;
    assert subtotal * f >= 0.0;
    assert subtotal * (1.0 - f) >= 0.0;
    assert subtotal * f == subtotal - subtotal * (1.0 - f);
  }

  /** A fixed-amount coupon is taken off as it stands: the total drops below the shipping
      cost exactly when the amount exceeds the subtotal, and below zero when it exceeds
      subtotal + 500. */
  lemma FixedDiscountUnclamped(subtotal: real, c: Coupon)
    requires c.tipo == Monto
    ensures Descuento(subtotal, Some(c)) == c.descuento
    ensures OrderTotal(subtotal, Some(c)) < Envio <==> c.descuento > subtotal
    ensures OrderTotal(subtotal, Some(c)) < 0.0 <==> c.descuento > subtotal + Envio
  {
  }

  /** A cart of 300 with a fixed coupon of 1000 is charged -200. */
  lemma FixedDiscountNegativeTotal()
    ensures OrderTotal(300.0, Some(Coupon("X", 1000.0, Monto, None))) == -200.0
  {
  }

  // ---------------------------------------------------------------- validators

  /** `formEnvio`. */
  datatype ShippingForm = ShippingForm(
    nombre: string, apellido: string, direccion: string, ciudad: string,
    codigoPostal: string, provincia: string, telefono: string, email: string)

  /** `formPago`. */
  datatype PaymentForm = PaymentForm(titular: string, numeroTarjeta: string, vencimiento: string, cvv: string)

  const EmptyShipping: ShippingForm := ShippingForm("", "", "", "", "", "", "", "")
  const EmptyPayment: PaymentForm := PaymentForm("", "", "", "")

  /** `validarFormularioEnvio`. */
  predicate ValidShipping(f: ShippingForm)
  {
    NonBlank(f.nombre) && NonBlank(f.apellido) && NonBlank(f.direccion) && NonBlank(f.ciudad)
    && NonBlank(f.codigoPostal) && NonBlank(f.provincia) && NonBlank(f.telefono)
    && NonBlank(f.email) && Includes(f.email, "@")
  }

  /** The shipping form passes exactly when each of the eight fields holds a character that
      is not white space and the email holds an '@'. */
  lemma ValidShippingIff(f: ShippingForm)
    ensures ValidShipping(f) <==>
      HasNonSpace(f.nombre) && HasNonSpace(f.apellido) && HasNonSpace(f.direccion)
      && HasNonSpace(f.ciudad) && HasNonSpace(f.codigoPostal) && HasNonSpace(f.provincia)
      && HasNonSpace(f.telefono) && HasNonSpace(f.email) && '@' in f.email
  {
    NonBlankIff(f.nombre);
    NonBlankIff(f.apellido);
    NonBlankIff(f.direccion);
    NonBlankIff(f.ciudad);
    NonBlankIff(f.codigoPostal);
    NonBlankIff(f.provincia);
    NonBlankIff(f.telefono);
    NonBlankIff(f.email);
    IncludesCharIff(f.email, '@');
  }

  function NotSpace(): char -> bool
  {
    (c: char) => !IsSpace(c)
  }

  /** `s.replace(/\s/g, '')`. */
  function StripSpaces(s: string): (r: string)
    ensures IsSubsequence(r, s)
    ensures forall k :: 0 <= k < |r| ==> !IsSpace(r[k])
    ensures forall c :: c in r <==> c in s && !IsSpace(c)
  {
    FilterIsSubsequence(s, NotSpace());
    Filter(s, NotSpace())
  }

  /** Removing white space keeps every occurrence of every other character. */
  lemma StripSpacesCounts(s: string)
    ensures forall c :: multiset(StripSpaces(s))[c] == if IsSpace(c) then 0 else multiset(s)[c]
  {
    FilterMultiplicity(s, NotSpace());
  }

  /** `/^\d{2}\/\d{2}$/`. */
  predicate ExpiryPattern(s: string)
  {
    |s| == 5 && IsDigit(s[0]) && IsDigit(s[1]) && s[2] == '/' && IsDigit(s[3]) && IsDigit(s[4])
  }

  /** `validarFormularioPago`. */
  predicate ValidPayment(f: PaymentForm)
  {
    NonBlank(f.titular) && |StripSpaces(f.numeroTarjeta)| == 16 && ExpiryPattern(f.vencimiento)
    && |f.cvv| >= 3
  }

  /** Spaces between the groups of a card number do not change what the rule counts. */
  lemma {:induction false} StripSpacesJoin(a: string, b: string)
    ensures StripSpaces(a + " " + b) == StripSpaces(a) + StripSpaces(b)
  {
    assert !NotSpace()(' ');
    FilterSkip(a, ' ', b, NotSpace());
  }

  /** A string with no white space is counted as it stands. */
  lemma {:induction false} StripSpacesNoSpace(s: string)
    requires forall k :: 0 <= k < |s| ==> !IsSpace(s[k])
    ensures StripSpaces(s) == s
  {
    FilterKeepsAll(s, NotSpace());
  }

  /** The payment form passes exactly when the holder holds a non-space character, the card
      number holds sixteen characters once white space is removed, the expiry is two digits,
      '/', two digits, and the code is at least three characters long. */
  lemma ValidPaymentIff(f: PaymentForm)
    ensures ValidPayment(f) <==>
      HasNonSpace(f.titular) && |StripSpaces(f.numeroTarjeta)| == 16
      && |f.vencimiento| == 5 && f.vencimiento[2] == '/'
      && (forall k :: 0 <= k < 5 && k != 2 ==> '0' <= f.vencimiento[k] <= '9')
      && |f.cvv| >= 3
  {
    NonBlankIff(f.titular);
    if |f.vencimiento| == 5 && (forall k :: 0 <= k < 5 && k != 2 ==> '0' <= f.vencimiento[k] <= '9') {
      assert IsDigit(f.vencimiento[0]) && IsDigit(f.vencimiento[1]);
      assert IsDigit(f.vencimiento[3]) && IsDigit(f.vencimiento[4]);
    }
  }

  // ---------------------------------------------------------------- the wizard

  /** `paso: 1 | 2 | 3`. */
  type Paso = p: int | 1 <= p <= 3 witness 1

  /** `avanzarPaso`. */
  function Advance(paso: Paso, envio: ShippingForm, pago: PaymentForm): Paso
  {
    if paso == 1 && ValidShipping(envio) then 2
    else if paso == 2 && ValidPayment(pago) then 3
    else paso
  }

  /** `retrocederPaso`. */
  function Retreat(paso: Paso): Paso
  {
    if paso > 1 then (if paso == 3 then 2 else 1) else paso
  }

  /** Advancing moves at most one step forward: 1 to 2 exactly on a valid shipping form,
      2 to 3 exactly on a valid payment form, and never past 3. */
  lemma AdvanceSpec(paso: Paso, envio: ShippingForm, pago: PaymentForm)
    ensures var r := Advance(paso, envio, pago);
      (r == paso || r == paso + 1)
      && (paso == 1 ==> (r == 2 <==> ValidShipping(envio)))
      && (paso == 2 ==> (r == 3 <==> ValidPayment(pago)))
      && (paso == 3 ==> r == 3)
  {
  }

  /** Going back moves one step down and stays at 1; it undoes a successful advance. */
  lemma RetreatSpec(paso: Paso, envio: ShippingForm, pago: PaymentForm)
    ensures Retreat(paso) == if paso == 1 then 1 else paso - 1
    ensures Advance(paso, envio, pago) != paso ==> Retreat(Advance(paso, envio, pago)) == paso
  {
  }

  // ---------------------------------------------------------------- the order commit

  /** The id of the created `orders` row as the client receives it. */
  datatype RowId = TextId(s: string) | NumberId(n: int) | NoId

  /** `pedidoId`: a string id as it is, a truthy number through `String`, else null. */
  function ShownId(id: RowId): (r: Option<string>)
    ensures id.TextId? ==> r == Some(id.s)
    ensures id.NumberId? && id.n != 0 ==> r == Some(IntToString(id.n))
    ensures r == None <==> id.NoId? || id == NumberId(0)
  {
    match id
    case TextId(s) => Some(s)
    case NumberId(n) => if n != 0 then Some(IntToString(n)) else None
    case NoId => None
  }

  /** Two non-zero numeric order ids are shown alike only when they are the same id, and the
      shown text reads back as the id. */
  lemma ShownIdFaithful(a: int, b: int)
    requires a != 0 && b != 0
    ensures ShownId(NumberId(a)) == ShownId(NumberId(b)) <==> a == b
    ensures ParseInt(ShownId(NumberId(a)).value) == a
  {
    IntToStringInjective(a, b);
    IntRoundTrip(a);
  }

  /** The row sent to `orders`. `user_id` is always null and is not represented. */
  datatype OrderHeader = OrderHeader(
    estado: string, total: real, tipo: string, createdAt: string,
    nombreCliente: string, emailCliente: string, telefonoCliente: string, direccionEnvio: string,
    cuponAplicado: Option<string>, descuentoAplicado: Option<real>)

  /** One row sent to `order_items`. */
  datatype ItemRow = ItemRow(
    orderId: RowId, productId: int, variantId: int, cantidad: int, precioUnitario: real,
    color: string, talla: string)

  function HeaderFor(cart: seq<CartItem>, coupon: Option<Coupon>, f: ShippingForm, now: string): OrderHeader
  {
    var subtotal := Total(cart);
    var d := Descuento(subtotal, coupon);
    OrderHeader(
      "pendiente", OrderTotal(subtotal, coupon), "minorista", now,
      f.nombre + " " + f.apellido, f.email, f.telefono,
      f.direccion + ", " + f.ciudad + ", " + f.provincia + " (" + f.codigoPostal + ")",
      if coupon.Some? then Some(coupon.value.codigo) else None,
      if d > 0.0 then Some(d) else None)
  }

  /** The header is always a pending retail order for the cart's total; it names the coupon
      exactly when there is one, and records a discount exactly when it is positive. */
  lemma HeaderFields(cart: seq<CartItem>, coupon: Option<Coupon>, f: ShippingForm, now: string)
    ensures var h := HeaderFor(cart, coupon, f, now);
      && h.estado == "pendiente" && h.tipo == "minorista"
      && h.total == Total(cart) - Descuento(Total(cart), coupon) + 500.0
      && (h.cuponAplicado.Some? <==> coupon.Some?)
      && (coupon.Some? ==> h.cuponAplicado == Some(coupon.value.codigo))
      && (h.descuentoAplicado.Some? <==> Descuento(Total(cart), coupon) > 0.0)
      && (h.descuentoAplicado.Some? ==> h.descuentoAplicado.value == Descuento(Total(cart), coupon))
      && (coupon.None? ==> h.descuentoAplicado == None)
  {
  }

  function RowOf(id: RowId, l: CartItem): ItemRow
  {
    ItemRow(id, l.productId, l.variantId, l.cantidad, l.precio, l.color, l.talla)
  }

  /** `cart.map(...)`: the item rows of an order. */
  function ItemRows(cart: seq<CartItem>, id: RowId): (rows: seq<ItemRow>)
    ensures |rows| == |cart|
    ensures forall k :: 0 <= k < |cart| ==>
      rows[k].orderId == id && rows[k].productId == cart[k].productId
      && rows[k].variantId == cart[k].variantId && rows[k].cantidad == cart[k].cantidad
      && rows[k].precioUnitario == cart[k].precio && rows[k].color == cart[k].color
      && rows[k].talla == cart[k].talla
  {
    if cart == [] then []
    else
      var rest := ItemRows(cart[1..], id);
      assert forall k :: 1 <= k < |cart| ==> cart[k] == cart[1..][k - 1];
      [RowOf(id, cart[0])] + rest
  }

  /** What the `orders` insert gives back: an error or no row, an exception, or a row. */
  datatype HeaderOutcome = HeaderFailed | HeaderThrew | HeaderCreated(id: RowId)

  /** What the `order_items` insert gives back. */
  datatype ItemsOutcome = ItemsFailed | ItemsThrew | ItemsCreated

  const ErrorPedido: string := "No se pudo registrar el pedido. Intenta de nuevo."
  const ErrorProductos: string := "No se pudieron registrar los productos del pedido. Intenta de nuevo."
  const ErrorGeneral: string := "Ocurrió un error al procesar la compra. Intenta nuevamente más tarde."

  class CheckoutPage {
    const store: Store
    var paso: Paso
    var loading: bool
    var error: Option<string>
    var pedidoCompletado: bool
    var pedidoId: Option<string>
    var formEnvio: ShippingForm
    var formPago: PaymentForm
    /** Every `orders` insert the page has issued, in order. */
    var headerWrites: seq<OrderHeader>
    /** Every `order_items` insert the page has issued, in order. */
    var itemWrites: seq<seq<ItemRow>>

    constructor (store: Store)
      ensures this.store == store
      ensures paso == 1 && !loading && error == None && !pedidoCompletado && pedidoId == None
      ensures formEnvio == EmptyShipping && formPago == EmptyPayment
      ensures headerWrites == [] && itemWrites == []
    {
      this.store := store;
      paso := 1;
      loading := false;
      error := None;
      pedidoCompletado := false;
      pedidoId := None;
      formEnvio := EmptyShipping;
      formPago := EmptyPayment;
      headerWrites := [];
      itemWrites := [];
    }

    /** The empty-cart effect: leave for the cart page unless an order was just completed. */
    predicate ShouldRedirect()
      reads this, store
    {
      store.cart == [] && !pedidoCompletado
    }

    /** `avanzarPaso`. */
    method AvanzarPaso()
      modifies this`paso
      ensures paso == Advance(old(paso), formEnvio, formPago)
    {
      if paso == 1 && ValidShipping(formEnvio) {
        paso := 2;
      } else if paso == 2 && ValidPayment(formPago) {
        paso := 3;
      }
    }

    /** `retrocederPaso`; the forms are not touched. */
    method RetrocederPaso()
      modifies this`paso
      ensures paso == Retreat(old(paso))
    {
      if paso > 1 {
        paso := if paso == 3 then 2 else 1;
      }
    }

    /** `finalizarCompra`, with the two inserts' results given as `header` and `items` and
        the clock's ISO time as `now`. */
    method FinalizarCompra(header: HeaderOutcome, items: ItemsOutcome, now: string)
      modifies this, store
      ensures !loading
      ensures paso == old(paso) && formEnvio == old(formEnvio) && formPago == old(formPago)
      ensures headerWrites == old(headerWrites) + [HeaderFor(old(store.cart), old(store.coupon), formEnvio, now)]
      ensures !header.HeaderCreated? ==>
        && itemWrites == old(itemWrites)
        && store.cart == old(store.cart) && store.coupon == old(store.coupon)
        && pedidoCompletado == old(pedidoCompletado) && pedidoId == old(pedidoId)
        && error == Some(if header.HeaderFailed? then ErrorPedido else ErrorGeneral)
      ensures header.HeaderCreated? ==>
        && pedidoId == ShownId(header.id)
        && itemWrites == old(itemWrites) + [ItemRows(old(store.cart), header.id)]
      ensures header.HeaderCreated? && !items.ItemsCreated? ==>
        && store.cart == old(store.cart) && store.coupon == old(store.coupon)
        && pedidoCompletado == old(pedidoCompletado)
        && error == Some(if items.ItemsFailed? then ErrorProductos else ErrorGeneral)
      ensures header.HeaderCreated? && items.ItemsCreated? ==>
        && store.cart == [] && store.coupon == None
        && pedidoCompletado && error == None && !ShouldRedirect()
    {
      loading := true;
      error := None;
      var cart, coupon := store.cart, store.coupon;
      headerWrites := headerWrites + [HeaderFor(cart, coupon, formEnvio, now)];
      match header {
        case HeaderThrew =>
          error := Some(ErrorGeneral);
        case HeaderFailed =>
          error := Some(ErrorPedido);
          loading := false;
          return;
        case HeaderCreated(id) =>
          pedidoId := ShownId(id);
          itemWrites := itemWrites + [ItemRows(cart, id)];
          match items {
            case ItemsThrew =>
              error := Some(ErrorGeneral);
            case ItemsFailed =>
              error := Some(ErrorProductos);
              loading := false;
              return;
            case ItemsCreated =>
              store.ClearCart();
              pedidoCompletado := true;
          }
      }
      loading := false;
    }
  }
}
