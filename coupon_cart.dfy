/** The cart store of `src/context/CartContext.tsx`: the line list plus the applied coupon,
    held in memory only. The checkout page reads this store. */
module CouponCart {
  import opened Wrappers
  import opened CartLines

  /** `'porcentaje' | 'monto'`. */
  datatype CouponKind = Porcentaje | Monto

  /** A coupon as the store holds it; `minimo` is declared but no operation reads it. */
  datatype Coupon = Coupon(codigo: string, descuento: real, tipo: CouponKind, minimo: Option<real>)

  class Store {
    var cart: seq<CartItem>
    var coupon: Option<Coupon>

    /** What the store's own operations keep: one line per variant, each with quantity >= 1. */
    predicate WellFormed()
      reads this
    {
      UniqueVariants(cart) && PositiveQuantities(cart)
    }

    constructor ()
      ensures cart == [] && coupon == None
      ensures WellFormed()
    {
      cart := [];
      coupon := None;
    }

    /** `addToCart`; the coupon is not touched. */
    method AddToCart(item: CartItem)
      modifies this
      ensures cart == AddLine(old(cart), item)
      ensures coupon == old(coupon)
      ensures old(WellFormed()) && item.cantidad >= 1 ==> WellFormed()
    {
      cart := AddLine(cart, item);
    }

    /** `removeFromCart`; the coupon is kept even when the cart becomes empty. */
    method RemoveFromCart(variantId: int)
      modifies this
      ensures cart == RemoveVariant(old(cart), variantId)
      ensures coupon == old(coupon)
      ensures old(WellFormed()) ==> WellFormed()
    {
      cart := RemoveVariant(cart, variantId);
    }

    /** `updateQuantity`: a quantity below one is ignored; otherwise every line of the
        variant gets exactly that quantity. */
    method UpdateQuantity(variantId: int, cantidad: int)
      modifies this
      ensures cantidad < 1 ==> cart == old(cart)
      ensures cantidad >= 1 ==> cart == SetQuantity(old(cart), variantId, cantidad)
      ensures coupon == old(coupon)
      ensures old(WellFormed()) ==> WellFormed()
    {
      if cantidad < 1 {
        return;
      }
      cart := SetQuantity(cart, variantId, cantidad);
    }

    /** `applyCoupon`: replaces any coupon, with no check of `minimo`. */
    method ApplyCoupon(newCoupon: Coupon)
      modifies this
      ensures coupon == Some(newCoupon) && cart == old(cart)
    {
      coupon := Some(newCoupon);
    }

    /** `removeCoupon`. */
    method RemoveCoupon()
      modifies this
      ensures coupon == None && cart == old(cart)
    {
      coupon := None;
    }

    /** `clearCart`: empties the cart and drops the coupon. */
    method ClearCart()
      modifies this
      ensures cart == [] && coupon == None
      ensures WellFormed()
    {
      cart := [];
      coupon := None;
    }
  }
}
