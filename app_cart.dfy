/** The cart store of `src/app/context/CartContext.tsx`: the line list plus the copy of it
    kept in the browser's local storage under the key "strixCart". */
module AppCart {
  import opened Wrappers
  import opened CartLines

  /** The local-storage key of the saved cart. */
  const StorageKey: string := "strixCart"

  /** What the mount effect finds under the storage key: nothing (or an empty string),
      text that does not parse as JSON, or a parsed line list. The source skips an empty
      string without parsing it and leaves it in storage, while the model's `stored` has
      no value for it and records `None`, as for a missing key. */
  datatype SavedCart = Absent | Unreadable | Parsed(items: seq<CartItem>)

  /** The save effect that runs after every change of the list: only a non-empty list
      is written; an empty one leaves storage as it was. */
  function SaveEffect(stored: Option<seq<CartItem>>, items: seq<CartItem>): Option<seq<CartItem>>
  {
    if |items| > 0 then Some(items) else stored
  }

  class CartStore {
    var cartItems: seq<CartItem>
    /** The value under `StorageKey`; `None` once the key has been removed. */
    var stored: Option<seq<CartItem>>

    /** A list that is not empty is the one in storage. */
    predicate Persisted()
      reads this
    {
      cartItems != [] ==> stored == Some(cartItems)
    }

    /** What the store's own operations keep: one line per variant, each with quantity >= 1. */
    predicate WellFormed()
      reads this
    {
      UniqueVariants(cartItems) && PositiveQuantities(cartItems)
    }

    /** The provider's first render followed by the mount effect: a parsed saved cart
        becomes the list; unreadable text is removed from storage. */
    constructor (saved: SavedCart)
      ensures saved.Parsed? ==> cartItems == saved.items && stored == Some(saved.items)
      ensures !saved.Parsed? ==> cartItems == [] && stored == None
      ensures Persisted()
    {
      match saved
      case Parsed(items) =>
        cartItems := items;
        stored := Some(items);
      case _ =>
        cartItems := [];
        stored := None;
    }

    /** `addToCart`. */
    method AddToCart(item: CartItem)
      modifies this
      ensures cartItems == AddLine(old(cartItems), item)
      ensures stored == Some(cartItems)
      ensures old(WellFormed()) && item.cantidad >= 1 ==> WellFormed()
      ensures Persisted()
    {
      cartItems := AddLine(cartItems, item);
      stored := SaveEffect(stored, cartItems);
    }

    /** `removeFromCart`: the key is removed when the list had one line before the call,
        then the save effect writes the new list back if it is not empty. */
    method RemoveFromCart(variantId: int)
      modifies this
      ensures cartItems == RemoveVariant(old(cartItems), variantId)
      ensures stored == SaveEffect(if |old(cartItems)| == 1 then None else old(stored), cartItems)
      ensures old(WellFormed()) ==> WellFormed()
      ensures old(Persisted()) ==> Persisted()
      ensures old(|cartItems|) == 1 && old(HasVariant(cartItems, variantId)) ==>
        cartItems == [] && stored == None
    {
      var before := cartItems;
      if |cartItems| == 1 {
        stored := None;
      }
      cartItems := RemoveVariant(cartItems, variantId);
      stored := SaveEffect(stored, cartItems);
      if |before| == 1 && HasVariant(before, variantId) {
        assert before[0].variantId == variantId;
        assert !OtherVariant(variantId)(before[0]);
        assert cartItems == [];
      }
      if cartItems != [] && |before| != 1 {
        assert stored == Some(cartItems);
      }
    }

    /** `updateQuantity`: every line of the variant gets `max(1, cantidad)`. */
    method UpdateQuantity(variantId: int, cantidad: int)
      modifies this
      ensures cartItems == SetQuantity(old(cartItems), variantId, if cantidad < 1 then 1 else cantidad)
      ensures stored == SaveEffect(old(stored), cartItems)
      ensures old(WellFormed()) ==> WellFormed()
      ensures old(Persisted()) ==> Persisted()
    {
      var q := if cantidad < 1 then 1 else cantidad;
      cartItems := SetQuantity(cartItems, variantId, q);
      stored := SaveEffect(stored, cartItems);
    }

    /** `clearCart`: empty list, key removed. */
    method ClearCart()
      modifies this
      ensures cartItems == [] && stored == None
      ensures WellFormed() && Persisted()
    {
      cartItems := [];
      stored := None;
    }

    /** `getCartTotal`. */
    function GetCartTotal(): (t: real)
      reads this
      ensures cartItems == [] ==> t == 0.0
      ensures (forall k :: 0 <= k < |cartItems| ==> cartItems[k].precio >= 0.0 && cartItems[k].cantidad >= 0)
        ==> t >= 0.0
    {
      SumsNonNegative(cartItems);
      Total(cartItems)
    }

    /** `getItemsCount`. */
    function GetItemsCount(): (n: int)
      reads this
      ensures cartItems == [] ==> n == 0
      ensures PositiveQuantities(cartItems) ==> n >= |cartItems|
    {
      CountAtLeastLength(cartItems);
      Count(cartItems)
    }
  }

  /** With every quantity at least one, the item count is at least the number of lines. */
  lemma {:induction false} CountAtLeastLength(lines: seq<CartItem>)
    ensures PositiveQuantities(lines) ==> Count(lines) >= |lines|
  {
    if lines != [] {
      CountAtLeastLength(lines[1..]);
      assert forall k :: 1 <= k < |lines| ==> lines[1..][k - 1] == lines[k];
    }
  }
}
