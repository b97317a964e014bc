/** The cart line and the list transforms that both cart stores apply to their line list
    (both `CartContext` files declare the same `CartItem` and the same updater bodies). */
module CartLines {
  import opened Seqs

  /** One cart line. `variantId` is the key of the line within a cart. */
  datatype CartItem = CartItem(
    variantId: int,
    productId: int,
    nombre: string,
    precio: real,
    talla: string,
    color: string,
    colorHex: string,
    cantidad: int)

  /** Some line has variant `v`. */
  predicate HasVariant(lines: seq<CartItem>, v: int)
  {
    lines != [] && (lines[0].variantId == v || HasVariant(lines[1..], v))
  }

  /** No two lines share a `variantId`. */
  predicate UniqueVariants(lines: seq<CartItem>)
  {
    lines == [] || (!HasVariant(lines[1..], lines[0].variantId) && UniqueVariants(lines[1..]))
  }

  /** Every line has a quantity of at least one. */
  predicate PositiveQuantities(lines: seq<CartItem>)
  {
    forall k :: 0 <= k < |lines| ==> lines[k].cantidad >= 1
  }

  lemma {:induction false} HasVariantIff(lines: seq<CartItem>, v: int)
    ensures HasVariant(lines, v) <==> exists k :: 0 <= k < |lines| && lines[k].variantId == v
  {
    if lines != [] {
      HasVariantIff(lines[1..], v);
      if exists k :: 0 <= k < |lines| && lines[k].variantId == v {
        var k :| 0 <= k < |lines| && lines[k].variantId == v;
        if k > 0 {
          assert lines[1..][k - 1] == lines[k];
        }
      }
    }
  }

  /** The two readings of "no two lines share a variant" agree. */
  lemma {:induction false} UniqueVariantsIff(lines: seq<CartItem>)
    ensures UniqueVariants(lines) <==>
      forall i, j :: 0 <= i < j < |lines| ==> lines[i].variantId != lines[j].variantId
  {
    if lines != [] {
      UniqueVariantsIff(lines[1..]);
      HasVariantIff(lines[1..], lines[0].variantId);
      assert forall k :: 0 <= k < |lines[1..]| ==> lines[1..][k] == lines[k + 1];
      if !UniqueVariants(lines) {
        if HasVariant(lines[1..], lines[0].variantId) {
          var k :| 0 <= k < |lines[1..]| && lines[1..][k].variantId == lines[0].variantId;
          assert lines[k + 1].variantId == lines[0].variantId;
        } else {
          var i, j :| 0 <= i < j < |lines[1..]| && lines[1..][i].variantId == lines[1..][j].variantId;
          assert lines[i + 1].variantId == lines[j + 1].variantId;
        }
      }
    }
  }

  /** `lines.findIndex(i => i.variantId === v)`. */
  function FindIndex(lines: seq<CartItem>, v: int): (i: int)
    ensures -1 <= i < |lines|
    ensures i == -1 <==> !HasVariant(lines, v)
    ensures 0 <= i ==> lines[i].variantId == v
    ensures 0 <= i ==> forall k :: 0 <= k < i ==> lines[k].variantId != v
  {
    if lines == [] then -1
    else if lines[0].variantId == v then 0
    else
      var j := FindIndex(lines[1..], v);
      assert forall k :: 1 <= k < |lines| ==> lines[k] == lines[1..][k - 1];
      if j == -1 then -1 else j + 1
  }

  /** precio × cantidad of one line. */
  function Amount(l: CartItem): real
  {
    l.precio * l.cantidad as real
  }

  /** Σ precio × cantidad (`getCartTotal`, and the checkout subtotal). */
  function Total(lines: seq<CartItem>): real
  {
    if lines == [] then 0.0 else Amount(lines[0]) + Total(lines[1..])
  }

  /** Σ cantidad (`getItemsCount`). */
  function Count(lines: seq<CartItem>): int
  {
    if lines == [] then 0 else lines[0].cantidad + Count(lines[1..])
  }

  /** The updater of `addToCart`: add to the quantity of the line with the same variant,
      or append the item as a new last line. */
  function AddLine(lines: seq<CartItem>, item: CartItem): (r: seq<CartItem>)
    ensures HasVariant(lines, item.variantId) ==>
      var i := FindIndex(lines, item.variantId);
      && |r| == |lines|
      && r[i] == lines[i].(cantidad := lines[i].cantidad + item.cantidad)
      && forall k :: 0 <= k < |lines| && k != i ==> r[k] == lines[k]
    ensures !HasVariant(lines, item.variantId) ==> r == lines + [item]
    ensures UniqueVariants(lines) ==> UniqueVariants(r)
    ensures PositiveQuantities(lines) && item.cantidad >= 1 ==> PositiveQuantities(r)
    ensures Count(r) == Count(lines) + item.cantidad
    ensures HasVariant(lines, item.variantId) ==>
      Total(r) == Total(lines) + lines[FindIndex(lines, item.variantId)].precio * item.cantidad as real
    ensures !HasVariant(lines, item.variantId) ==> Total(r) == Total(lines) + Amount(item)
  {
    var i := FindIndex(lines, item.variantId);
    if i != -1 then
      var r := lines[i := lines[i].(cantidad := lines[i].cantidad + item.cantidad)];
      CountUpdate(lines, i, r[i]);
      MergeTotal(lines, i, item.cantidad);
      ReplaceKeepsUnique(lines, i, r[i]);
      r
    else
      CountAppend(lines, [item]);
      assert Count([item]) == item.cantidad;
      TotalAppend(lines, [item]);
      assert Total([item]) == Amount(item);
      AppendKeepsUnique(lines, item);
      lines + [item]
  }

  /** The filter predicate of `removeFromCart`. */
  function OtherVariant(v: int): CartItem -> bool
  {
    (l: CartItem) => l.variantId != v
  }

  /** The updater of `removeFromCart`: drop every line of variant `v`. */
  function RemoveVariant(lines: seq<CartItem>, v: int): (r: seq<CartItem>)
    ensures IsSubsequence(r, lines)
    ensures forall x :: x in r <==> x in lines && x.variantId != v
    ensures !HasVariant(r, v)
    ensures !HasVariant(lines, v) ==> r == lines
    ensures UniqueVariants(lines) ==> UniqueVariants(r)
    ensures PositiveQuantities(lines) ==> PositiveQuantities(r)
  {
    var keep := OtherVariant(v);
    FilterIsSubsequence(lines, keep);
    FilterKeepsUnique(lines, keep);
    RemoveAbsent(lines, v);
    var r := Filter(lines, keep);
    HasVariantIff(r, v);
    assert forall k :: 0 <= k < |r| ==> r[k] in lines;
    r
  }

  lemma RemoveAbsent(lines: seq<CartItem>, v: int)
    ensures !HasVariant(lines, v) ==> Filter(lines, OtherVariant(v)) == lines
  {
    if !HasVariant(lines, v) {
      HasVariantIff(lines, v);
      FilterKeepsAll(lines, OtherVariant(v));
    }
  }

  /** The updater of `updateQuantity` once the new quantity is decided: every line of
      variant `v` gets quantity `q`, every other line is kept. */
  function SetQuantity(lines: seq<CartItem>, v: int, q: int): (r: seq<CartItem>)
    ensures |r| == |lines|
    ensures forall k :: 0 <= k < |lines| ==>
      r[k] == if lines[k].variantId == v then lines[k].(cantidad := q) else lines[k]
    ensures forall w :: HasVariant(r, w) <==> HasVariant(lines, w)
    ensures !HasVariant(lines, v) ==> r == lines
    ensures UniqueVariants(lines) ==> UniqueVariants(r)
    ensures PositiveQuantities(lines) && q >= 1 ==> PositiveQuantities(r)
  {
    if lines == [] then []
    else
      var head := if lines[0].variantId == v then lines[0].(cantidad := q) else lines[0];
      var rest := SetQuantity(lines[1..], v, q);
      var r := [head] + rest;
      assert r[1..] == rest;
      assert forall k :: 1 <= k < |lines| ==> lines[k] == lines[1..][k - 1] && r[k] == rest[k - 1];
      r
  }

  /** Replacing a line by one with the same variant leaves the set of variants as it was. */
  lemma {:induction false} ReplaceKeepsVariants(lines: seq<CartItem>, i: nat, x: CartItem, w: int)
    requires i < |lines| && x.variantId == lines[i].variantId
    ensures HasVariant(lines[i := x], w) <==> HasVariant(lines, w)
  {
    if i > 0 {
      assert lines[i := x][1..] == lines[1..][i - 1 := x];
      ReplaceKeepsVariants(lines[1..], i - 1, x, w);
    } else {
      assert lines[i := x][1..] == lines[1..];
    }
  }

  /** Replacing a line by one with the same variant keeps the variants distinct. */
  lemma {:induction false} ReplaceKeepsUnique(lines: seq<CartItem>, i: nat, x: CartItem)
    requires i < |lines| && x.variantId == lines[i].variantId
    ensures UniqueVariants(lines) ==> UniqueVariants(lines[i := x])
  {
    if i > 0 {
      assert lines[i := x][1..] == lines[1..][i - 1 := x];
      ReplaceKeepsVariants(lines[1..], i - 1, x, lines[0].variantId);
      ReplaceKeepsUnique(lines[1..], i - 1, x);
    } else {
      assert lines[i := x][1..] == lines[1..];
    }
  }

  lemma {:induction false} HasVariantAppend(lines: seq<CartItem>, x: CartItem, w: int)
    ensures HasVariant(lines + [x], w) <==> HasVariant(lines, w) || x.variantId == w
  {
    if lines == [] {
      assert lines + [x] == [x];
    } else {
      assert (lines + [x])[1..] == lines[1..] + [x];
      HasVariantAppend(lines[1..], x, w);
    }
  }

  /** Appending a line of an absent variant keeps the variants distinct. */
  lemma {:induction false} AppendKeepsUnique(lines: seq<CartItem>, x: CartItem)
    requires !HasVariant(lines, x.variantId)
    ensures UniqueVariants(lines) ==> UniqueVariants(lines + [x])
  {
    if lines == [] {
      assert lines + [x] == [x];
    } else {
      assert (lines + [x])[1..] == lines[1..] + [x];
      HasVariantAppend(lines[1..], x, lines[0].variantId);
      AppendKeepsUnique(lines[1..], x);
    }
  }

  lemma {:induction false} FilterKeepsUnique(lines: seq<CartItem>, keep: CartItem -> bool)
    ensures UniqueVariants(lines) ==> UniqueVariants(Filter(lines, keep))
  {
    if lines != [] && UniqueVariants(lines) {
      FilterKeepsUnique(lines[1..], keep);
      FilterNoNewVariant(lines[1..], keep, lines[0].variantId);
      if keep(lines[0]) {
        assert Filter(lines, keep)[1..] == Filter(lines[1..], keep);
      }
    }
  }

  lemma {:induction false} FilterNoNewVariant(lines: seq<CartItem>, keep: CartItem -> bool, w: int)
    ensures HasVariant(Filter(lines, keep), w) ==> HasVariant(lines, w)
  {
    if lines != [] {
      FilterNoNewVariant(lines[1..], keep, w);
      if keep(lines[0]) {
        assert Filter(lines, keep)[1..] == Filter(lines[1..], keep);
      }
    }
  }

  lemma {:induction false} CountAppend(a: seq<CartItem>, b: seq<CartItem>)
    ensures Count(a + b) == Count(a) + Count(b)
  {
    if a == [] {
      assert a + b == b;
    } else {
      assert (a + b)[1..] == a[1..] + b;
      CountAppend(a[1..], b);
    }
  }

  lemma {:induction false} TotalAppend(a: seq<CartItem>, b: seq<CartItem>)
    ensures Total(a + b) == Total(a) + Total(b)
  {
    if a == [] {
      assert a + b == b;
    } else {
      assert (a + b)[1..] == a[1..] + b;
      TotalAppend(a[1..], b);
    }
  }

  /** Replacing one line changes the quantity sum by the difference of the two quantities. */
  lemma {:induction false} CountUpdate(lines: seq<CartItem>, i: nat, x: CartItem)
    requires i < |lines|
    ensures Count(lines[i := x]) == Count(lines) - lines[i].cantidad + x.cantidad
  {
    if i > 0 {
      assert lines[i := x][1..] == lines[1..][i - 1 := x];
      CountUpdate(lines[1..], i - 1, x);
    } else {
      assert lines[i := x][1..] == lines[1..];
    }
  }

  /** Replacing one line changes the total by the difference of the two line amounts. */
  lemma {:induction false} TotalUpdate(lines: seq<CartItem>, i: nat, x: CartItem)
    requires i < |lines|
    ensures Total(lines[i := x]) == Total(lines) - Amount(lines[i]) + Amount(x)
  {
    if i > 0 {
      assert lines[i := x][1..] == lines[1..][i - 1 := x];
      TotalUpdate(lines[1..], i - 1, x);
    } else {
      assert lines[i := x][1..] == lines[1..];
    }
  }

  /** Raising one line's quantity by `b` raises the total by that line's price times `b`. */
  lemma {:induction false} MergeTotal(lines: seq<CartItem>, i: nat, b: int)
    requires i < |lines|
    ensures Total(lines[i := lines[i].(cantidad := lines[i].cantidad + b)]) == Total(lines) + lines[i].precio * b as real
  {
    var x := lines[i].(cantidad := lines[i].cantidad + b);
    TotalUpdate(lines, i, x);
    AmountAdd(lines[i], b);
  }

  lemma AmountAdd(l: CartItem, b: int)
    ensures Amount(l.(cantidad := l.cantidad + b)) == Amount(l) + l.precio * b as real
  {
    var p, a := l.precio, l.cantidad;
    calc {
      Amount(l.(cantidad := a + b));
      p * (a + b) as real;
      p * a as real + p * b as real;
    }
  }

  /** With non-negative prices and quantities both sums are non-negative. */
  lemma {:induction false} SumsNonNegative(lines: seq<CartItem>)
    ensures (forall k :: 0 <= k < |lines| ==> lines[k].precio >= 0.0 && lines[k].cantidad >= 0) ==>
      Total(lines) >= 0.0 && Count(lines) >= 0
  {
    if lines != [] && forall k :: 0 <= k < |lines| ==> lines[k].precio >= 0.0 && lines[k].cantidad >= 0 {
      assert forall k :: 1 <= k < |lines| ==> lines[1..][k - 1] == lines[k];
      SumsNonNegative(lines[1..]);
      var p, c := lines[0].precio, lines[0].cantidad as real;
      assert p * c >= 0.0;
    }
  }

  /** Once no two lines share a variant, removing a present variant removes exactly one line
      and takes exactly its quantity off the count. */
  lemma {:induction false} RemovePresentVariant(lines: seq<CartItem>, v: int)
    requires UniqueVariants(lines) && HasVariant(lines, v)
    ensures |RemoveVariant(lines, v)| == |lines| - 1
    ensures Count(RemoveVariant(lines, v)) == Count(lines) - lines[FindIndex(lines, v)].cantidad
  {
    var keep := OtherVariant(v);
    if lines[0].variantId == v {
      RemoveAbsent(lines[1..], v);
      assert Filter(lines, keep) == Filter(lines[1..], keep);
    } else {
      RemovePresentVariant(lines[1..], v);
      assert Filter(lines, keep) == [lines[0]] + Filter(lines[1..], keep);
      assert lines[FindIndex(lines, v)] == lines[1..][FindIndex(lines[1..], v)];
    }
  }

  /** Removing the variant that an add appended as a new line gives the cart back. */
  lemma AddThenRemove(lines: seq<CartItem>, item: CartItem)
    requires !HasVariant(lines, item.variantId)
    ensures RemoveVariant(AddLine(lines, item), item.variantId) == lines
  {
    var keep := OtherVariant(item.variantId);
    FilterAppend(lines, [item], keep);
    RemoveAbsent(lines, item.variantId);
    assert Filter([item], keep) == [];
  }

  /** Setting the same quantity twice is the same as setting it once. */
  lemma {:induction false} SetQuantityIdempotent(lines: seq<CartItem>, v: int, q: int)
    ensures SetQuantity(SetQuantity(lines, v, q), v, q) == SetQuantity(lines, v, q)
  {
    var r := SetQuantity(lines, v, q);
    var rr := SetQuantity(r, v, q);
    assert forall k :: 0 <= k < |rr| ==> rr[k] == r[k];
  }
}
