/** The customer's order history (`src/app/perfil/historial/page.tsx`): the status colour,
    the items of each order, the expanded-order toggle and the redirect of signed-out visitors. */
module OrderHistory {
  import opened Wrappers
  import opened Seqs
  import opened Text
  import opened Selection

  datatype Pedido = Pedido(id: int, estado: string, total: real, createdAt: string)
  datatype Item = Item(id: int, orderId: int, productId: int, cantidad: int, precioUnitario: real,
                       productNombre: Option<string>)

  const DefaultColor: string := "#a259ff"

  /** The colour of a lower-case status. */
  function ColorOfLower(s: string): string
  {
    if s == "pendiente" then "#FFB547"
    else if s == "procesando" then "#2196F3"
    else if s == "enviado" then "#4CAF50"
    else if s == "entregado" then "#8BC34A"
    else if s == "cancelado" then "#FF5252"
    else DefaultColor
  }

  /** `getStatusColor`: the switch on `estado.toLowerCase()`. */
  function StatusColor(estado: string): string
  {
    ColorOfLower(Lower(estado))
  }

  /** The colour does not depend on letter case. */
  lemma StatusColorCaseInsensitive(estado: string)
    ensures StatusColor(estado) == StatusColor(Lower(estado))
  {
    LowerIdempotent(estado);
  }

  /** The five known statuses, in any letter case, get their colours; every other status
      gets the default purple. */
  lemma StatusColorTable(estado: string)
    ensures Lower(estado) == "pendiente" <==> StatusColor(estado) == "#FFB547"
    ensures Lower(estado) == "procesando" <==> StatusColor(estado) == "#2196F3"
    ensures Lower(estado) == "enviado" <==> StatusColor(estado) == "#4CAF50"
    ensures Lower(estado) == "entregado" <==> StatusColor(estado) == "#8BC34A"
    ensures Lower(estado) == "cancelado" <==> StatusColor(estado) == "#FF5252"
    ensures Lower(estado) !in {"pendiente", "procesando", "enviado", "entregado", "cancelado"}
      <==> StatusColor(estado) == DefaultColor
  {
  }

  /** `estado` written as "PENDIENTE" is shown as pending. */
  lemma UpperCaseStatus()
    ensures StatusColor("PENDIENTE") == "#FFB547"
  {
    assert Lower("PENDIENTE") == "pendiente";
  }

  function ForOrder(id: int): Item -> bool
  {
    (i: Item) => i.orderId == id
  }

  /** `items.filter(i => i.order_id === pedido.id)`. */
  function ItemsOf(items: seq<Item>, id: int): (r: seq<Item>)
    ensures IsSubsequence(r, items)
    ensures forall i :: i in r <==> i in items && i.orderId == id
  {
    FilterIsSubsequence(items, ForOrder(id));
    Filter(items, ForOrder(id))
  }

  /** Two different orders share no item, and their two item counts together never exceed
      the number of items. */
  lemma {:induction false} ItemsOfDisjoint(items: seq<Item>, a: int, b: int)
    requires a != b
    ensures forall i :: !(i in ItemsOf(items, a) && i in ItemsOf(items, b))
    ensures |ItemsOf(items, a)| + |ItemsOf(items, b)| <= |items|
  {
    if items != [] {
      ItemsOfDisjoint(items[1..], a, b);
      assert ItemsOf(items, a) == Filter(items, ForOrder(a));
    }
  }

  /** The order-row click. */
  function ClickOrder(expanded: Option<int>, id: int): Option<int>
  {
    Toggle(expanded, id)
  }

  /** At most one order is expanded: clicking a second order collapses the first. */
  lemma OneOrderExpanded(expanded: Option<int>, a: int, b: int)
    requires a != b
    ensures ClickOrder(ClickOrder(expanded, a), b) == Some(b)
    ensures ClickOrder(ClickOrder(expanded, a), a) == (if expanded == Some(a) then Some(a) else None)
  {
  }

  /** The redirect effect: not loading and nobody signed in. */
  predicate RedirectToAuth(loading: bool, signedIn: bool)
  {
    !loading && !signedIn
  }
}
