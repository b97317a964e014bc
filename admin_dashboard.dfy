/** The admin dashboard (`src/app/admin/page.tsx`): four statistics reduced from the fetched
    orders, products and user profiles. A missing list (`data` null) counts as empty and a
    missing number as 0. */
module AdminDashboard {
  import opened Wrappers
  import opened Seqs

  datatype OrderRow = OrderRow(total: Option<real>, estado: string)
  datatype ProductRow = ProductRow(precio: Option<real>, stock: Option<real>)
  /** `updated_at` as milliseconds since the epoch, absent when null. */
  datatype UserRow = UserRow(updatedAt: Option<int>)

  datatype Stats = Stats(totalDinero: real, totalStock: real, gananciaPotencial: real, usuariosOnline: nat)

  /** Five minutes in milliseconds. */
  const OnlineWindow: int := 5 * 60 * 1000

  predicate Paid(o: OrderRow)
  {
    o.estado == "pagado" || o.estado == "entregado"
  }

  /** `Number(x || 0)`. */
  function OrZero(x: Option<real>): real
  {
    x.GetOr(0.0)
  }

  /** Σ of `total` over the paid or delivered orders. */
  function PaidTotal(pedidos: seq<OrderRow>): real
  {
    if pedidos == [] then 0.0
    else (if Paid(pedidos[0]) then OrZero(pedidos[0].total) else 0.0) + PaidTotal(pedidos[1..])
  }

  function StockSum(productos: seq<ProductRow>): real
  {
    if productos == [] then 0.0 else OrZero(productos[0].stock) + StockSum(productos[1..])
  }

  function ValueSum(productos: seq<ProductRow>): real
  {
    if productos == [] then 0.0
    else OrZero(productos[0].precio) * OrZero(productos[0].stock) + ValueSum(productos[1..])
  }

  function IsOnline(now: int): UserRow -> bool
  {
    (u: UserRow) => u.updatedAt.Some? && now - u.updatedAt.value < OnlineWindow
  }

  /** The four statistics; `now` is the clock reading in milliseconds. */
  function ComputeStats(pedidos: Option<seq<OrderRow>>, productos: Option<seq<ProductRow>>,
                        users: Option<seq<UserRow>>, now: int): Stats
  {
    var ps := productos.GetOr([]);
    Stats(PaidTotal(pedidos.GetOr([])), StockSum(ps), ValueSum(ps), |Filter(users.GetOr([]), IsOnline(now))|)
  }

  /** Null query data gives zero for every statistic. */
  lemma NullDataGivesZero(now: int)
    ensures ComputeStats(None, None, None, now) == Stats(0.0, 0.0, 0.0, 0)
  {
  }

  /** The money total adds up list by list, and an order counts only when paid or
      delivered, with its total or 0. */
  lemma {:induction false} PaidTotalAppend(a: seq<OrderRow>, b: seq<OrderRow>)
    ensures PaidTotal(a + b) == PaidTotal(a) + PaidTotal(b)
  {
    if a == [] {
      assert a + b == b;
    } else {
      assert (a + b)[1..] == a[1..] + b;
      PaidTotalAppend(a[1..], b);
    }
  }

  lemma PaidTotalOne(o: OrderRow)
    ensures PaidTotal([o]) == if Paid(o) then OrZero(o.total) else 0.0
  {
    assert [o][1..] == [];
  }

  /** Stock and stock value add up list by list. */
  lemma {:induction false} ProductSumsAppend(a: seq<ProductRow>, b: seq<ProductRow>)
    ensures StockSum(a + b) == StockSum(a) + StockSum(b)
    ensures ValueSum(a + b) == ValueSum(a) + ValueSum(b)
  {
    if a == [] {
      assert a + b == b;
    } else {
      assert (a + b)[1..] == a[1..] + b;
      ProductSumsAppend(a[1..], b);
    }
  }

  /** With non-negative numbers every sum is non-negative. */
  lemma {:induction false} SumsNonNegative(pedidos: seq<OrderRow>, productos: seq<ProductRow>)
    requires forall k :: 0 <= k < |pedidos| ==> OrZero(pedidos[k].total) >= 0.0
    requires forall k :: 0 <= k < |productos| ==> OrZero(productos[k].precio) >= 0.0 && OrZero(productos[k].stock) >= 0.0
    ensures PaidTotal(pedidos) >= 0.0 && StockSum(productos) >= 0.0 && ValueSum(productos) >= 0.0
    decreases |pedidos| + |productos|
  {
    if pedidos != [] {
      assert forall k :: 1 <= k < |pedidos| ==> pedidos[1..][k - 1] == pedidos[k];
      SumsNonNegative(pedidos[1..], productos);
    } else if productos != [] {
      assert forall k :: 1 <= k < |productos| ==> productos[1..][k - 1] == productos[k];
      SumsNonNegative(pedidos, productos[1..]);
      var p, s := OrZero(productos[0].precio), OrZero(productos[0].stock);
      assert p * s >= 0.0;
    }
  }

  /** A user counts as online exactly when `updated_at` is set and lies less than five
      minutes before `now` (a time after `now` counts too); the count is at most the
      number of users. */
  lemma UsuariosOnlineSpec(users: seq<UserRow>, now: int, u: UserRow)
    ensures |Filter(users, IsOnline(now))| <= |users|
    ensures u in Filter(users, IsOnline(now)) <==>
      u in users && u.updatedAt.Some? && now - u.updatedAt.value < 300000
  {
  }
}
