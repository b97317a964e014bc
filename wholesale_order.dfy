/** The new wholesale order page (`src/app/admin/mayoristas/nuevo/page.tsx`): the editable
    item list, and the submit that inserts the header and then one row per named item.
    `numberOf` stands for JavaScript's `Number(value)`. */
module WholesaleOrder {
  import opened Wrappers
  import opened Seqs

  datatype WForm = WForm(proveedor: string, fecha: string, total: string, estado: string, notas: string)
  datatype FormField = Proveedor | Fecha | TotalField | Estado | Notas

  datatype WItem = WItem(producto: string, cantidad: real, precioUnitario: string)
  datatype ItemField = Producto | Cantidad | PrecioUnitario

  /** The blank item that the list starts with and that `addItem` appends. */
  const BlankItem: WItem := WItem("", 1.0, "")

  const MsgSaveFailed: string := "Error al guardar pedido mayorista"

  /** `x || null` on a form string. */
  function OrNull(s: string): Option<string>
  {
    if s == "" then None else Some(s)
  }

  /** The `wholesale_orders` row; `fecha` is the form's date, or the clock's `now` when blank. */
  datatype WHeader = WHeader(proveedor: string, fecha: string, total: Option<string>, estado: string, notas: string)

  /** One `wholesale_order_items` row. */
  datatype WRow = WRow(orderId: int, producto: string, cantidad: real, precioUnitario: Option<string>)

  function HeaderFor(f: WForm, now: string): WHeader
  {
    WHeader(f.proveedor, if f.fecha != "" then f.fecha else now, OrNull(f.total), f.estado, f.notas)
  }

  function RowOf(item: WItem, id: int): WRow
  {
    WRow(id, item.producto, item.cantidad, OrNull(item.precioUnitario))
  }

  /** The header sends supplier, state and notes as typed, the date or `now` when the date
      is blank, and the total or null exactly when it is blank; an item row carries the
      header's id, the product and quantity as typed, and the unit price or null exactly
      when it is blank. */
  lemma PayloadFields(f: WForm, now: string, item: WItem, id: int)
    ensures var h := HeaderFor(f, now);
      h.proveedor == f.proveedor && h.estado == f.estado && h.notas == f.notas
      && (f.fecha == "" ==> h.fecha == now) && (f.fecha != "" ==> h.fecha == f.fecha)
      && (h.total == None <==> f.total == "") && (h.total.Some? ==> h.total.value == f.total)
    ensures var w := RowOf(item, id);
      w.orderId == id && w.producto == item.producto && w.cantidad == item.cantidad
      && (w.precioUnitario == None <==> item.precioUnitario == "")
      && (w.precioUnitario.Some? ==> w.precioUnitario.value == item.precioUnitario)
  {
  }

  function Named(): WItem -> bool
  {
    (item: WItem) => item.producto != ""
  }

  function Rows(items: seq<WItem>, id: int): (r: seq<WRow>)
    ensures |r| == |items|
    ensures forall k :: 0 <= k < |items| ==> r[k] == RowOf(items[k], id)
  {
    if items == [] then []
    else
      var rest := Rows(items[1..], id);
      assert forall k :: 1 <= k < |items| ==> items[k] == items[1..][k - 1];
      [RowOf(items[0], id)] + rest
  }

  /** The rows the submit loop inserts: one per item with a product name, in list order. */
  function RowsFor(items: seq<WItem>, id: int): seq<WRow>
  {
    Rows(Filter(items, Named()), id)
  }

  lemma {:induction false} RowsAppend(a: seq<WItem>, b: seq<WItem>, id: int)
    ensures Rows(a + b, id) == Rows(a, id) + Rows(b, id)
  {
    var l, r := Rows(a + b, id), Rows(a, id) + Rows(b, id);
    assert |l| == |r|;
    forall k | 0 <= k < |l|
      ensures l[k] == r[k]
    {
      if k < |a| {
        assert (a + b)[k] == a[k];
      } else {
        assert (a + b)[k] == b[k - |a|];
      }
    }
  }

  /** One more item adds its row exactly when it has a product name. */
  lemma RowsForSnoc(items: seq<WItem>, item: WItem, id: int)
    ensures RowsFor(items + [item], id) == RowsFor(items, id) + (if item.producto != "" then [RowOf(item, id)] else [])
  {
    FilterAppend(items, [item], Named());
    assert Filter([item], Named()) == if item.producto != "" then [item] else [];
    RowsAppend(Filter(items, Named()), Filter([item], Named()), id);
  }

  /** Every inserted row belongs to the new header and has a product name; items without a
      name are skipped and the others all get a row. */
  lemma RowsForSpec(items: seq<WItem>, id: int)
    ensures |RowsFor(items, id)| <= |items|
    ensures forall r :: r in RowsFor(items, id) ==> r.orderId == id && r.producto != ""
    ensures forall it :: it in items && it.producto != "" ==> RowOf(it, id) in RowsFor(items, id)
    ensures (forall k :: 0 <= k < |items| ==> items[k].producto == "") ==> RowsFor(items, id) == []
  {
    var named := Filter(items, Named());
    var rows := RowsFor(items, id);
    forall r | r in rows
      ensures r.orderId == id && r.producto != ""
    {
      var k :| 0 <= k < |rows| && rows[k] == r;
      assert named[k] in named;
    }
    forall it | it in items && it.producto != ""
      ensures RowOf(it, id) in rows
    {
      assert it in named;
      var k :| 0 <= k < |named| && named[k] == it;
      assert rows[k] == RowOf(it, id);
    }
    if forall k :: 0 <= k < |items| ==> items[k].producto == "" {
      if named != [] {
        assert named[0] in named;
      }
    }
  }

  /** The loop of `handleSubmit`: walks the items in order, skips those without a product
      name (`continue`) and emits one row for each of the others. */
  method CollectRows(items: seq<WItem>, id: int) returns (rows: seq<WRow>)
    ensures rows == RowsFor(items, id)
  {
    rows := [];
    var k := 0;
    while k < |items|
      invariant 0 <= k <= |items|
      invariant rows == RowsFor(items[..k], id)
    {
      RowsForSnoc(items[..k], items[k], id);
      assert items[..k + 1] == items[..k] + [items[k]];
      if items[k].producto == "" {
        k := k + 1;
        continue;
      }
      rows := rows + [RowOf(items[k], id)];
      k := k + 1;
    }
    assert items[..k] == items;
  }

  /** `items.filter((_, i) => i !== idx)`. */
  function RemoveAt(items: seq<WItem>, idx: int): (r: seq<WItem>)
    ensures 0 <= idx < |items| ==> |r| == |items| - 1
    ensures 0 <= idx < |items| ==> forall k :: 0 <= k < idx ==> r[k] == items[k]
    ensures 0 <= idx < |items| ==> forall k :: idx <= k < |r| ==> r[k] == items[k + 1]
    ensures !(0 <= idx < |items|) ==> r == items
  {
    if 0 <= idx < |items| then items[..idx] + items[idx + 1..] else items
  }

  function ChangeField(item: WItem, name: ItemField, value: string, numberOf: string -> real): WItem
  {
    match name
    case Producto => item.(producto := value)
    case Cantidad => item.(cantidad := numberOf(value))
    case PrecioUnitario => item.(precioUnitario := value)
  }

  class Page {
    var form: WForm
    var items: seq<WItem>
    var guardando: bool
    var error: Option<string>
    var navigated: bool
    var headerInserts: seq<WHeader>
    var itemInserts: seq<WRow>

    constructor ()
      ensures form == WForm("", "", "", "pendiente", "") && items == [BlankItem]
      ensures !guardando && error == None && !navigated && headerInserts == [] && itemInserts == []
    {
      form := WForm("", "", "", "pendiente", "");
      items := [BlankItem];
      guardando := false;
      error := None;
      navigated := false;
      headerInserts := [];
      itemInserts := [];
    }

    /** `handleFormChange`. */
    method HandleFormChange(name: FormField, value: string)
      modifies this`form
      ensures form == match name
        case Proveedor => old(form).(proveedor := value)
        case Fecha => old(form).(fecha := value)
        case TotalField => old(form).(total := value)
        case Estado => old(form).(estado := value)
        case Notas => old(form).(notas := value)
    {
      match name {
        case Proveedor => form := form.(proveedor := value);
        case Fecha => form := form.(fecha := value);
        case TotalField => form := form.(total := value);
        case Estado => form := form.(estado := value);
        case Notas => form := form.(notas := value);
      }
    }

    /** `handleItemChange`: only field `name` of item `idx` changes; `cantidad` is stored as
        a number. */
    method HandleItemChange(idx: int, name: ItemField, value: string, numberOf: string -> real)
      modifies this`items
      ensures |items| == |old(items)|
      ensures forall k :: 0 <= k < |items| && k != idx ==> items[k] == old(items)[k]
      ensures 0 <= idx < |items| ==> items[idx] == ChangeField(old(items)[idx], name, value, numberOf)
      ensures 0 <= idx < |items| && name == Cantidad ==> items[idx].cantidad == numberOf(value)
    {
      if 0 <= idx < |items| {
        items := items[idx := ChangeField(items[idx], name, value, numberOf)];
      }
    }

    /** `addItem`. */
    method AddItem()
      modifies this`items
      ensures items == old(items) + [BlankItem]
    {
      items := items + [BlankItem];
    }

    /** `removeItem`; the button exists only while there are at least two items, so the list
        never becomes empty through it. */
    method RemoveItem(idx: int)
      modifies this`items
      ensures items == RemoveAt(old(items), idx)
      ensures |old(items)| > 1 ==> |items| >= 1
    {
      items := RemoveAt(items, idx);
    }

    /** `handleSubmit`, with the header insert's answer given as `created` (the new id, or
        `None` for an error) and the clock's date as `now`. Item insert results are not read. */
    method HandleSubmit(created: Option<int>, now: string)
      modifies this`guardando, this`error, this`navigated, this`headerInserts, this`itemInserts
      ensures !guardando
      ensures headerInserts == old(headerInserts) + [HeaderFor(form, now)]
      ensures created.None? ==>
        error == Some(MsgSaveFailed) && itemInserts == old(itemInserts) && navigated == old(navigated)
      ensures created.Some? ==>
        error == None && navigated && itemInserts == old(itemInserts) + RowsFor(items, created.value)
    {
      guardando := true;
      error := None;
      headerInserts := headerInserts + [HeaderFor(form, now)];
      if created.None? {
        error := Some(MsgSaveFailed);
      } else {
        var inserted := CollectRows(items, created.value);
        itemInserts := itemInserts + inserted;
        navigated := true;
      }
      guardando := false;
    }
  }
}
