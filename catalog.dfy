/** The catalog page (`src/app/catalogo/page.tsx`): the reactive filter pipeline, the filter
    buttons, the stock counts per colour and size, the per-category counts, the price-range
    fallback, the contrast colour of a swatch and the grid's column count. */
module Catalog {
  import opened Wrappers
  import opened Seqs
  import opened Selection

  // ---------------------------------------------------------------- data

  datatype Variant = Variant(colorId: int, sizeId: int, stock: int)

  /** A product with its variants; `subcategoryId` is `undefined` when the database value is
      falsy. Images play no part in the logic and are not represented. */
  datatype Product = Product(
    id: int, nombre: string, precio: real, categoryId: int, subcategoryId: Option<int>,
    variantes: seq<Variant>)

  datatype Category = Category(id: int, nombre: string)
  datatype Subcategory = Subcategory(id: int, nombre: string, categoryId: int)
  datatype Color = Color(id: int, nombre: string, codigoHex: string)
  datatype Size = Size(id: int, nombre: string)

  /** The five filter states of the page: four optional ids and the price range. */
  datatype Filters = Filters(
    categoria: Option<int>, subcategoria: Option<int>, color: Option<int>, talla: Option<int>,
    precioMin: real, precioMax: real)

  /** JavaScript truthiness of a `number | null` filter: set and not 0. */
  predicate Active(o: Option<int>)
  {
    o.Some? && o.value != 0
  }

  // ---------------------------------------------------------------- the filter pipeline

  predicate StockedInColor(p: Product, c: int)
  {
    exists v :: v in p.variantes && v.colorId == c && v.stock > 0
  }

  predicate StockedInSize(p: Product, t: int)
  {
    exists v :: v in p.variantes && v.sizeId == t && v.stock > 0
  }

  function InCategory(c: int): Product -> bool { (p: Product) => p.categoryId == c }
  function InSubcategory(s: int): Product -> bool { (p: Product) => p.subcategoryId == Some(s) }
  function WithColor(c: int): Product -> bool { (p: Product) => StockedInColor(p, c) }
  function WithSize(t: int): Product -> bool { (p: Product) => StockedInSize(p, t) }
  function InPriceRange(lo: real, hi: real): Product -> bool { (p: Product) => lo <= p.precio <= hi }

  /** What it takes for a product to survive every filter of `f`. */
  predicate Keep(f: Filters, p: Product)
  {
    && (Active(f.categoria) ==> p.categoryId == f.categoria.value)
    && (Active(f.subcategoria) ==> p.subcategoryId == f.subcategoria)
    && (Active(f.color) ==> StockedInColor(p, f.color.value))
    && (Active(f.talla) ==> StockedInSize(p, f.talla.value))
    && f.precioMin <= p.precio <= f.precioMax
  }

  /** `subcategorias.some(sc => sc.id === s && sc.category_id === c)`. */
  predicate SubcategoryBelongs(subcategorias: seq<Subcategory>, s: int, c: int)
  {
    exists k :: 0 <= k < |subcategorias| && subcategorias[k].id == s && subcategorias[k].categoryId == c
  }

  /** The subcategory reset of the filter effect: a selected subcategory that is not one of
      the selected category's is cleared. */
  function ResetSubcategory(f: Filters, subcategorias: seq<Subcategory>): (g: Filters)
    ensures g == f || g == f.(subcategoria := None)
    ensures Active(g.categoria) && Active(g.subcategoria) ==>
      SubcategoryBelongs(subcategorias, g.subcategoria.value, g.categoria.value)
    ensures g != f <==>
      Active(f.categoria) && Active(f.subcategoria)
      && !SubcategoryBelongs(subcategorias, f.subcategoria.value, f.categoria.value)
  {
    if Active(f.categoria) && Active(f.subcategoria)
       && !SubcategoryBelongs(subcategorias, f.subcategoria.value, f.categoria.value)
    then f.(subcategoria := None)
    else f
  }

  /** The reset is settled after one pass: the filter effect that it triggers changes nothing more. */
  lemma ResetSubcategoryIdempotent(f: Filters, subcategorias: seq<Subcategory>)
    ensures ResetSubcategory(ResetSubcategory(f, subcategorias), subcategorias) == ResetSubcategory(f, subcategorias)
  {
  }

  /** One `filtrados = filtrados.filter(keep)` of the effect, applied when `on` holds. */
  function Stage(s: seq<Product>, on: bool, keep: Product -> bool): (r: seq<Product>)
    ensures IsSubsequence(r, s)
    ensures forall p :: p in r <==> p in s && (on ==> keep(p))
    ensures forall p :: multiset(r)[p] == if on ==> keep(p) then multiset(s)[p] else 0
  {
    if on then
      FilterIsSubsequence(s, keep);
      FilterMultiplicity(s, keep);
      Filter(s, keep)
    else
      SubsequenceRefl(s);
      s
  }

  /** One run of the filter effect: `productosFiltrados` for the filters of this render, and
      the filters after the subcategory reset it may request. */
  method FiltrarProductos(productos: seq<Product>, subcategorias: seq<Subcategory>, f: Filters)
    returns (filtrados: seq<Product>, siguiente: Filters)
    ensures IsSubsequence(filtrados, productos)
    ensures forall p :: p in filtrados <==> p in productos && Keep(f, p)
    ensures forall p :: multiset(filtrados)[p] == if Keep(f, p) then multiset(productos)[p] else 0
    ensures siguiente == ResetSubcategory(f, subcategorias)
  {
    siguiente := f;
    var porCategoria := Stage(productos, Active(f.categoria), InCategory(f.categoria.GetOr(0)));
    if Active(f.categoria) && Active(f.subcategoria) {
      if !SubcategoryBelongs(subcategorias, f.subcategoria.value, f.categoria.value) {
        siguiente := f.(subcategoria := None);
      }
    }
    var porSubcategoria := Stage(porCategoria, Active(f.subcategoria), InSubcategory(f.subcategoria.GetOr(0)));
    var porColor := Stage(porSubcategoria, Active(f.color), WithColor(f.color.GetOr(0)));
    var porTalla := Stage(porColor, Active(f.talla), WithSize(f.talla.GetOr(0)));
    filtrados := Stage(porTalla, true, InPriceRange(f.precioMin, f.precioMax));
    SubsequenceTrans(porSubcategoria, porCategoria, productos);
    SubsequenceTrans(porColor, porSubcategoria, productos);
    SubsequenceTrans(porTalla, porColor, productos);
    SubsequenceTrans(filtrados, porTalla, productos);
    StagesKeep(f, productos, porCategoria, porSubcategoria, porColor, porTalla, filtrados);
  }

  /** The five stages of the filter effect, one after another, keep every occurrence of
      exactly the products that pass `Keep`. */
  lemma StagesKeep(f: Filters, s0: seq<Product>, s1: seq<Product>, s2: seq<Product>,
                   s3: seq<Product>, s4: seq<Product>, s5: seq<Product>)
    requires s1 == Stage(s0, Active(f.categoria), InCategory(f.categoria.GetOr(0)))
    requires s2 == Stage(s1, Active(f.subcategoria), InSubcategory(f.subcategoria.GetOr(0)))
    requires s3 == Stage(s2, Active(f.color), WithColor(f.color.GetOr(0)))
    requires s4 == Stage(s3, Active(f.talla), WithSize(f.talla.GetOr(0)))
    requires s5 == Stage(s4, true, InPriceRange(f.precioMin, f.precioMax))
    ensures forall p :: p in s5 <==> p in s0 && Keep(f, p)
    ensures forall p :: multiset(s5)[p] == if Keep(f, p) then multiset(s0)[p] else 0
  {
    forall p
      ensures multiset(s5)[p] == if Keep(f, p) then multiset(s0)[p] else 0
    {
      assert multiset(s1)[p] == if Active(f.categoria) ==> InCategory(f.categoria.GetOr(0))(p) then multiset(s0)[p] else 0;
      assert multiset(s2)[p] == if Active(f.subcategoria) ==> InSubcategory(f.subcategoria.GetOr(0))(p) then multiset(s1)[p] else 0;
      assert multiset(s3)[p] == if Active(f.color) ==> WithColor(f.color.GetOr(0))(p) then multiset(s2)[p] else 0;
      assert multiset(s4)[p] == if Active(f.talla) ==> WithSize(f.talla.GetOr(0))(p) then multiset(s3)[p] else 0;
    }
  }

  /** The price bounds are inclusive: a product that passes the other filters is kept
      exactly when `precioMin <= precio <= precioMax`. */
  lemma PriceRangeInclusive(f: Filters, p: Product)
    requires Keep(f.(precioMin := p.precio, precioMax := p.precio), p)
    ensures Keep(f, p) <==> f.precioMin <= p.precio <= f.precioMax
  {
  }

  // ---------------------------------------------------------------- filter buttons

  /** Clicking a category (subcategory, colour, size) button. */
  function ClickCategoria(f: Filters, id: int): Filters { f.(categoria := Toggle(f.categoria, id)) }
  function ClickSubcategoria(f: Filters, id: int): Filters { f.(subcategoria := Toggle(f.subcategoria, id)) }
  function ClickColor(f: Filters, id: int): Filters { f.(color := Toggle(f.color, id)) }
  function ClickTalla(f: Filters, id: int): Filters { f.(talla := Toggle(f.talla, id)) }

  /** Moving the price slider: only the upper bound changes. */
  function SetPrecioMax(f: Filters, v: real): Filters { f.(precioMax := v) }

  /** The "clear" buttons: no ids, and the price range back to `[0, precioMaximo]`. */
  function ClearFilters(precioMaximo: real): Filters
  {
    Filters(None, None, None, None, 0.0, precioMaximo)
  }

  /** The price-only reset button of the price panel: the range back to `[0, precioMaximo]`,
      the id filters untouched. */
  function ResetPrecio(f: Filters, precioMaximo: real): Filters
  {
    f.(precioMin := 0.0, precioMax := precioMaximo)
  }

  /** The condition under which the "clear all filters" button is shown. */
  predicate ShowClear(f: Filters, precioMaximo: real)
  {
    Active(f.categoria) || Active(f.subcategoria) || Active(f.color) || Active(f.talla)
    || f.precioMin > 0.0 || f.precioMax < precioMaximo
  }

  /** Each button changes its own filter only: clicking the selected id clears it and
      clicking another selects it. */
  lemma ClickSpec(f: Filters, id: int)
    ensures var g := ClickCategoria(f, id);
      g.(categoria := f.categoria) == f && (g.categoria == None <==> f.categoria == Some(id))
      && (f.categoria != Some(id) ==> g.categoria == Some(id))
    ensures var g := ClickSubcategoria(f, id);
      g.(subcategoria := f.subcategoria) == f && (g.subcategoria == None <==> f.subcategoria == Some(id))
    ensures var g := ClickColor(f, id);
      g.(color := f.color) == f && (g.color == None <==> f.color == Some(id))
    ensures var g := ClickTalla(f, id);
      g.(talla := f.talla) == f && (g.talla == None <==> f.talla == Some(id))
    ensures SetPrecioMax(f, id as real).(precioMax := f.precioMax) == f
  {
    ToggleSpec(f.categoria, id);
    ToggleSpec(f.subcategoria, id);
    ToggleSpec(f.color, id);
    ToggleSpec(f.talla, id);
  }

  /** After clearing, the clear button is hidden and every product priced within
      `[0, precioMaximo]` is shown. */
  lemma ClearFiltersSpec(precioMaximo: real, p: Product)
    ensures !ShowClear(ClearFilters(precioMaximo), precioMaximo)
    ensures Keep(ClearFilters(precioMaximo), p) <==> 0.0 <= p.precio <= precioMaximo
  {
  }

  /** The price reset keeps every id filter, so the clear button stays exactly when one of
      them is set; a product is then kept exactly when it passes the id filters and its
      price lies in `[0, precioMaximo]`. */
  lemma ResetPrecioSpec(f: Filters, precioMaximo: real, p: Product)
    ensures var g := ResetPrecio(f, precioMaximo);
      g.categoria == f.categoria && g.subcategoria == f.subcategoria
      && g.color == f.color && g.talla == f.talla
    ensures ShowClear(ResetPrecio(f, precioMaximo), precioMaximo) <==>
      Active(f.categoria) || Active(f.subcategoria) || Active(f.color) || Active(f.talla)
    ensures Keep(ResetPrecio(f, precioMaximo), p) <==>
      Keep(f.(precioMin := p.precio, precioMax := p.precio), p) && 0.0 <= p.precio <= precioMaximo
  {
  }

  /** `subcategoriasFiltradas`: the selected category's subcategories, or all of them. */
  function SubcategoriasFiltradas(subcategorias: seq<Subcategory>, f: Filters): (r: seq<Subcategory>)
    ensures IsSubsequence(r, subcategorias)
    ensures Active(f.categoria) ==> forall s :: s in r <==> s in subcategorias && s.categoryId == f.categoria.value
    ensures !Active(f.categoria) ==> r == subcategorias
  {
    if Active(f.categoria) then
      var keep := (s: Subcategory) => s.categoryId == f.categoria.value;
      FilterIsSubsequence(subcategorias, keep);
      Filter(subcategorias, keep)
    else
      SubsequenceRefl(subcategorias);
      subcategorias
  }

  /** With a category selected, the reset keeps a selected subcategory exactly when it is
      offered among that category's subcategories. */
  lemma ResetKeepsOffered(f: Filters, subcategorias: seq<Subcategory>)
    requires Active(f.categoria) && Active(f.subcategoria)
    ensures ResetSubcategory(f, subcategorias) == f <==>
      exists s :: s in SubcategoriasFiltradas(subcategorias, f) && s.id == f.subcategoria.value
  {
    var r := SubcategoriasFiltradas(subcategorias, f);
    if SubcategoryBelongs(subcategorias, f.subcategoria.value, f.categoria.value) {
      var k :| 0 <= k < |subcategorias| && subcategorias[k].id == f.subcategoria.value
        && subcategorias[k].categoryId == f.categoria.value;
      assert subcategorias[k] in r;
    }
    if exists s :: s in r && s.id == f.subcategoria.value {
      var s :| s in r && s.id == f.subcategoria.value;
      var k :| 0 <= k < |subcategorias| && subcategorias[k] == s;
      assert SubcategoryBelongs(subcategorias, f.subcategoria.value, f.categoria.value);
    }
  }

  // ---------------------------------------------------------------- price range

  /** `Math.max(...precios)` of a non-empty list. */
  function MaxPrecio(productos: seq<Product>): (m: real)
    requires productos != []
    ensures forall k :: 0 <= k < |productos| ==> productos[k].precio <= m
    ensures exists k :: 0 <= k < |productos| && productos[k].precio == m
  {
    if |productos| == 1 then productos[0].precio
    else
      var rest := MaxPrecio(productos[1..]);
      assert forall k :: 1 <= k < |productos| ==> productos[k] == productos[1..][k - 1];
      if productos[0].precio >= rest then productos[0].precio else rest
  }

  /** `precioMaximo` after loading: the highest price when it is positive, 50000 otherwise
      (also for an empty list, whose `Math.max` is `-Infinity`). */
  function PrecioMaximo(productos: seq<Product>): (m: real)
    ensures m > 0.0
    ensures (exists k :: 0 <= k < |productos| && productos[k].precio > 0.0) ==>
      (forall k :: 0 <= k < |productos| ==> productos[k].precio <= m)
      && exists k :: 0 <= k < |productos| && productos[k].precio == m
    ensures (forall k :: 0 <= k < |productos| ==> productos[k].precio <= 0.0) ==> m == 50000.0
  {
    if productos == [] then 50000.0
    else if MaxPrecio(productos) > 0.0 then MaxPrecio(productos)
    else 50000.0
  }

  /** The filters right after loading. */
  function LoadedFilters(productos: seq<Product>): Filters
  {
    ClearFilters(PrecioMaximo(productos))
  }

  /** With non-negative prices, the filters set after loading keep every product. */
  lemma LoadedFiltersKeepAll(productos: seq<Product>)
    requires forall k :: 0 <= k < |productos| ==> productos[k].precio >= 0.0
    ensures forall k :: 0 <= k < |productos| ==> Keep(LoadedFilters(productos), productos[k])
  {
    var m := PrecioMaximo(productos);
    if !exists k :: 0 <= k < |productos| && productos[k].precio > 0.0 {
      assert forall k :: 0 <= k < |productos| ==> productos[k].precio <= 0.0;
    }
  }

  // ---------------------------------------------------------------- stock counts

  datatype Dimension = ByColor | BySize

  function KeyOf(v: Variant, d: Dimension): int
  {
    if d == ByColor then v.colorId else v.sizeId
  }

  /** Number of variants in `vs` with stock whose colour (or size) is `id`. */
  function VariantCount(vs: seq<Variant>, d: Dimension, id: int): nat
  {
    if vs == [] then 0
    else
      var last := vs[|vs| - 1];
      VariantCount(vs[..|vs| - 1], d, id) + (if last.stock > 0 && KeyOf(last, d) == id then 1 else 0)
  }

  /** Number of variants with stock of colour (or size) `id`, across all products. */
  function StockCount(ps: seq<Product>, d: Dimension, id: int): nat
  {
    if ps == [] then 0 else StockCount(ps[..|ps| - 1], d, id) + VariantCount(ps[|ps| - 1].variantes, d, id)
  }

  /** `conteo.get(id) || 0`. */
  function Get(m: map<int, int>, id: int): int
  {
    if id in m then m[id] else 0
  }

  /** The map and set built so far agree with the counts over `ps` plus the variants `vs` of
      the product being visited. */
  ghost predicate Tallied(m: map<int, int>, used: set<int>, ps: seq<Product>, vs: seq<Variant>, d: Dimension)
  {
    used == m.Keys
    && (forall id :: Get(m, id) == StockCount(ps, d, id) + VariantCount(vs, d, id))
    && (forall id :: id in m ==> m[id] >= 1)
  }

  /** The nested `forEach` over products and variants that builds `usadosColores`,
      `conteoColores`, `usadasTallas` and `conteoTallas`. */
  method ContarVariantes(productos: seq<Product>)
    returns (usadosColores: set<int>, conteoColores: map<int, int>, usadasTallas: set<int>, conteoTallas: map<int, int>)
    ensures usadosColores == conteoColores.Keys && usadasTallas == conteoTallas.Keys
    ensures forall id :: Get(conteoColores, id) == StockCount(productos, ByColor, id)
    ensures forall id :: Get(conteoTallas, id) == StockCount(productos, BySize, id)
    ensures forall id :: id in conteoColores <==> StockCount(productos, ByColor, id) > 0
    ensures forall id :: id in conteoTallas <==> StockCount(productos, BySize, id) > 0
  {
    usadosColores, conteoColores, usadasTallas, conteoTallas := {}, map[], {}, map[];
    var i := 0;
    while i < |productos|
      invariant 0 <= i <= |productos|
      invariant Tallied(conteoColores, usadosColores, productos[..i], [], ByColor)
      invariant Tallied(conteoTallas, usadasTallas, productos[..i], [], BySize)
    {
      var vs := productos[i].variantes;
      var j := 0;
      while j < |vs|
        invariant 0 <= j <= |vs|
        invariant Tallied(conteoColores, usadosColores, productos[..i], vs[..j], ByColor)
        invariant Tallied(conteoTallas, usadasTallas, productos[..i], vs[..j], BySize)
      {
        var v := vs[j];
        TallyVariant(conteoColores, usadosColores, productos[..i], vs, j, ByColor);
        TallyVariant(conteoTallas, usadasTallas, productos[..i], vs, j, BySize);
        if v.stock > 0 {
          usadosColores := usadosColores + {v.colorId};
          conteoColores := conteoColores[v.colorId := Get(conteoColores, v.colorId) + 1];
          usadasTallas := usadasTallas + {v.sizeId};
          conteoTallas := conteoTallas[v.sizeId := Get(conteoTallas, v.sizeId) + 1];
        }
        j := j + 1;
      }
      TallyProduct(conteoColores, usadosColores, productos, i, ByColor);
      TallyProduct(conteoTallas, usadasTallas, productos, i, BySize);
      i := i + 1;
    }
    assert productos[..i] == productos;
  }

  /** One inner-loop step: counting variant `vs[j]` keeps the tally. */
  lemma TallyVariant(m: map<int, int>, used: set<int>, ps: seq<Product>, vs: seq<Variant>, j: int, d: Dimension)
    requires 0 <= j < |vs|
    requires Tallied(m, used, ps, vs[..j], d)
    ensures var v := vs[j];
      if v.stock > 0 then Tallied(m[KeyOf(v, d) := Get(m, KeyOf(v, d)) + 1], used + {KeyOf(v, d)}, ps, vs[..j + 1], d)
      else Tallied(m, used, ps, vs[..j + 1], d)
  {
    assert vs[..j + 1][..j] == vs[..j];
  }

  /** Leaving the inner loop: the visited product moves into the counted prefix. */
  lemma TallyProduct(m: map<int, int>, used: set<int>, ps: seq<Product>, i: int, d: Dimension)
    requires 0 <= i < |ps|
    requires Tallied(m, used, ps[..i], ps[i].variantes[..|ps[i].variantes|], d)
    ensures Tallied(m, used, ps[..i + 1], [], d)
  {
    assert ps[i].variantes[..|ps[i].variantes|] == ps[i].variantes;
    assert ps[..i + 1][..i] == ps[..i];
  }

  /** A colour (or size) has a positive count exactly when some product has a variant of it
      with stock. */
  lemma {:induction false} StockCountPositive(ps: seq<Product>, d: Dimension, id: int)
    ensures StockCount(ps, d, id) > 0 <==>
      exists k, v :: 0 <= k < |ps| && v in ps[k].variantes && KeyOf(v, d) == id && v.stock > 0
  {
    if ps != [] {
      var n := |ps| - 1;
      StockCountPositive(ps[..n], d, id);
      VariantCountPositive(ps[n].variantes, d, id);
      assert forall k :: 0 <= k < n ==> ps[..n][k] == ps[k];
    }
  }

  lemma {:induction false} VariantCountPositive(vs: seq<Variant>, d: Dimension, id: int)
    ensures VariantCount(vs, d, id) > 0 <==> exists v :: v in vs && KeyOf(v, d) == id && v.stock > 0
  {
    if vs != [] {
      var n := |vs| - 1;
      VariantCountPositive(vs[..n], d, id);
      assert vs == vs[..n] + [vs[n]];
    }
  }

  /** A list entry with its count. */
  datatype Counted<T> = Counted(item: T, conteo: int)

  /** `coloresConConteo` / `tallasConConteo`: the entries of the palette whose id was used,
      in palette order, each with its count. */
  function WithCounts<T(!new)>(items: seq<T>, idOf: T -> int, used: set<int>, conteo: map<int, int>): (r: seq<Counted<T>>)
    ensures |r| <= |items|
    ensures forall k :: 0 <= k < |r| ==>
      r[k].item in items && idOf(r[k].item) in used && r[k].conteo == Get(conteo, idOf(r[k].item))
    ensures forall x :: x in items && idOf(x) in used ==> exists k :: 0 <= k < |r| && r[k].item == x
  {
    if items == [] then []
    else
      var rest := WithCounts(items[1..], idOf, used, conteo);
      var head := if idOf(items[0]) in used then [Counted(items[0], Get(conteo, idOf(items[0])))] else [];
      var r := head + rest;
      assert forall k :: |head| <= k < |r| ==> r[k] == rest[k - |head|];
      forall x | x in items && idOf(x) in used
        ensures exists k :: 0 <= k < |r| && r[k].item == x
      {
        if x == items[0] {
          assert r[0].item == x;
        } else {
          assert x in items[1..];
          var k :| 0 <= k < |rest| && rest[k].item == x;
          assert r[k + |head|].item == x;
        }
      }
      r
  }

  /** The palette filter of `coloresConConteo` / `tallasConConteo`. */
  function UsedIn<T>(idOf: T -> int, used: set<int>): T -> bool
  {
    (x: T) => idOf(x) in used
  }

  /** The listed entries are, position by position, the palette filtered by use: palette
      order is kept, and each palette entry is listed as often as it occurs there. */
  lemma {:induction false} WithCountsFilter<T(!new)>(items: seq<T>, idOf: T -> int, used: set<int>, conteo: map<int, int>)
    ensures var r := WithCounts(items, idOf, used, conteo);
      var listed := Filter(items, UsedIn(idOf, used));
      |r| == |listed| && forall k :: 0 <= k < |r| ==> r[k].item == listed[k]
  {
    if items != [] {
      WithCountsFilter(items[1..], idOf, used, conteo);
    }
  }

  function ColorId(): Color -> int { (c: Color) => c.id }
  function SizeId(): Size -> int { (s: Size) => s.id }

  /** Listed colours are exactly the palette colours with a stocked variant, each shown with
      the number of such variants. */
  lemma ListedColors(productos: seq<Product>, cols: seq<Color>, used: set<int>, conteo: map<int, int>)
    requires used == conteo.Keys
    requires forall id :: Get(conteo, id) == StockCount(productos, ByColor, id)
    requires forall id :: id in conteo <==> StockCount(productos, ByColor, id) > 0
    ensures var r := WithCounts(cols, ColorId(), used, conteo);
      (forall k :: 0 <= k < |r| ==> r[k].conteo == StockCount(productos, ByColor, r[k].item.id) > 0)
      && forall c :: c in cols && StockCount(productos, ByColor, c.id) > 0 ==>
        exists k :: 0 <= k < |r| && r[k].item == c
    ensures var r := WithCounts(cols, ColorId(), used, conteo);
      var listed := Filter(cols, UsedIn(ColorId(), used));
      |r| == |listed| && forall k :: 0 <= k < |r| ==> r[k].item == listed[k]
  {
    WithCountsFilter(cols, ColorId(), used, conteo);
  }

  /** The same for sizes. */
  lemma ListedSizes(productos: seq<Product>, sizes: seq<Size>, used: set<int>, conteo: map<int, int>)
    requires used == conteo.Keys
    requires forall id :: Get(conteo, id) == StockCount(productos, BySize, id)
    requires forall id :: id in conteo <==> StockCount(productos, BySize, id) > 0
    ensures var r := WithCounts(sizes, SizeId(), used, conteo);
      (forall k :: 0 <= k < |r| ==> r[k].conteo == StockCount(productos, BySize, r[k].item.id) > 0)
      && forall s :: s in sizes && StockCount(productos, BySize, s.id) > 0 ==>
        exists k :: 0 <= k < |r| && r[k].item == s
    ensures var r := WithCounts(sizes, SizeId(), used, conteo);
      var listed := Filter(sizes, UsedIn(SizeId(), used));
      |r| == |listed| && forall k :: 0 <= k < |r| ==> r[k].item == listed[k]
  {
    WithCountsFilter(sizes, SizeId(), used, conteo);
  }

  // ---------------------------------------------------------------- category counts

  /** `productos.filter(p => p.category_id === id).length`. */
  function ConteoCategoria(productos: seq<Product>, id: int): (n: nat)
    ensures n <= |productos|
  {
    |Filter(productos, InCategory(id))|
  }

  /** `productos.filter(p => p.subcategory_id === id).length`. */
  function ConteoSubcategoria(productos: seq<Product>, id: int): (n: nat)
    ensures n <= |productos|
  {
    |Filter(productos, InSubcategory(id))|
  }

  /** `conteoCategorias`: every category, in order, with its product count. */
  function ConteoCategorias(categorias: seq<Category>, productos: seq<Product>): (r: seq<Counted<Category>>)
    ensures |r| == |categorias|
    ensures forall k :: 0 <= k < |r| ==> r[k].item == categorias[k] && r[k].conteo == ConteoCategoria(productos, categorias[k].id)
  {
    if categorias == [] then []
    else
      var rest := ConteoCategorias(categorias[1..], productos);
      assert forall k :: 1 <= k < |categorias| ==> categorias[k] == categorias[1..][k - 1];
      [Counted(categorias[0], ConteoCategoria(productos, categorias[0].id))] + rest
  }

  /** A category's count is positive exactly when some product is in it. */
  lemma {:induction false} ConteoCategoriaSpec(productos: seq<Product>, id: int)
    ensures ConteoCategoria(productos, id) > 0 <==> exists p :: p in productos && p.categoryId == id
  {
    var r := Filter(productos, InCategory(id));
    if |r| > 0 {
      assert r[0] in r;
    }
    if exists p :: p in productos && p.categoryId == id {
      var p :| p in productos && p.categoryId == id;
      assert p in r;
    }
  }

  // ---------------------------------------------------------------- presentation

  /** The three grid views. */
  datatype View = Grid | Large | Small

  /** `getColumnas`. */
  function Columnas(v: View): (n: nat)
    ensures 2 <= n <= 4
    ensures n == 4 <==> v == Small
    ensures n == 2 <==> v == Large
  {
    match v
    case Small => 4
    case Large => 2
    case Grid => 3
  }

  /** A hexadecimal digit and its value. */
  predicate IsHexDigit(c: char)
  {
    '0' <= c <= '9' || 'a' <= c <= 'f' || 'A' <= c <= 'F'
  }

  function HexDigit(c: char): (d: nat)
    requires IsHexDigit(c)
    ensures d < 16
  {
    if '0' <= c <= '9' then (c as int - '0' as int)
    else if 'a' <= c <= 'f' then (c as int - 'a' as int + 10)
    else (c as int - 'A' as int + 10)
  }

  /** `#rrggbb`. */
  predicate IsHexColor(s: string)
  {
    |s| == 7 && s[0] == '#' && forall k :: 1 <= k < 7 ==> IsHexDigit(s[k])
  }

  /** `parseInt(hex.substr(i, 2), 16)` on a well-formed colour. */
  function Channel(s: string, i: nat): (v: nat)
    requires IsHexColor(s) && i in {1, 3, 5}
    ensures v < 256
  {
    HexDigit(s[i]) * 16 + HexDigit(s[i + 1])
  }

  /** The weighted brightness sum r·299 + g·587 + b·114. */
  function Brightness(s: string): nat
    requires IsHexColor(s)
  {
    Channel(s, 1) * 299 + Channel(s, 3) * 587 + Channel(s, 5) * 114
  }

  /** `getContrastColor`: black text on a light swatch, white on a dark one. */
  function ContrastColor(hex: string): string
    requires IsHexColor(hex)
  {
    var yiq := Brightness(hex) as real / 1000.0;
    if yiq >= 128.0 then "#000" else "#fff"
  }

  /** The luminance test in integers: black exactly when the weighted sum reaches 128000. */
  lemma ContrastColorThreshold(hex: string)
    requires IsHexColor(hex)
    ensures ContrastColor(hex) == "#000" <==> Brightness(hex) >= 128000
    ensures ContrastColor(hex) == "#000" || ContrastColor(hex) == "#fff"
  {
    var b := Brightness(hex) as real;
    assert b / 1000.0 >= 128.0 <==> b >= 128000.0;
  }

  /** White gets black text and black gets white text. */
  lemma ContrastColorExtremes()
    ensures ContrastColor("#ffffff") == "#000"
    ensures ContrastColor("#000000") == "#fff"
  {
    ContrastColorThreshold("#ffffff");
    ContrastColorThreshold("#000000");
  }
}
