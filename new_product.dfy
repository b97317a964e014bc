/** The new product page (`src/app/admin/productos/nuevo/page.tsx`): the subcategory options
    offered for the chosen category, and the submit that inserts a product and resets the
    form on success. `numberOf` stands for JavaScript's `Number(text)`. */
module NewProduct {
  import opened Wrappers
  import opened Seqs
  import opened Decimal

  datatype Subcategory = Subcategory(id: int, nombre: string, categoryId: int)

  /** The form state; every field holds the text of its input or select. */
  datatype ProductForm = ProductForm(nombre: string, descripcion: string, precio: string,
                                     stock: string, categoryId: string, subcategoryId: string)
  datatype Field = Nombre | Descripcion | Precio | Stock | CategoryField | SubcategoryField

  const EmptyForm: ProductForm := ProductForm("", "", "", "", "", "")

  const MsgCreateFailed: string := "No se pudo crear el producto. Intenta de nuevo."

  /** The `products` row sent by the submit. */
  datatype ProductRow = ProductRow(nombre: string, descripcion: string, precio: real, stock: real,
                                   categoryId: Option<real>, subcategoryId: Option<real>)

  function OfCategory(selected: string): Subcategory -> bool
  {
    (s: Subcategory) => IntToString(s.categoryId) == selected
  }

  /** The subcategory options: `String(sub.category_id) === String(form.category_id)`. */
  function SubcategoryOptions(subs: seq<Subcategory>, selected: string): (r: seq<Subcategory>)
    ensures IsSubsequence(r, subs)
    ensures forall s :: s in r <==> s in subs && IntToString(s.categoryId) == selected
  {
    FilterIsSubsequence(subs, OfCategory(selected));
    Filter(subs, OfCategory(selected))
  }

  /** Choosing category `c` (whose option value is `String(c)`) offers exactly the
      subcategories of `c`; with no category chosen nothing is offered. */
  lemma SubcategoryOptionsSpec(subs: seq<Subcategory>, c: int)
    ensures forall s :: s in SubcategoryOptions(subs, IntToString(c)) <==> s in subs && s.categoryId == c
    ensures SubcategoryOptions(subs, "") == []
  {
    forall s: Subcategory
      ensures IntToString(s.categoryId) == IntToString(c) <==> s.categoryId == c
    {
      IntToStringInjective(s.categoryId, c);
    }
  }

  /** `text ? Number(text) : null`. */
  function NumberOrNull(text: string, numberOf: string -> real): (r: Option<real>)
    ensures r.None? <==> text == ""
    ensures r.Some? ==> r.value == numberOf(text)
  {
    if text == "" then None else Some(numberOf(text))
  }

  function Payload(f: ProductForm, numberOf: string -> real): ProductRow
  {
    ProductRow(f.nombre, f.descripcion, numberOf(f.precio), numberOf(f.stock),
               NumberOrNull(f.categoryId, numberOf), NumberOrNull(f.subcategoryId, numberOf))
  }

  /** The payload carries the texts as typed, the numbers parsed, and null exactly for an empty
      category or subcategory choice. */
  lemma PayloadSpec(f: ProductForm, numberOf: string -> real)
    ensures var p := Payload(f, numberOf);
      p.nombre == f.nombre && p.descripcion == f.descripcion
      && p.precio == numberOf(f.precio) && p.stock == numberOf(f.stock)
      && (p.categoryId.None? <==> f.categoryId == "")
      && (p.subcategoryId.None? <==> f.subcategoryId == "")
  {
  }

  class Page {
    var form: ProductForm
    var guardando: bool
    var error: Option<string>
    var exito: bool
    var inserts: seq<ProductRow>

    constructor ()
      ensures form == EmptyForm && !guardando && error == None && !exito && inserts == []
    {
      form := EmptyForm;
      guardando := false;
      error := None;
      exito := false;
      inserts := [];
    }

    /** `handleChange`: only the named field changes. */
    method HandleChange(name: Field, value: string)
      modifies this`form
      ensures form == match name
        case Nombre => old(form).(nombre := value)
        case Descripcion => old(form).(descripcion := value)
        case Precio => old(form).(precio := value)
        case Stock => old(form).(stock := value)
        case CategoryField => old(form).(categoryId := value)
        case SubcategoryField => old(form).(subcategoryId := value)
    {
      match name {
        case Nombre => form := form.(nombre := value);
        case Descripcion => form := form.(descripcion := value);
        case Precio => form := form.(precio := value);
        case Stock => form := form.(stock := value);
        case CategoryField => form := form.(categoryId := value);
        case SubcategoryField => form := form.(subcategoryId := value);
      }
    }

    /** `handleSubmit`, with the insert's answer given as `failed`. */
    method HandleSubmit(failed: bool, numberOf: string -> real)
      modifies this
      ensures inserts == old(inserts) + [Payload(old(form), numberOf)]
      ensures !guardando
      ensures failed ==> error == Some(MsgCreateFailed) && !exito && form == old(form)
      ensures !failed ==> error == None && exito && form == EmptyForm
    {
      guardando := true;
      error := None;
      exito := false;
      inserts := inserts + [Payload(form, numberOf)];
      if failed {
        error := Some(MsgCreateFailed);
      } else {
        exito := true;
        form := EmptyForm;
      }
      guardando := false;
    }
  }
}
