/** The user administration page (`src/app/admin/usuarios/page.tsx`): the search filter, the
    projection that `handleSave` sends, and the edit modal's form handlers. A user record is
    a map from column name to value; a missing key is a null or absent column. */
module AdminUsers {
  import opened Wrappers
  import opened Seqs
  import opened Text

  datatype Usuario = Usuario(id: int, fields: map<string, string>)

  /** `u.email?.toLowerCase().includes(q)` and the same for `nombre`. */
  predicate FieldMatches(u: Usuario, key: string, q: string)
  {
    key in u.fields && Includes(Lower(u.fields[key]), Lower(q))
  }

  predicate Matches(u: Usuario, q: string)
  {
    FieldMatches(u, "email", q) || FieldMatches(u, "nombre", q)
  }

  function MatchesQuery(q: string): Usuario -> bool
  {
    (u: Usuario) => Matches(u, q)
  }

  /** `usuariosFiltrados`. */
  function UsuariosFiltrados(usuarios: seq<Usuario>, busqueda: string): (r: seq<Usuario>)
    ensures IsSubsequence(r, usuarios)
    ensures forall u :: u in r <==> (u in usuarios &&
      (("email" in u.fields && Includes(Lower(u.fields["email"]), Lower(busqueda)))
       || ("nombre" in u.fields && Includes(Lower(u.fields["nombre"]), Lower(busqueda)))))
  {
    FilterIsSubsequence(usuarios, MatchesQuery(busqueda));
    Filter(usuarios, MatchesQuery(busqueda))
  }

  /** An empty search keeps every user with an email or a name, and only those. */
  lemma EmptySearch(usuarios: seq<Usuario>)
    ensures forall u :: u in UsuariosFiltrados(usuarios, "") <==>
      u in usuarios && ("email" in u.fields || "nombre" in u.fields)
  {
    forall u | u in usuarios
      ensures Matches(u, "") <==> "email" in u.fields || "nombre" in u.fields
    {
      if "email" in u.fields {
        IncludesEmpty(Lower(u.fields["email"]));
      }
      if "nombre" in u.fields {
        IncludesEmpty(Lower(u.fields["nombre"]));
      }
    }
  }

  /** The search does not depend on the letter case of the query. */
  lemma SearchCaseInsensitive(usuarios: seq<Usuario>, busqueda: string)
    ensures UsuariosFiltrados(usuarios, busqueda) == UsuariosFiltrados(usuarios, Lower(busqueda))
  {
    LowerIdempotent(busqueda);
    FilterExtensional(usuarios, MatchesQuery(busqueda), MatchesQuery(Lower(busqueda)));
  }

  /** The columns `handleSave` writes to `user_profiles`. */
  const ProfileFields: set<string> :=
    {"nombre", "apellido", "telefono", "codigo_postal", "provincia", "localidad", "direccion", "numeracion"}

  /** The update body of `handleSave`: the eight profile columns of the form (an undefined
      one is left out of the JSON body). */
  function SavePayload(form: map<string, string>): (p: map<string, string>)
    ensures p.Keys == form.Keys * ProfileFields
    ensures forall k :: k in p ==> p[k] == form[k]
  {
    map k | k in form.Keys * ProfileFields :: form[k]
  }

  /** Edits to the email, role and active flag, and the id itself, never reach the update. */
  lemma SavePayloadDropsOthers(form: map<string, string>, key: string, value: string)
    requires key !in ProfileFields
    ensures SavePayload(form[key := value]) == SavePayload(form)
    ensures "email" !in SavePayload(form) && "rol" !in SavePayload(form) && "activo" !in SavePayload(form)
  {
  }

  /** One update request: the payload and the id it is keyed by. */
  datatype Update = Update(id: int, payload: map<string, string>)

  const MsgSaveFailed: string := "Error al guardar cambios"

  /** `EditarUsuarioModal` wired to the page's `handleSave`. */
  class EditModal {
    const id: int
    var form: map<string, string>
    var guardando: bool
    var error: Option<string>
    var closed: bool
    /** The updates sent, in order. */
    var updates: seq<Update>

    constructor (usuario: Usuario)
      ensures id == usuario.id && form == usuario.fields
      ensures !guardando && error == None && !closed && updates == []
    {
      id := usuario.id;
      form := usuario.fields;
      guardando := false;
      error := None;
      closed := false;
      updates := [];
    }

    /** `handleChange`: only the named field changes. */
    method HandleChange(name: string, value: string)
      modifies this`form
      ensures form == old(form)[name := value]
      ensures forall k :: k in old(form) && k != name ==> k in form && form[k] == old(form)[k]
    {
      form := form[name := value];
    }

    /** `handleSubmit`, with the update's failure given as `saveFailed`: on failure the
        message is shown and the modal stays open. */
    method HandleSubmit(saveFailed: bool)
      modifies this`guardando, this`error, this`closed, this`updates
      ensures updates == old(updates) + [Update(id, SavePayload(form))]
      ensures !guardando
      ensures saveFailed ==> error == Some(MsgSaveFailed) && closed == old(closed)
      ensures !saveFailed ==> error == None && closed
    {
      guardando := true;
      error := None;
      updates := updates + [Update(id, SavePayload(form))];
      if saveFailed {
        error := Some(MsgSaveFailed);
      } else {
        closed := true;
      }
      guardando := false;
    }
  }
}
