/** The profile service's rules, stated over the profile table as a value. */
module PerfilRules {
  import opened Domain
  import opened Store

  /** `listarTodos`: every stored profile; an empty table is not an error. */
  ghost function ListarTodos(perfiles: map<Id, Perfil>): (r: seq<Perfil>)
    ensures |r| == |perfiles|
    ensures forall k :: k in perfiles ==> perfiles[k] in r
    ensures forall p :: p in r ==> p in perfiles.Values
    ensures PerfilesKeyed(perfiles) ==> SinRepetidos(r)
  {
    assert PerfilesKeyed(perfiles) ==> Injective(perfiles);
    FindAll(perfiles)
  }

  /** `buscarPorId`: the stored profile, or `NotFound`; never an absent value. */
  function BuscarPorId(perfiles: map<Id, Perfil>, id: Id): (r: Result<Perfil>)
    ensures r.Ok? <==> id in perfiles
    ensures r.Ok? ==> r.value == perfiles[id]
    ensures PerfilesKeyed(perfiles) && r.Ok? ==> r.value.id == id
    ensures r.Err? ==> r.error == NotFound(PerfilNotFound)
  {
    if id in perfiles then Ok(perfiles[id]) else Err(NotFound(PerfilNotFound))
  }

  /** `grabar`: the profile is always stored, under the fresh identity
      `nuevoId`; neither uniqueness nor its customer is checked. */
  ghost function Grabar(perfiles: map<Id, Perfil>, nuevoId: Id, perfil: Perfil): (r: map<Id, Perfil>)
    requires nuevoId !in perfiles
    ensures Inserted(perfiles, r, nuevoId, perfil.(id := nuevoId))
  {
    perfiles[nuevoId := perfil.(id := nuevoId)]
  }

  /** `actualizar`: a missing profile is reported; otherwise only the
      preferences change, the id and the customer are kept. */
  ghost function Actualizar(perfiles: map<Id, Perfil>, id: Id, perfil: Perfil): (r: Result<map<Id, Perfil>>)
    ensures r.Err? <==> id !in perfiles
    ensures r.Err? ==> r.error == NotFound(PerfilNotFound)
    ensures r.Ok? ==> Replaced(perfiles, r.value, id, perfiles[id].(preferencias := perfil.preferencias))
    ensures r.Ok? ==> r.value[id].preferencias == perfil.preferencias && r.value[id].cliente == perfiles[id].cliente
  {
    match BuscarPorId(perfiles, id)
    case Err(e) => Err(e)
    case Ok(existente) => Ok(perfiles[id := existente.(preferencias := perfil.preferencias)])
  }

  /** `eliminar`: a missing profile is reported; otherwise that profile is
      removed unconditionally. */
  ghost function Eliminar(perfiles: map<Id, Perfil>, id: Id): (r: Result<map<Id, Perfil>>)
    ensures r.Err? <==> id !in perfiles
    ensures r.Err? ==> r.error == NotFound(PerfilNotFound)
    ensures r.Ok? ==> Removed(perfiles, r.value, id)
  {
    match BuscarPorId(perfiles, id)
    case Err(e) => Err(e)
    case Ok(existente) => Ok(perfiles - {id})
  }

  /** A customer can be given any number of profiles: `grabar` stores a
      second profile for a customer that already has one. */
  lemma GrabarAdmiteSegundoPerfil(perfiles: map<Id, Perfil>, nuevoId: Id, perfil: Perfil, otro: Id)
    requires nuevoId !in perfiles && otro in perfiles
    requires perfil.cliente.Some? && perfiles[otro].cliente == perfil.cliente
    ensures var after := Grabar(perfiles, nuevoId, perfil);
            otro in after && nuevoId in after && otro != nuevoId && after[otro].cliente == after[nuevoId].cliente
  {
  }
}

/** The profile service's operations, updating the profile table in place. */
module PerfilService {
  import opened Domain
  import opened Store
  import PerfilRules

  method Grabar(db: Db, perfil: Perfil) returns (r: Perfil)
    requires db.Valid()
    modifies db`perfiles, db`nextPerfilId
    ensures db.Valid()
    ensures db.perfiles == PerfilRules.Grabar(old(db.perfiles), old(db.nextPerfilId), perfil)
    ensures r == db.perfiles[old(db.nextPerfilId)]
    ensures db.nextPerfilId == old(db.nextPerfilId) + 1
  {
    r := perfil.(id := db.nextPerfilId);
    db.perfiles := db.perfiles[r.id := r];
    db.nextPerfilId := db.nextPerfilId + 1;
  }

  method Actualizar(db: Db, id: Id, perfil: Perfil) returns (r: Result<Perfil>)
    requires db.Valid()
    modifies db`perfiles
    ensures db.Valid()
    ensures var s := PerfilRules.Actualizar(old(db.perfiles), id, perfil);
      && (s.Ok? ==> db.perfiles == s.value && r == Ok(db.perfiles[id]))
      && (s.Err? ==> db.perfiles == old(db.perfiles) && r == Err(s.error))
  {
    var encontrado := PerfilRules.BuscarPorId(db.perfiles, id);
    if encontrado.Err? {
      return Err(encontrado.error);
    }
    var existente := encontrado.value.(preferencias := perfil.preferencias);
    db.perfiles := db.perfiles[existente.id := existente];
    r := Ok(existente);
  }

  method Eliminar(db: Db, id: Id) returns (r: Result<()>)
    requires db.Valid()
    modifies db`perfiles
    ensures db.Valid()
    ensures var s := PerfilRules.Eliminar(old(db.perfiles), id);
      && (s.Ok? ==> db.perfiles == s.value && r == Ok(()))
      && (s.Err? ==> db.perfiles == old(db.perfiles) && r == Err(s.error))
  {
    var encontrado := PerfilRules.BuscarPorId(db.perfiles, id);
    if encontrado.Err? {
      return Err(encontrado.error);
    }
    db.perfiles := db.perfiles - {encontrado.value.id};
    r := Ok(());
  }
}
