/** The customer service's rules, stated over the customer table as a value:
    what each operation returns and what table it leaves behind. */
module ClienteRules {
  import opened Domain
  import opened Store

  /** `listarTodos`: every stored customer; an empty table is not an error. */
  ghost function ListarTodos(clientes: map<Id, Cliente>): (r: seq<Cliente>)
    ensures |r| == |clientes|
    ensures forall k :: k in clientes ==> clientes[k] in r
    ensures forall c :: c in r ==> c in clientes.Values
    ensures ClientesKeyed(clientes) ==> SinRepetidos(r)
  {
    assert ClientesKeyed(clientes) ==> Injective(clientes);
    FindAll(clientes)
  }

  /** `buscarPorId`: the stored customer, or `NotFound`; never an absent value. */
  function BuscarPorId(clientes: map<Id, Cliente>, id: Id): (r: Result<Cliente>)
    ensures r.Ok? <==> id in clientes
    ensures r.Ok? ==> r.value == clientes[id]
    ensures ClientesKeyed(clientes) && r.Ok? ==> r.value.id == id
    ensures r.Err? ==> r.error == NotFound(ClienteNotFound)
  {
    if id in clientes then Ok(clientes[id]) else Err(NotFound(ClienteNotFound))
  }

  /** Some stored customer is called `nombre`. */
  predicate NombreEnUso(clientes: map<Id, Cliente>, nombre: string) {
    exists k :: k in clientes && clientes[k].nombre == nombre
  }

  /** The customers of `cs` called `nombre`, in the order of `cs`. */
  ghost function ConNombre(cs: seq<Cliente>, nombre: string): (r: seq<Cliente>)
    ensures |r| <= |cs|
    ensures forall c :: c in r <==> c in cs && c.nombre == nombre
  {
    if cs == [] then []
    else (if cs[0].nombre == nombre then [cs[0]] else []) + ConNombre(cs[1..], nombre)
  }

  /** `buscarPorNombre` (the repository's `findByNombre`): exactly the stored
      customers whose name equals `nombre`; possibly none. */
  ghost function BuscarPorNombre(clientes: map<Id, Cliente>, nombre: string): (r: seq<Cliente>)
    ensures forall c :: c in r <==> c in clientes.Values && c.nombre == nombre
    ensures r == [] <==> !NombreEnUso(clientes, nombre)
  {
    var r := ConNombre(ListarTodos(clientes), nombre);
    assert NombreEnUso(clientes, nombre) ==> r != [] by {
      if NombreEnUso(clientes, nombre) {
        var k :| k in clientes && clientes[k].nombre == nombre;
        assert clientes[k] in r;
      }
    }
    assert r != [] ==> NombreEnUso(clientes, nombre) by {
      if r != [] {
        assert r[0] in r;
        var k :| k in clientes && clientes[k] == r[0];
      }
    }
    r
  }

  /** `grabar`: refused when some customer already has the name; otherwise the
      customer is stored under the fresh identity `nuevoId`. */
  ghost function Grabar(clientes: map<Id, Cliente>, nuevoId: Id, cliente: Cliente): (r: Result<map<Id, Cliente>>)
    requires nuevoId !in clientes
    ensures r.Err? <==> NombreEnUso(clientes, cliente.nombre)
    ensures r.Err? ==> r.error == IllegalOperation(NombreDuplicado)
    ensures r.Ok? ==> Inserted(clientes, r.value, nuevoId, cliente.(id := nuevoId))
  {
    if BuscarPorNombre(clientes, cliente.nombre) != [] then Err(IllegalOperation(NombreDuplicado))
    else Ok(clientes[nuevoId := cliente.(id := nuevoId)])
  }

  /** `actualizar`: a missing id is reported first; then the new name is refused
      if ANY customer has it, the updated customer included; otherwise the
      argument, with its id set to `id`, replaces the stored customer. */
  ghost function Actualizar(clientes: map<Id, Cliente>, id: Id, cliente: Cliente): (r: Result<map<Id, Cliente>>)
    ensures r == Err(NotFound(ClienteNotFound)) <==> id !in clientes
    ensures r == Err(IllegalOperation(NombreDuplicado)) <==> id in clientes && NombreEnUso(clientes, cliente.nombre)
    ensures r.Ok? <==> id in clientes && !NombreEnUso(clientes, cliente.nombre)
    ensures r.Ok? ==> Replaced(clientes, r.value, id, cliente.(id := id))
  {
    if BuscarPorId(clientes, id).Err? then Err(NotFound(ClienteNotFound))
    else if BuscarPorNombre(clientes, cliente.nombre) != [] then Err(IllegalOperation(NombreDuplicado))
    else
      var guardado := cliente.(id := id);
      Ok(clientes[guardado.id := guardado])
  }

  /** `eliminar`: a missing id is reported first; a customer some order still
      refers to is refused; otherwise exactly that customer is removed. */
  ghost function Eliminar(clientes: map<Id, Cliente>, pedidos: map<Id, Pedido>, id: Id): (r: Result<map<Id, Cliente>>)
    ensures r == Err(NotFound(ClienteNotFound)) <==> id !in clientes
    ensures r == Err(IllegalOperation(ClienteConPedidos)) <==>
              id in clientes && exists k :: k in pedidos && pedidos[k].cliente == Some(id)
    ensures r.Ok? <==> id in clientes && PedidosDeCliente(pedidos, id) == {}
    ensures r.Ok? ==> Removed(clientes, r.value, id)
  {
    if BuscarPorId(clientes, id).Err? then Err(NotFound(ClienteNotFound))
    else if PedidosDeCliente(pedidos, id) != {} then Err(IllegalOperation(ClienteConPedidos))
    else
      assert forall k :: k in pedidos ==> k !in PedidosDeCliente(pedidos, id);
      Ok(clientes - {id})
  }

  /** No two stored customers share a name. */
  ghost predicate NombresUnicos(clientes: map<Id, Cliente>) {
    forall j, k :: j in clientes && k in clientes && j != k ==> clientes[j].nombre != clientes[k].nombre
  }

  lemma GrabarConservaNombresUnicos(clientes: map<Id, Cliente>, nuevoId: Id, cliente: Cliente)
    requires nuevoId !in clientes && NombresUnicos(clientes)
    requires Grabar(clientes, nuevoId, cliente).Ok?
    ensures NombresUnicos(Grabar(clientes, nuevoId, cliente).value)
  {
    var after := Grabar(clientes, nuevoId, cliente).value;
    forall j, k | j in after && k in after && j != k
      ensures after[j].nombre != after[k].nombre
    {
      if j == nuevoId {
        assert !(k in clientes && clientes[k].nombre == cliente.nombre);
      } else if k == nuevoId {
        assert !(j in clientes && clientes[j].nombre == cliente.nombre);
      }
    }
  }

  lemma ActualizarConservaNombresUnicos(clientes: map<Id, Cliente>, id: Id, cliente: Cliente)
    requires NombresUnicos(clientes)
    requires id in clientes && !NombreEnUso(clientes, cliente.nombre)
    ensures Actualizar(clientes, id, cliente).Ok?
    ensures NombresUnicos(Actualizar(clientes, id, cliente).value)
  {
    var after := Actualizar(clientes, id, cliente).value;
    forall j, k | j in after && k in after && j != k
      ensures after[j].nombre != after[k].nombre
    {
      if j == id {
        assert !(k in clientes && clientes[k].nombre == cliente.nombre);
      } else if k == id {
        assert !(j in clientes && clientes[j].nombre == cliente.nombre);
      }
    }
  }

  /** Updating a customer without changing its name is refused, because the
      name check does not exclude the customer being updated. */
  lemma ActualizarRechazaNombrePropio(clientes: map<Id, Cliente>, id: Id, cliente: Cliente)
    requires id in clientes && cliente.nombre == clientes[id].nombre
    ensures Actualizar(clientes, id, cliente) == Err(IllegalOperation(NombreDuplicado))
  {
    assert NombreEnUso(clientes, cliente.nombre);
  }

  /** Removing a customer no order refers to keeps every order's customer
      reference resolvable. */
  lemma EliminarConservaReferencias(clientes: map<Id, Cliente>, pedidos: map<Id, Pedido>, id: Id)
    requires ClientesReferenciados(pedidos, clientes)
    requires Eliminar(clientes, pedidos, id).Ok?
    ensures ClientesReferenciados(pedidos, Eliminar(clientes, pedidos, id).value)
  {
    var after := Eliminar(clientes, pedidos, id).value;
    forall k | k in pedidos && pedidos[k].cliente.Some?
      ensures pedidos[k].cliente.value in after
    {
      assert pedidos[k].cliente != Some(id);
    }
  }

  /** A stored customer no order refers to is removed, and looking it up
      afterwards fails with `NotFound`. */
  lemma EliminarLuegoNoEncontrado(clientes: map<Id, Cliente>, pedidos: map<Id, Pedido>, id: Id)
    requires id in clientes && forall k :: k in pedidos ==> pedidos[k].cliente != Some(id)
    ensures Eliminar(clientes, pedidos, id).Ok?
    ensures BuscarPorId(Eliminar(clientes, pedidos, id).value, id) == Err(NotFound(ClienteNotFound))
  {
  }
}

/** The customer service's operations, updating the customer table in place. */
module ClienteService {
  import opened Domain
  import opened Store
  import ClienteRules

  method Grabar(db: Db, cliente: Cliente) returns (r: Result<Cliente>)
    requires db.Valid()
    modifies db`clientes, db`nextClienteId
    ensures db.Valid()
    ensures var s := ClienteRules.Grabar(old(db.clientes), old(db.nextClienteId), cliente);
      && (s.Ok? ==> db.clientes == s.value && r == Ok(db.clientes[old(db.nextClienteId)]))
      && (s.Err? ==> db.clientes == old(db.clientes) && r == Err(s.error))
    ensures db.nextClienteId == if r.Ok? then old(db.nextClienteId) + 1 else old(db.nextClienteId)
  {
    if ClienteRules.NombreEnUso(db.clientes, cliente.nombre) {
      return Err(IllegalOperation(NombreDuplicado));
    }
    var guardado := cliente.(id := db.nextClienteId);
    db.clientes := db.clientes[guardado.id := guardado];
    db.nextClienteId := db.nextClienteId + 1;
    r := Ok(guardado);
  }

  method Actualizar(db: Db, id: Id, cliente: Cliente) returns (r: Result<Cliente>)
    requires db.Valid()
    modifies db`clientes
    ensures db.Valid()
    ensures var s := ClienteRules.Actualizar(old(db.clientes), id, cliente);
      && (s.Ok? ==> db.clientes == s.value && r == Ok(db.clientes[id]))
      && (s.Err? ==> db.clientes == old(db.clientes) && r == Err(s.error))
  {
    var encontrado := ClienteRules.BuscarPorId(db.clientes, id);
    if encontrado.Err? {
      return Err(encontrado.error);
    }
    if ClienteRules.NombreEnUso(db.clientes, cliente.nombre) {
      return Err(IllegalOperation(NombreDuplicado));
    }
    var guardado := cliente.(id := id);
    db.clientes := db.clientes[guardado.id := guardado];
    r := Ok(guardado);
  }

  method Eliminar(db: Db, id: Id) returns (r: Result<()>)
    requires db.Valid()
    modifies db`clientes
    ensures db.Valid()
    ensures var s := ClienteRules.Eliminar(old(db.clientes), db.pedidos, id);
      && (s.Ok? ==> db.clientes == s.value && r == Ok(()))
      && (s.Err? ==> db.clientes == old(db.clientes) && r == Err(s.error))
  {
    var encontrado := ClienteRules.BuscarPorId(db.clientes, id);
    if encontrado.Err? {
      return Err(encontrado.error);
    }
    if PedidosDeCliente(db.pedidos, id) != {} {
      return Err(IllegalOperation(ClienteConPedidos));
    }
    db.clientes := db.clientes - {id};
    r := Ok(());
  }
}
