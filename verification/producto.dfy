/** The product service's rules, stated over the product table as a value. */
module ProductoRules {
  import opened Domain
  import opened Store

  /** `listarTodos`: every stored product. */
  ghost function ListarTodos(productos: map<Id, Producto>): (r: seq<Producto>)
    ensures |r| == |productos|
    ensures forall k :: k in productos ==> productos[k] in r
    ensures forall p :: p in r ==> p in productos.Values
    ensures ProductosKeyed(productos) ==> SinRepetidos(r)
  {
    assert ProductosKeyed(productos) ==> Injective(productos);
    FindAll(productos)
  }

  /** `buscarPorId`: the stored product, or `NotFound`; never an absent value. */
  function BuscarPorId(productos: map<Id, Producto>, id: Id): (r: Result<Producto>)
    ensures r.Ok? <==> id in productos
    ensures r.Ok? ==> r.value == productos[id]
    ensures ProductosKeyed(productos) && r.Ok? ==> r.value.id == id
    ensures r.Err? ==> r.error == NotFound(ProductoNotFound)
  {
    if id in productos then Ok(productos[id]) else Err(NotFound(ProductoNotFound))
  }

  /** The repository's `findByNombre` is non-empty: some product has the name. */
  predicate NombreEnUso(productos: map<Id, Producto>, nombre: string) {
    exists k :: k in productos && productos[k].nombre == nombre
  }

  /** `grabar`: refused when a product already has the name; otherwise the
      product is stored under the fresh identity `nuevoId`. */
  ghost function Grabar(productos: map<Id, Producto>, nuevoId: Id, producto: Producto): (r: Result<map<Id, Producto>>)
    requires nuevoId !in productos
    ensures r.Err? <==> exists k :: k in productos && productos[k].nombre == producto.nombre
    ensures r.Err? ==> r.error == IllegalOperation(NombreDuplicado)
    ensures r.Ok? ==> Inserted(productos, r.value, nuevoId, producto.(id := nuevoId))
  {
    if NombreEnUso(productos, producto.nombre) then Err(IllegalOperation(NombreDuplicado))
    else Ok(productos[nuevoId := producto.(id := nuevoId)])
  }

  /** `actualizar`: a missing product is reported; otherwise name,
      description and price come from the argument while the id and the
      variant are kept. The new name is not checked for uniqueness. */
  ghost function Actualizar(productos: map<Id, Producto>, id: Id, producto: Producto): (r: Result<map<Id, Producto>>)
    ensures r.Err? <==> id !in productos
    ensures r.Err? ==> r.error == NotFound(ProductoNotFound)
    ensures r.Ok? ==> Replaced(productos, r.value, id,
                               producto.(id := productos[id].id, variante := productos[id].variante))
  {
    match BuscarPorId(productos, id)
    case Err(e) => Err(e)
    case Ok(existente) =>
      Ok(productos[id := existente.(nombre := producto.nombre, descripcion := producto.descripcion,
                                    precio := producto.precio)])
  }

  /** `eliminar`: a missing product is reported first; a product some order
      still lists is refused; otherwise exactly that product is removed. */
  ghost function Eliminar(productos: map<Id, Producto>, pedidos: map<Id, Pedido>, id: Id): (r: Result<map<Id, Producto>>)
    ensures r == Err(NotFound(ProductoNotFound)) <==> id !in productos
    ensures r == Err(IllegalOperation(ProductoConPedidos)) <==>
              id in productos && exists k :: k in pedidos && pedidos[k].productos.Some? && id in pedidos[k].productos.value
    ensures r.Ok? <==> id in productos && PedidosDeProducto(pedidos, id) == {}
    ensures r.Ok? ==> Removed(productos, r.value, id)
  {
    if id !in productos then Err(NotFound(ProductoNotFound))
    else if PedidosDeProducto(pedidos, id) != {} then Err(IllegalOperation(ProductoConPedidos))
    else
      assert forall k :: k in pedidos ==> k !in PedidosDeProducto(pedidos, id);
      Ok(productos - {id})
  }

  /** `asignarProductoAVariante`: the variant is looked up before the product;
      on success only the product's variant changes, to the variant found.
      Neither self-reference nor cycles are refused. */
  ghost function AsignarProductoAVariante(productos: map<Id, Producto>, idVariante: Id, idProducto: Id): (r: Result<map<Id, Producto>>)
    ensures r == Err(NotFound(VarianteNotFound)) <==> idVariante !in productos
    ensures r == Err(NotFound(ProductoNotFound)) <==> idVariante in productos && idProducto !in productos
    ensures r.Ok? <==> idVariante in productos && idProducto in productos
    ensures r.Ok? ==> Replaced(productos, r.value, idProducto, productos[idProducto].(variante := Some(idVariante)))
  {
    if idVariante !in productos then Err(NotFound(VarianteNotFound))
    else if idProducto !in productos then Err(NotFound(ProductoNotFound))
    else Ok(productos[idProducto := productos[idProducto].(variante := Some(idVariante))])
  }

  /** `crearVariante`: the record is always stored, under the fresh identity
      `nuevoId`, with no name check. */
  ghost function CrearVariante(productos: map<Id, Producto>, nuevoId: Id, variante: Producto): (r: map<Id, Producto>)
    requires nuevoId !in productos
    ensures Inserted(productos, r, nuevoId, variante.(id := nuevoId))
  {
    productos[nuevoId := variante.(id := nuevoId)]
  }

  // -------------------------------------------------------------- lemmas

  /** No two stored products share a name. */
  ghost predicate NombresUnicos(productos: map<Id, Producto>) {
    forall j, k :: j in productos && k in productos && j != k ==> productos[j].nombre != productos[k].nombre
  }

  lemma GrabarConservaNombresUnicos(productos: map<Id, Producto>, nuevoId: Id, producto: Producto)
    requires nuevoId !in productos && NombresUnicos(productos)
    requires Grabar(productos, nuevoId, producto).Ok?
    ensures NombresUnicos(Grabar(productos, nuevoId, producto).value)
  {
    var after := Grabar(productos, nuevoId, producto).value;
    forall j, k | j in after && k in after && j != k
      ensures after[j].nombre != after[k].nombre
    {
      if j == nuevoId {
        assert !(k in productos && productos[k].nombre == producto.nombre);
      } else if k == nuevoId {
        assert !(j in productos && productos[j].nombre == producto.nombre);
      }
    }
  }

  /** Where `grabar` refuses a taken name, `crearVariante` stores it, and the
      table then holds two products with that name. */
  lemma CrearVarianteAdmiteNombreRepetido(productos: map<Id, Producto>, nuevoId: Id, variante: Producto)
    requires nuevoId !in productos && NombreEnUso(productos, variante.nombre)
    ensures Grabar(productos, nuevoId, variante) == Err(IllegalOperation(NombreDuplicado))
    ensures !NombresUnicos(CrearVariante(productos, nuevoId, variante))
  {
    var k :| k in productos && productos[k].nombre == variante.nombre;
    var after := CrearVariante(productos, nuevoId, variante);
    assert after[k].nombre == after[nuevoId].nombre;
  }

  /** `actualizar` does not re-check names: renaming a product to another
      product's name succeeds and leaves a duplicate. */
  lemma ActualizarPuedeDuplicarNombre(productos: map<Id, Producto>, id: Id, otro: Id, producto: Producto)
    requires id in productos && otro in productos && id != otro
    requires producto.nombre == productos[otro].nombre
    ensures Actualizar(productos, id, producto).Ok?
    ensures !NombresUnicos(Actualizar(productos, id, producto).value)
  {
    var after := Actualizar(productos, id, producto).value;
    assert after[id].nombre == after[otro].nombre;
  }

  /** A product can be made its own variant. */
  lemma VariantePropia(productos: map<Id, Producto>, id: Id)
    requires id in productos
    ensures AsignarProductoAVariante(productos, id, id).Ok?
    ensures AsignarProductoAVariante(productos, id, id).value[id].variante == Some(id)
  {
  }

  /** Two assignments make two products each other's variant: a cycle. */
  lemma VariantesCiclicas(productos: map<Id, Producto>, a: Id, b: Id)
    requires a in productos && b in productos && a != b
    ensures var una := AsignarProductoAVariante(productos, a, b);
            una.Ok? &&
            var dos := AsignarProductoAVariante(una.value, b, a);
            dos.Ok? && dos.value[b].variante == Some(a) && dos.value[a].variante == Some(b)
  {
  }

  /** Removing a product no order lists keeps every order's product
      references resolvable. */
  lemma EliminarConservaReferencias(productos: map<Id, Producto>, pedidos: map<Id, Pedido>, id: Id)
    requires ProductosReferenciados(pedidos, productos)
    requires Eliminar(productos, pedidos, id).Ok?
    ensures ProductosReferenciados(pedidos, Eliminar(productos, pedidos, id).value)
  {
    var after := Eliminar(productos, pedidos, id).value;
    forall k, p | k in pedidos && pedidos[k].productos.Some? && p in pedidos[k].productos.value
      ensures p in after
    {
      assert p != id;
    }
  }
}

/** The product service's operations, updating the product table in place. */
module ProductoService {
  import opened Domain
  import opened Store
  import ProductoRules

  method Grabar(db: Db, producto: Producto) returns (r: Result<Producto>)
    requires db.Valid()
    modifies db`productos, db`nextProductoId
    ensures db.Valid()
    ensures var s := ProductoRules.Grabar(old(db.productos), old(db.nextProductoId), producto);
      && (s.Ok? ==> db.productos == s.value && r == Ok(db.productos[old(db.nextProductoId)]))
      && (s.Err? ==> db.productos == old(db.productos) && r == Err(s.error))
    ensures db.nextProductoId == if r.Ok? then old(db.nextProductoId) + 1 else old(db.nextProductoId)
  {
    if ProductoRules.NombreEnUso(db.productos, producto.nombre) {
      return Err(IllegalOperation(NombreDuplicado));
    }
    var guardado := producto.(id := db.nextProductoId);
    db.productos := db.productos[guardado.id := guardado];
    db.nextProductoId := db.nextProductoId + 1;
    r := Ok(guardado);
  }

  method Actualizar(db: Db, id: Id, producto: Producto) returns (r: Result<Producto>)
    requires db.Valid()
    modifies db`productos
    ensures db.Valid()
    ensures var s := ProductoRules.Actualizar(old(db.productos), id, producto);
      && (s.Ok? ==> db.productos == s.value && r == Ok(db.productos[id]))
      && (s.Err? ==> db.productos == old(db.productos) && r == Err(s.error))
  {
    var encontrado := ProductoRules.BuscarPorId(db.productos, id);
    if encontrado.Err? {
      return Err(encontrado.error);
    }
    var existente := encontrado.value;
    existente := existente.(nombre := producto.nombre);
    existente := existente.(descripcion := producto.descripcion);
    existente := existente.(precio := producto.precio);
    db.productos := db.productos[existente.id := existente];
    r := Ok(existente);
  }

  method Eliminar(db: Db, id: Id) returns (r: Result<()>)
    requires db.Valid()
    modifies db`productos
    ensures db.Valid()
    ensures var s := ProductoRules.Eliminar(old(db.productos), db.pedidos, id);
      && (s.Ok? ==> db.productos == s.value && r == Ok(()))
      && (s.Err? ==> db.productos == old(db.productos) && r == Err(s.error))
  {
    if id !in db.productos {
      return Err(NotFound(ProductoNotFound));
    }
    if PedidosDeProducto(db.pedidos, id) != {} {
      return Err(IllegalOperation(ProductoConPedidos));
    }
    db.productos := db.productos - {id};
    r := Ok(());
  }

  method AsignarProductoAVariante(db: Db, idVariante: Id, idProducto: Id) returns (r: Result<Producto>)
    requires db.Valid()
    modifies db`productos
    ensures db.Valid()
    ensures var s := ProductoRules.AsignarProductoAVariante(old(db.productos), idVariante, idProducto);
      && (s.Ok? ==> db.productos == s.value && r == Ok(db.productos[idProducto]))
      && (s.Err? ==> db.productos == old(db.productos) && r == Err(s.error))
  {
    if idVariante !in db.productos {
      return Err(NotFound(VarianteNotFound));
    }
    var variante := db.productos[idVariante];
    if idProducto !in db.productos {
      return Err(NotFound(ProductoNotFound));
    }
    var producto := db.productos[idProducto].(variante := Some(variante.id));
    db.productos := db.productos[producto.id := producto];
    r := Ok(producto);
  }

  method CrearVariante(db: Db, variante: Producto) returns (r: Producto)
    requires db.Valid()
    modifies db`productos, db`nextProductoId
    ensures db.Valid()
    ensures db.productos == ProductoRules.CrearVariante(old(db.productos), old(db.nextProductoId), variante)
    ensures r == db.productos[old(db.nextProductoId)]
    ensures db.nextProductoId == old(db.nextProductoId) + 1
  {
    r := variante.(id := db.nextProductoId);
    db.productos := db.productos[r.id := r];
    db.nextProductoId := db.nextProductoId + 1;
  }
}
