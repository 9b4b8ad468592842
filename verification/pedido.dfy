/** The order service's rules, stated over the order table as a value (the
    customer and product tables are only read). */
module PedidoRules {
  import opened Domain
  import opened Store

  // ---------------------------------------------------------------- status

  /** The allowed statuses, as listed in `esEstadoValido`. */
  const EstadosValidos: seq<string> := ["pendiente", "en proceso", "entregado"]

  /** ASCII lower-casing of one character (`String.toLowerCase` outside the
      ASCII range is not modelled). */
  function LowerChar(c: char): char {
    if 'A' <= c <= 'Z' then (c as int + 32) as char else c
  }

  /** `String.toLowerCase` on ASCII text. */
  function ToLower(s: string): (r: string)
    ensures |r| == |s|
    ensures forall i :: 0 <= i < |s| ==> r[i] == LowerChar(s[i])
  {
    if s == [] then [] else [LowerChar(s[0])] + ToLower(s[1..])
  }

  /** Two strings are equal when ASCII case is ignored. */
  ghost predicate IgualSinMayusculas(a: string, b: string) {
    |a| == |b| && forall i :: 0 <= i < |a| ==> LowerChar(a[i]) == LowerChar(b[i])
  }

  lemma {:induction false} ToLowerFija(s: string)
    requires forall i :: 0 <= i < |s| ==> !('A' <= s[i] <= 'Z')
    ensures ToLower(s) == s
  {
    if s != [] {
      ToLowerFija(s[1..]);
    }
  }

  /** Lower-casing `s` gives the lower-case string `v` exactly when the two
      are equal up to ASCII case. */
  lemma ToLowerIgual(s: string, v: string)
    requires forall i :: 0 <= i < |v| ==> !('A' <= v[i] <= 'Z')
    ensures ToLower(s) == v <==> IgualSinMayusculas(s, v)
  {
    ToLowerFija(v);
    if IgualSinMayusculas(s, v) {
      assert ToLower(s) == ToLower(v);
    }
  }

  /** `esEstadoValido`: a status is accepted exactly when it spells one of
      the three allowed statuses up to ASCII case. */
  function EsEstadoValido(estado: string): (r: bool)
    ensures r <==> exists v :: v in EstadosValidos && IgualSinMayusculas(estado, v)
  {
    ToLowerIgual(estado, EstadosValidos[0]);
    ToLowerIgual(estado, EstadosValidos[1]);
    ToLowerIgual(estado, EstadosValidos[2]);
    ToLower(estado) in EstadosValidos
  }

  /** An upper-case spelling is accepted. */
  lemma EntregadoEnMayusculas()
    ensures EsEstadoValido("ENTREGADO")
  {
    assert IgualSinMayusculas("ENTREGADO", EstadosValidos[2]);
  }

  /** A mixed-case spelling is accepted. */
  lemma EnProcesoCapitalizado()
    ensures EsEstadoValido("En Proceso")
  {
    assert IgualSinMayusculas("En Proceso", EstadosValidos[1]);
  }

  /** Words outside the list are refused, whatever their case. */
  lemma EstadosRechazados()
    ensures !EsEstadoValido("bogus") && !EsEstadoValido("en_proceso") && !EsEstadoValido("")
  {
    assert |ToLower("bogus")| == 5;
    assert ToLower("en_proceso")[2] == '_';
  }

  // ----------------------------------------------------------- operations

  /** `listarTodos`: every stored order. */
  ghost function ListarTodos(pedidos: map<Id, Pedido>): (r: seq<Pedido>)
    ensures |r| == |pedidos|
    ensures forall k :: k in pedidos ==> pedidos[k] in r
    ensures forall p :: p in r ==> p in pedidos.Values
    ensures PedidosKeyed(pedidos) ==> SinRepetidos(r)
  {
    assert PedidosKeyed(pedidos) ==> Injective(pedidos);
    FindAll(pedidos)
  }

  /** `buscarPorId`: the stored order, or `NotFound`; never an absent value. */
  function BuscarPorId(pedidos: map<Id, Pedido>, id: Id): (r: Result<Pedido>)
    ensures r.Ok? <==> id in pedidos
    ensures r.Ok? ==> r.value == pedidos[id]
    ensures PedidosKeyed(pedidos) && r.Ok? ==> r.value.id == id
    ensures r.Err? ==> r.error == NotFound(PedidoNotFound)
  {
    if id in pedidos then Ok(pedidos[id]) else Err(NotFound(PedidoNotFound))
  }

  /** `actualizarEstado`: a missing order is reported before the status is
      checked; an accepted status is stored exactly as given, not lower-cased,
      and nothing else changes. */
  ghost function ActualizarEstado(pedidos: map<Id, Pedido>, id: Id, nuevoEstado: string): (r: Result<map<Id, Pedido>>)
    ensures r == Err(NotFound(PedidoNotFound)) <==> id !in pedidos
    ensures r == Err(IllegalOperation(EstadoInvalido)) <==> id in pedidos && !EsEstadoValido(nuevoEstado)
    ensures r.Ok? <==> id in pedidos && EsEstadoValido(nuevoEstado)
    ensures r.Ok? ==> Replaced(pedidos, r.value, id, pedidos[id].(estado := nuevoEstado))
    ensures r.Ok? ==> r.value[id].estado == nuevoEstado
  {
    match BuscarPorId(pedidos, id)
    case Err(e) => Err(e)
    case Ok(pedido) =>
      if !EsEstadoValido(nuevoEstado) then Err(IllegalOperation(EstadoInvalido))
      else Ok(pedidos[id := pedido.(estado := nuevoEstado)])
  }

  /** `actualizarPedido`: a missing order is reported; otherwise quantity,
      date, status, customer and products are taken from the argument and the
      id is kept. The new status is not validated. */
  ghost function ActualizarPedido(pedidos: map<Id, Pedido>, id: Id, nuevo: Pedido): (r: Result<map<Id, Pedido>>)
    ensures r.Err? <==> id !in pedidos
    ensures r.Err? ==> r.error == NotFound(PedidoNotFound)
    ensures r.Ok? ==> Replaced(pedidos, r.value, id, nuevo.(id := pedidos[id].id))
  {
    if id !in pedidos then Err(NotFound(PedidoNotFound))
    else
      var existente := pedidos[id];
      Ok(pedidos[id := existente.(cantidad := nuevo.cantidad, fecha := nuevo.fecha, estado := nuevo.estado,
                                 cliente := nuevo.cliente, productos := nuevo.productos)])
  }

  /** `eliminar`: a missing order, then a non-null customer, then a non-null
      product list (even an empty one) are reported, in that order; otherwise
      exactly that order is removed. */
  ghost function Eliminar(pedidos: map<Id, Pedido>, id: Id): (r: Result<map<Id, Pedido>>)
    ensures r == Err(NotFound(PedidoNotFound)) <==> id !in pedidos
    ensures r == Err(IllegalOperation(ClienteAsignado)) <==> id in pedidos && pedidos[id].cliente.Some?
    ensures r == Err(IllegalOperation(ProductosAsignados)) <==>
              id in pedidos && pedidos[id].cliente.None? && pedidos[id].productos.Some?
    ensures r.Ok? <==> id in pedidos && pedidos[id].cliente.None? && pedidos[id].productos.None?
    ensures r.Ok? ==> Removed(pedidos, r.value, id)
  {
    if id !in pedidos then Err(NotFound(PedidoNotFound))
    else if pedidos[id].cliente != None then Err(IllegalOperation(ClienteAsignado))
    else if pedidos[id].productos != None then Err(IllegalOperation(ProductosAsignados))
    else Ok(pedidos - {id})
  }

  /** `asignarClienteProducto`: the order, the customer and the product are
      looked up in that order; on success the order's customer is the one
      found and its product list is exactly the one product found. */
  ghost function AsignarClienteProducto(pedidos: map<Id, Pedido>, clientes: map<Id, Cliente>, productos: map<Id, Producto>,
                                        idPedido: Id, idCliente: Id, idProducto: Id): (r: Result<map<Id, Pedido>>)
    ensures r == Err(NotFound(PedidoNotFound)) <==> idPedido !in pedidos
    ensures r == Err(NotFound(ClienteNotFound)) <==> idPedido in pedidos && idCliente !in clientes
    ensures r == Err(NotFound(ProductoNotFound)) <==>
              idPedido in pedidos && idCliente in clientes && idProducto !in productos
    ensures r.Ok? <==> idPedido in pedidos && idCliente in clientes && idProducto in productos
    ensures r.Ok? ==> Replaced(pedidos, r.value, idPedido,
                               pedidos[idPedido].(cliente := Some(idCliente), productos := Some([idProducto])))
  {
    if idPedido !in pedidos then Err(NotFound(PedidoNotFound))
    else if idCliente !in clientes then Err(NotFound(ClienteNotFound))
    else if idProducto !in productos then Err(NotFound(ProductoNotFound))
    else
      Ok(pedidos[idPedido := pedidos[idPedido].(cliente := Some(idCliente), productos := Some([idProducto]))])
  }

  /** Two orders have the same customer, product list and date. */
  predicate Similares(a: Pedido, b: Pedido) {
    a.cliente == b.cliente && a.productos == b.productos && a.fecha == b.fecha
  }

  /** The repository's `existsByClienteAndProductosAndFecha`. */
  predicate ExisteSimilar(pedidos: map<Id, Pedido>, pedido: Pedido) {
    exists k :: k in pedidos && Similares(pedidos[k], pedido)
  }

  /** `crearPedido`: refused when a stored order has the same customer,
      product list and date; otherwise the order is stored under the fresh
      identity `nuevoId`. */
  ghost function CrearPedido(pedidos: map<Id, Pedido>, nuevoId: Id, pedido: Pedido): (r: Result<map<Id, Pedido>>)
    requires nuevoId !in pedidos
    ensures r.Err? <==> exists k :: k in pedidos && pedidos[k].cliente == pedido.cliente
                                   && pedidos[k].productos == pedido.productos && pedidos[k].fecha == pedido.fecha
    ensures r.Err? ==> r.error == IllegalOperation(PedidoDuplicado)
    ensures r.Ok? ==> Inserted(pedidos, r.value, nuevoId, pedido.(id := nuevoId))
  {
    if ExisteSimilar(pedidos, pedido) then Err(IllegalOperation(PedidoDuplicado))
    else Ok(pedidos[nuevoId := pedido.(id := nuevoId)])
  }

  // -------------------------------------------------------------- lemmas

  /** Any allowed status can follow any other: there is no transition order. */
  lemma CualquierTransicion(pedidos: map<Id, Pedido>, id: Id, desde: string, hacia: string)
    requires id in pedidos && EsEstadoValido(desde) && EsEstadoValido(hacia)
    ensures ActualizarEstado(pedidos, id, desde).Ok?
    ensures ActualizarEstado(ActualizarEstado(pedidos, id, desde).value, id, hacia).Ok?
  {
  }

  /** A status `actualizarEstado` refuses is stored by `actualizarPedido`. */
  lemma ActualizarPedidoNoValidaEstado(pedidos: map<Id, Pedido>, id: Id, nuevo: Pedido)
    requires id in pedidos && !EsEstadoValido(nuevo.estado)
    ensures ActualizarEstado(pedidos, id, nuevo.estado) == Err(IllegalOperation(EstadoInvalido))
    ensures ActualizarPedido(pedidos, id, nuevo).Ok?
    ensures ActualizarPedido(pedidos, id, nuevo).value[id].estado == nuevo.estado
  {
  }

  /** Assigning twice with the same ids leaves the table assigning once left. */
  lemma AsignarIdempotente(pedidos: map<Id, Pedido>, clientes: map<Id, Cliente>, productos: map<Id, Producto>,
                           idPedido: Id, idCliente: Id, idProducto: Id)
    requires AsignarClienteProducto(pedidos, clientes, productos, idPedido, idCliente, idProducto).Ok?
    ensures var una := AsignarClienteProducto(pedidos, clientes, productos, idPedido, idCliente, idProducto).value;
            AsignarClienteProducto(una, clientes, productos, idPedido, idCliente, idProducto) == Ok(una)
  {
    var una := AsignarClienteProducto(pedidos, clientes, productos, idPedido, idCliente, idProducto).value;
    var dos := AsignarClienteProducto(una, clientes, productos, idPedido, idCliente, idProducto).value;
    assert dos == una;
  }

  /** A second assignment discards the first one's product: only the last
      assigned product remains. */
  lemma AsignarReemplazaProductos(pedidos: map<Id, Pedido>, clientes: map<Id, Cliente>, productos: map<Id, Producto>,
                                  idPedido: Id, idCliente: Id, primero: Id, segundo: Id)
    requires AsignarClienteProducto(pedidos, clientes, productos, idPedido, idCliente, primero).Ok?
    requires segundo in productos
    ensures var una := AsignarClienteProducto(pedidos, clientes, productos, idPedido, idCliente, primero).value;
            var dos := AsignarClienteProducto(una, clientes, productos, idPedido, idCliente, segundo);
            dos.Ok? && dos.value[idPedido].productos == Some([segundo])
  {
  }

  /** An order that has been assigned a customer can no longer be deleted. */
  lemma AsignadoNoSeElimina(pedidos: map<Id, Pedido>, clientes: map<Id, Cliente>, productos: map<Id, Producto>,
                            idPedido: Id, idCliente: Id, idProducto: Id)
    requires AsignarClienteProducto(pedidos, clientes, productos, idPedido, idCliente, idProducto).Ok?
    ensures var una := AsignarClienteProducto(pedidos, clientes, productos, idPedido, idCliente, idProducto).value;
            Eliminar(una, idPedido) == Err(IllegalOperation(ClienteAsignado))
  {
  }

  /** No two stored orders have the same customer, product list and date. */
  ghost predicate SinDuplicados(pedidos: map<Id, Pedido>) {
    forall j, k :: j in pedidos && k in pedidos && j != k ==> !Similares(pedidos[j], pedidos[k])
  }

  lemma CrearPedidoConservaSinDuplicados(pedidos: map<Id, Pedido>, nuevoId: Id, pedido: Pedido)
    requires nuevoId !in pedidos && SinDuplicados(pedidos)
    requires CrearPedido(pedidos, nuevoId, pedido).Ok?
    ensures SinDuplicados(CrearPedido(pedidos, nuevoId, pedido).value)
  {
    var after := CrearPedido(pedidos, nuevoId, pedido).value;
    forall j, k | j in after && k in after && j != k
      ensures !Similares(after[j], after[k])
    {
      if j == nuevoId {
        assert !Similares(pedidos[k], pedido);
      } else if k == nuevoId {
        assert !Similares(pedidos[j], pedido);
      }
    }
  }

  /** Creating the same order twice: the second attempt is refused. */
  lemma CrearPedidoDosVeces(pedidos: map<Id, Pedido>, id1: Id, id2: Id, pedido: Pedido)
    requires id1 !in pedidos && id2 !in pedidos && id1 != id2
    requires CrearPedido(pedidos, id1, pedido).Ok?
    ensures CrearPedido(CrearPedido(pedidos, id1, pedido).value, id2, pedido) == Err(IllegalOperation(PedidoDuplicado))
  {
    var una := CrearPedido(pedidos, id1, pedido).value;
    assert Similares(una[id1], pedido);
  }

  /** `actualizarPedido` does not re-check duplicates: it can make two orders
      identical in customer, products and date. */
  lemma ActualizarPedidoPuedeDuplicar()
    ensures var p1 := Pedido(1, 1, 10, "pendiente", None, None);
            var t := map[1 := p1, 2 := p1.(id := 2, fecha := 11)];
            && SinDuplicados(t)
            && ActualizarPedido(t, 2, p1).Ok?
            && !SinDuplicados(ActualizarPedido(t, 2, p1).value)
  {
    var p1 := Pedido(1, 1, 10, "pendiente", None, None);
    var t := map[1 := p1, 2 := p1.(id := 2, fecha := 11)];
    var after := ActualizarPedido(t, 2, p1).value;
    assert Similares(after[1], after[2]);
  }
}

/** The order service's operations, updating the order table in place. The
    customer and product tables are taken as available (in the source the
    two repositories are not injected). */
module PedidoService {
  import opened Domain
  import opened Store
  import PedidoRules

  method ActualizarEstado(db: Db, id: Id, nuevoEstado: string) returns (r: Result<Pedido>)
    requires db.Valid()
    modifies db`pedidos
    ensures db.Valid()
    ensures var s := PedidoRules.ActualizarEstado(old(db.pedidos), id, nuevoEstado);
      && (s.Ok? ==> db.pedidos == s.value && r == Ok(db.pedidos[id]))
      && (s.Err? ==> db.pedidos == old(db.pedidos) && r == Err(s.error))
  {
    var encontrado := PedidoRules.BuscarPorId(db.pedidos, id);
    if encontrado.Err? {
      return Err(encontrado.error);
    }
    if !PedidoRules.EsEstadoValido(nuevoEstado) {
      return Err(IllegalOperation(EstadoInvalido));
    }
    var pedido := encontrado.value.(estado := nuevoEstado);
    db.pedidos := db.pedidos[pedido.id := pedido];
    r := Ok(pedido);
  }

  method ActualizarPedido(db: Db, id: Id, nuevo: Pedido) returns (r: Result<Pedido>)
    requires db.Valid()
    modifies db`pedidos
    ensures db.Valid()
    ensures var s := PedidoRules.ActualizarPedido(old(db.pedidos), id, nuevo);
      && (s.Ok? ==> db.pedidos == s.value && r == Ok(db.pedidos[id]))
      && (s.Err? ==> db.pedidos == old(db.pedidos) && r == Err(s.error))
  {
    if id !in db.pedidos {
      return Err(NotFound(PedidoNotFound));
    }
    var existente := db.pedidos[id];
    existente := existente.(cantidad := nuevo.cantidad);
    existente := existente.(fecha := nuevo.fecha);
    existente := existente.(estado := nuevo.estado);
    existente := existente.(cliente := nuevo.cliente);
    existente := existente.(productos := nuevo.productos);
    db.pedidos := db.pedidos[existente.id := existente];
    r := Ok(existente);
  }

  method Eliminar(db: Db, id: Id) returns (r: Result<()>)
    requires db.Valid()
    modifies db`pedidos
    ensures db.Valid()
    ensures var s := PedidoRules.Eliminar(old(db.pedidos), id);
      && (s.Ok? ==> db.pedidos == s.value && r == Ok(()))
      && (s.Err? ==> db.pedidos == old(db.pedidos) && r == Err(s.error))
  {
    if id !in db.pedidos {
      return Err(NotFound(PedidoNotFound));
    }
    var pedido := db.pedidos[id];
    if pedido.cliente != None {
      return Err(IllegalOperation(ClienteAsignado));
    }
    if pedido.productos != None {
      return Err(IllegalOperation(ProductosAsignados));
    }
    db.pedidos := db.pedidos - {id};
    r := Ok(());
  }

  method AsignarClienteProducto(db: Db, idPedido: Id, idCliente: Id, idProducto: Id) returns (r: Result<Pedido>)
    requires db.Valid()
    modifies db`pedidos
    ensures db.Valid()
    ensures var s := PedidoRules.AsignarClienteProducto(old(db.pedidos), db.clientes, db.productos,
                                                        idPedido, idCliente, idProducto);
      && (s.Ok? ==> db.pedidos == s.value && r == Ok(db.pedidos[idPedido]))
      && (s.Err? ==> db.pedidos == old(db.pedidos) && r == Err(s.error))
  {
    if idPedido !in db.pedidos {
      return Err(NotFound(PedidoNotFound));
    }
    var pedido := db.pedidos[idPedido];
    if idCliente !in db.clientes {
      return Err(NotFound(ClienteNotFound));
    }
    var cliente := db.clientes[idCliente];
    if idProducto !in db.productos {
      return Err(NotFound(ProductoNotFound));
    }
    var producto := db.productos[idProducto];
    pedido := pedido.(cliente := Some(cliente.id), productos := Some([producto.id]));
    db.pedidos := db.pedidos[pedido.id := pedido];
    r := Ok(pedido);
  }

  method CrearPedido(db: Db, pedido: Pedido) returns (r: Result<Pedido>)
    requires db.Valid()
    modifies db`pedidos, db`nextPedidoId
    ensures db.Valid()
    ensures var s := PedidoRules.CrearPedido(old(db.pedidos), old(db.nextPedidoId), pedido);
      && (s.Ok? ==> db.pedidos == s.value && r == Ok(db.pedidos[old(db.nextPedidoId)]))
      && (s.Err? ==> db.pedidos == old(db.pedidos) && r == Err(s.error))
    ensures db.nextPedidoId == if r.Ok? then old(db.nextPedidoId) + 1 else old(db.nextPedidoId)
  {
    if PedidoRules.ExisteSimilar(db.pedidos, pedido) {
      return Err(IllegalOperation(PedidoDuplicado));
    }
    var guardado := pedido.(id := db.nextPedidoId);
    db.pedidos := db.pedidos[guardado.id := guardado];
    db.nextPedidoId := db.nextPedidoId + 1;
    r := Ok(guardado);
  }
}
