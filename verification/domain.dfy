/** The records of the restaurant's four tables, the typed failures of the
    service layer, and the relationships the persistence mapping derives from
    the order table rather than storing them. */
module Domain {

  /** A database identity (a Java `Long` produced by an IDENTITY column). */
  type Id = nat

  /** A `LocalDateTime`; the services only copy it and compare it for equality. */
  type Fecha = int

  /** A Java `double`; the services only copy it. */
  type Precio = real

  /** A reference that may be null. */
  datatype Option<T> = None | Some(value: T)

  /** A customer. Its `perfil` and `pedidos` are the inverse sides of
      `Perfil.cliente` and `Pedido.cliente` and are not stored here. */
  datatype Cliente = Cliente(id: Id, nombre: string, correoElectronico: string, numeroTelefonico: string)

  /** A customer profile with its (nullable) owning reference to a customer. */
  datatype Perfil = Perfil(id: Id, preferencias: string, cliente: Option<Id>)

  /** A product; `variante` is the self-reference to another product. Its
      `pedidos` are the inverse side of `Pedido.productos`. */
  datatype Producto = Producto(id: Id, nombre: string, descripcion: string, precio: Precio, variante: Option<Id>)

  /** An order: a nullable customer reference and a nullable product list. */
  datatype Pedido = Pedido(id: Id, cantidad: int, fecha: Fecha, estado: string,
                           cliente: Option<Id>, productos: Option<seq<Id>>)

  /** Which lookup failed (each has its own message in the source). */
  datatype Missing = ClienteNotFound | PedidoNotFound | ProductoNotFound | VarianteNotFound | PerfilNotFound

  /** Why an operation was refused. */
  datatype Illegal =
    | NombreDuplicado      // a record with that name already exists
    | ClienteConPedidos    // the customer still has orders
    | ProductoConPedidos   // the product still has orders
    | ClienteAsignado      // the order has a customer
    | ProductosAsignados   // the order has a product list
    | EstadoInvalido       // the status is not one of the three allowed ones
    | PedidoDuplicado      // an order with the same customer, products and date exists

  /** `EntityNotFoundException` and `IllegalOperationException`. */
  datatype Error = NotFound(missing: Missing) | IllegalOperation(reason: Illegal)

  datatype Result<T> = Ok(value: T) | Err(error: Error)

  /** Every stored record carries the key it is stored under. */
  predicate ClientesKeyed(m: map<Id, Cliente>) { forall k :: k in m ==> m[k].id == k }
  predicate PedidosKeyed(m: map<Id, Pedido>) { forall k :: k in m ==> m[k].id == k }
  predicate ProductosKeyed(m: map<Id, Producto>) { forall k :: k in m ==> m[k].id == k }
  predicate PerfilesKeyed(m: map<Id, Perfil>) { forall k :: k in m ==> m[k].id == k }

  /** `Cliente.pedidos`: the orders whose customer is `idCliente`. */
  function PedidosDeCliente(pedidos: map<Id, Pedido>, idCliente: Id): set<Id> {
    set k | k in pedidos && pedidos[k].cliente == Some(idCliente)
  }

  /** `Producto.pedidos`: the orders whose product list holds `idProducto`. */
  function PedidosDeProducto(pedidos: map<Id, Pedido>, idProducto: Id): set<Id> {
    set k | k in pedidos && pedidos[k].productos.Some? && idProducto in pedidos[k].productos.value
  }

  /** Every customer an order refers to is stored. */
  ghost predicate ClientesReferenciados(pedidos: map<Id, Pedido>, clientes: map<Id, Cliente>) {
    forall k :: k in pedidos && pedidos[k].cliente.Some? ==> pedidos[k].cliente.value in clientes
  }

  /** Every product an order lists is stored. */
  ghost predicate ProductosReferenciados(pedidos: map<Id, Pedido>, productos: map<Id, Producto>) {
    forall k, p :: k in pedidos && pedidos[k].productos.Some? && p in pedidos[k].productos.value ==> p in productos
  }
}
