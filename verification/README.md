# Restaurant service layer, modelled in Dafny

This project models the business rules of a restaurant CRUD backend. The rules live in four
service implementations: customers (`Cliente`), orders (`Pedido`), products (`Producto`) and
profiles (`Perfil`). Each service works on an in-memory store of four tables. Every table is a
map from identity to record. The record shapes follow the JPA entities.

Each service operation is a guarded table update. It looks records up by id, checks a rule, and
then does one of two things:

- it fails with a typed outcome, `NotFound` (with which lookup failed) or `IllegalOperation`
  (with why);
- or it changes specific fields and saves.

The order of the checks decides which error is reported, and the model keeps that order.

Layout:

- `domain.dfy`, module `Domain`:
  - the records;
  - the `Error`/`Result` types;
  - the inverse sides the persistence mapping derives from the order table (`PedidosDeCliente`,
    `PedidosDeProducto`);
  - the referential-integrity predicates.
- `store.dfy`, module `Store`:
  - class `Db`, which holds the four tables and one IDENTITY counter per table. Its `Valid()`
    says every record carries the key it is stored under, and every key lies below its table's
    counter.
  - `FindAll`, the repositories' `findAll`;
  - the table-change predicates `Inserted`, `Replaced` and `Removed`.
- `cliente.dfy`, `pedido.dfy`, `producto.dfy`, `perfil.dfy`. Each has two modules per service:
  - `XRules` states each operation over the tables as values: what it returns, and which table
    it leaves behind. It also holds the lemmas relating several operations.
  - `XService` performs the same operations imperatively on a `Db`. Each method's frame is
    exactly the table (and counter) it writes. Its `ensures` ties the result and the new table
    to the `XRules` function.

Modelling assumptions:

- `Cliente.pedidos`, `Producto.pedidos` and `Cliente.perfil` are JPA inverse sides (`mappedBy`).
  They are derived from the order and profile tables, not stored. A derived list is never null.
- The order service's customer and product repositories are taken as available. In the source
  they carry no injection annotation.
- References between entities are identities: `Option<Id>` for a nullable reference, and
  `Option<seq<Id>>` for the nullable product list of an order.
- Two behaviours of the code are worth knowing, and the model keeps both:
  - an invalid order status raises the same `IllegalOperationException` as the other
    refusals, so it is an `IllegalOperation` here (reason `EstadoInvalido`);
  - the customer name check in `actualizar` also matches the customer being updated, so an
    update that keeps the customer's own name is refused.
- Repository queries and JPA-derived collections are modelled as plain predicates and
  functions over the tables, without contracts of their own:
  - `ClienteRules.NombreEnUso` and `ProductoRules.NombreEnUso` stand for `findByNombre`
    being non-empty (ClienteRepository.java:19, ProductoRepository.java:9);
  - `PedidoRules.ExisteSimilar` stands for `existsByClienteAndProductosAndFecha`
    (PedidoRepository.java:24);
  - `Domain.PedidosDeCliente` and `Domain.PedidosDeProducto` stand for the inverse sides
    `Cliente.getPedidos()` and `Producto.getPedidos()` (Cliente.java:65-67,
    Producto.java:57-58).
  `Store.FindAll`, the repositories' `findAll`, does carry a contract and has a row below.
- These quirks are reproduced, and each is stated in a lemma:
  - product update and `crearVariante` do no name check;
  - `actualizarPedido` does not re-validate the status or the duplicate rule;
  - the order delete guard refuses every order that has a customer or a (possibly empty)
    product list;
  - variant assignment has no cycle check;
  - profile `grabar` does not check the customer.

## Model

| member | source | states |
|---|---|---|
| `Store.FindAll` | src/main/java/com/restaurante/services/ClienteServiceImp.java:33-35 | `findAll`, shared by the four `listarTodos` (also PedidoServiceImp.java:35-37, ProductoServiceImp.java:25-27, PerfilServiceImp.java:29-31): every record of the table and nothing else, as many as the table holds; no record twice when no two keys hold the same record |
| `ClienteRules.ListarTodos` | src/main/java/com/restaurante/services/ClienteServiceImp.java:33-35 | every stored customer is listed and only stored customers are; the length equals the table size, so an empty table gives an empty list; when every record carries its own key, no customer is listed twice |
| `ClienteRules.BuscarPorId` | src/main/java/com/restaurante/services/ClienteServiceImp.java:45-48 | succeeds exactly when the id is stored, with the stored customer, which carries that id; otherwise `NotFound(ClienteNotFound)` |
| `ClienteRules.BuscarPorNombre` | src/main/java/com/restaurante/services/ClienteServiceImp.java:107-109 | a customer is in the result iff it is stored and its name equals the argument; the result is empty iff no customer has the name |
| `ClienteRules.Grabar` | src/main/java/com/restaurante/services/ClienteServiceImp.java:58-63 | fails with `IllegalOperation(NombreDuplicado)` iff some customer has the name; otherwise the table gains exactly the customer under the fresh id |
| `ClienteRules.Actualizar` | src/main/java/com/restaurante/services/ClienteServiceImp.java:75-84 | `NotFound` iff the id is missing; otherwise refused iff any customer (the updated one included) has the new name; on success only the record at `id` changes, to the argument with id `id` |
| `ClienteRules.Eliminar` | src/main/java/com/restaurante/services/ClienteServiceImp.java:95-105 | `NotFound` iff missing; `IllegalOperation(ClienteConPedidos)` iff present and some order refers to it; succeeds iff present and no order refers to it, and then exactly that customer is removed |
| `ClienteRules.GrabarConservaNombresUnicos` | src/main/java/com/restaurante/services/ClienteServiceImp.java:58-63 | if customer names are pairwise distinct before a successful `grabar`, they still are after |
| `ClienteRules.ActualizarConservaNombresUnicos` | src/main/java/com/restaurante/services/ClienteServiceImp.java:76-83 | when the id exists and no customer has the new name, `actualizar` succeeds, and names pairwise distinct before stay distinct after |
| `ClienteRules.ActualizarRechazaNombrePropio` | src/main/java/com/restaurante/services/ClienteServiceImp.java:79-81 | updating a customer while keeping its own name is refused with `NombreDuplicado` |
| `ClienteRules.EliminarConservaReferencias` | src/main/java/com/restaurante/services/ClienteServiceImp.java:99-104 | a successful delete keeps every order's customer reference resolvable |
| `ClienteRules.EliminarLuegoNoEncontrado` | src/main/java/com/restaurante/services/ClienteServiceImp.java:95-105 | a stored customer no order refers to is deleted, and looking it up afterwards fails with `NotFound` |
| `ClienteService.Grabar` | src/main/java/com/restaurante/services/ClienteServiceImp.java:58-63 | keeps `Db.Valid()`, writes only the customer table and its counter; result and new table are those of `ClienteRules.Grabar` (the saved record is returned); the counter advances by one on success and is unchanged on refusal |
| `ClienteService.Actualizar` | src/main/java/com/restaurante/services/ClienteServiceImp.java:75-84 | keeps `Db.Valid()`, writes only the customer table; result and new table are those of `ClienteRules.Actualizar` |
| `ClienteService.Eliminar` | src/main/java/com/restaurante/services/ClienteServiceImp.java:95-105 | keeps `Db.Valid()`, writes only the customer table; outcome and new table are those of `ClienteRules.Eliminar` |
| `PedidoRules.ToLower` | src/main/java/com/restaurante/services/PedidoServiceImp.java:71 | the lower-cased string has the same length and is the ASCII lower case of the argument character by character |
| `PedidoRules.ToLowerFija` | src/main/java/com/restaurante/services/PedidoServiceImp.java:68-71 | lower-casing a string without ASCII capitals leaves it unchanged (so the three listed statuses are their own lower case) |
| `PedidoRules.ToLowerIgual` | src/main/java/com/restaurante/services/PedidoServiceImp.java:71 | lower-casing a string gives a lower-case word exactly when the two are equal up to ASCII case |
| `PedidoRules.EsEstadoValido` | src/main/java/com/restaurante/services/PedidoServiceImp.java:66-72 | a status is valid iff it equals "pendiente", "en proceso" or "entregado" ignoring ASCII case |
| `PedidoRules.EntregadoEnMayusculas` | src/main/java/com/restaurante/services/PedidoServiceImp.java:66-72 | "ENTREGADO" is accepted |
| `PedidoRules.EnProcesoCapitalizado` | src/main/java/com/restaurante/services/PedidoServiceImp.java:66-72 | "En Proceso" is accepted |
| `PedidoRules.EstadosRechazados` | src/main/java/com/restaurante/services/PedidoServiceImp.java:66-72 | "bogus", "en_proceso" and the empty string are refused |
| `PedidoRules.ListarTodos` | src/main/java/com/restaurante/services/PedidoServiceImp.java:35-37 | every stored order is listed and only stored orders are; the length equals the table size; when every record carries its own key, no order is listed twice |
| `PedidoRules.BuscarPorId` | src/main/java/com/restaurante/services/PedidoServiceImp.java:40-44 | succeeds exactly when the id is stored, with the stored order carrying that id; otherwise `NotFound(PedidoNotFound)`, never an absent value |
| `PedidoRules.ActualizarEstado` | src/main/java/com/restaurante/services/PedidoServiceImp.java:49-63 | `NotFound` iff missing (checked first); `IllegalOperation(EstadoInvalido)` iff present and the status is invalid; on success only that order's status changes, to the argument exactly as given |
| `PedidoRules.ActualizarPedido` | src/main/java/com/restaurante/services/PedidoServiceImp.java:74-88 | `NotFound` iff missing; otherwise only that order changes: every field from the argument except the id, which is kept; the status is not validated |
| `PedidoRules.Eliminar` | src/main/java/com/restaurante/services/PedidoServiceImp.java:92-106 | `NotFound` iff missing; then `ClienteAsignado` iff it has a customer; then `ProductosAsignados` iff it has a product list; succeeds iff neither, removing exactly that order |
| `PedidoRules.AsignarClienteProducto` | src/main/java/com/restaurante/services/PedidoServiceImp.java:108-135 | order, customer and product are looked up in that order, each with its own `NotFound`; succeeds iff all three exist, and then only that order changes: customer set, product list replaced by the one product |
| `PedidoRules.CrearPedido` | src/main/java/com/restaurante/services/PedidoServiceImp.java:138-149 | refused with `PedidoDuplicado` iff a stored order has the same customer, product list and date; otherwise the table gains exactly the order under the fresh id |
| `PedidoRules.CualquierTransicion` | src/main/java/com/restaurante/services/PedidoServiceImp.java:49-63 | any valid status can follow any other; there is no ordering of statuses |
| `PedidoRules.ActualizarPedidoNoValidaEstado` | src/main/java/com/restaurante/services/PedidoServiceImp.java:74-88 | a status `actualizarEstado` refuses is stored by `actualizarPedido` |
| `PedidoRules.AsignarIdempotente` | src/main/java/com/restaurante/services/PedidoServiceImp.java:122-132 | assigning twice with the same ids leaves the table assigning once left |
| `PedidoRules.AsignarReemplazaProductos` | src/main/java/com/restaurante/services/PedidoServiceImp.java:124-129 | after two assignments only the second product remains in the order |
| `PedidoRules.AsignadoNoSeElimina` | src/main/java/com/restaurante/services/PedidoServiceImp.java:98-100 | an order that was assigned a customer can no longer be deleted |
| `PedidoRules.CrearPedidoConservaSinDuplicados` | src/main/java/com/restaurante/services/PedidoServiceImp.java:140-148 | `crearPedido` preserves "no two orders share customer, product list and date" |
| `PedidoRules.CrearPedidoDosVeces` | src/main/java/com/restaurante/services/PedidoServiceImp.java:140-145 | creating the same order twice: the second attempt is refused with `PedidoDuplicado` |
| `PedidoRules.ActualizarPedidoPuedeDuplicar` | src/main/java/com/restaurante/services/PedidoServiceImp.java:74-88 | `actualizarPedido` can make two orders share customer, product list and date |
| `PedidoService.ActualizarEstado` | src/main/java/com/restaurante/services/PedidoServiceImp.java:49-63 | keeps `Db.Valid()`, writes only the order table; result and new table are those of `PedidoRules.ActualizarEstado` |
| `PedidoService.ActualizarPedido` | src/main/java/com/restaurante/services/PedidoServiceImp.java:74-88 | keeps `Db.Valid()`, writes only the order table; result and new table are those of `PedidoRules.ActualizarPedido` |
| `PedidoService.Eliminar` | src/main/java/com/restaurante/services/PedidoServiceImp.java:92-106 | keeps `Db.Valid()`, writes only the order table; outcome and new table are those of `PedidoRules.Eliminar` |
| `PedidoService.AsignarClienteProducto` | src/main/java/com/restaurante/services/PedidoServiceImp.java:108-135 | keeps `Db.Valid()`, writes only the order table; result and new table are those of `PedidoRules.AsignarClienteProducto` |
| `PedidoService.CrearPedido` | src/main/java/com/restaurante/services/PedidoServiceImp.java:138-149 | keeps `Db.Valid()`, writes only the order table and its counter; result and new table are those of `PedidoRules.CrearPedido`; the counter advances by one on success and is unchanged on refusal |
| `ProductoRules.ListarTodos` | src/main/java/com/restaurante/services/ProductoServiceImp.java:25-27 | every stored product is listed and only stored products are; the length equals the table size; when every record carries its own key, no product is listed twice |
| `ProductoRules.BuscarPorId` | src/main/java/com/restaurante/services/ProductoServiceImp.java:31-35 | succeeds exactly when the id is stored, with the stored product carrying that id; otherwise `NotFound(ProductoNotFound)` |
| `ProductoRules.Grabar` | src/main/java/com/restaurante/services/ProductoServiceImp.java:39-44 | refused with `NombreDuplicado` iff some product has the name; otherwise the table gains exactly the product under the fresh id |
| `ProductoRules.Actualizar` | src/main/java/com/restaurante/services/ProductoServiceImp.java:48-58 | `NotFound` iff missing; otherwise only that product changes: name, description and price from the argument, id and variant kept; no name check |
| `ProductoRules.Eliminar` | src/main/java/com/restaurante/services/ProductoServiceImp.java:62-73 | `NotFound` iff missing; `ProductoConPedidos` iff present and some order lists it; succeeds iff present and no order lists it, and then exactly that product is removed |
| `ProductoRules.AsignarProductoAVariante` | src/main/java/com/restaurante/services/ProductoServiceImp.java:78-87 | the variant is looked up before the product, each with its own `NotFound`; succeeds iff both exist, changing only the product's variant, to the variant |
| `ProductoRules.CrearVariante` | src/main/java/com/restaurante/services/ProductoServiceImp.java:91-93 | always adds exactly the record under the fresh id, with no check |
| `ProductoRules.GrabarConservaNombresUnicos` | src/main/java/com/restaurante/services/ProductoServiceImp.java:39-44 | if product names are pairwise distinct before a successful `grabar`, they still are after |
| `ProductoRules.CrearVarianteAdmiteNombreRepetido` | src/main/java/com/restaurante/services/ProductoServiceImp.java:91-93 | for a taken name `grabar` refuses while `crearVariante` stores it, leaving two products with that name |
| `ProductoRules.ActualizarPuedeDuplicarNombre` | src/main/java/com/restaurante/services/ProductoServiceImp.java:48-58 | renaming a product to another product's name succeeds and leaves a duplicate name |
| `ProductoRules.VariantePropia` | src/main/java/com/restaurante/services/ProductoServiceImp.java:78-87 | a product can be made its own variant |
| `ProductoRules.VariantesCiclicas` | src/main/java/com/restaurante/services/ProductoServiceImp.java:78-87 | two assignments make two products each other's variant |
| `ProductoRules.EliminarConservaReferencias` | src/main/java/com/restaurante/services/ProductoServiceImp.java:66-72 | a successful delete keeps every order's product references resolvable |
| `ProductoService.Grabar` | src/main/java/com/restaurante/services/ProductoServiceImp.java:39-44 | keeps `Db.Valid()`, writes only the product table and its counter; result and new table are those of `ProductoRules.Grabar`; the counter advances by one on success and is unchanged on refusal |
| `ProductoService.Actualizar` | src/main/java/com/restaurante/services/ProductoServiceImp.java:48-58 | keeps `Db.Valid()`, writes only the product table; result and new table are those of `ProductoRules.Actualizar` |
| `ProductoService.Eliminar` | src/main/java/com/restaurante/services/ProductoServiceImp.java:62-73 | keeps `Db.Valid()`, writes only the product table; outcome and new table are those of `ProductoRules.Eliminar` |
| `ProductoService.AsignarProductoAVariante` | src/main/java/com/restaurante/services/ProductoServiceImp.java:78-87 | keeps `Db.Valid()`, writes only the product table; result and new table are those of `ProductoRules.AsignarProductoAVariante` |
| `ProductoService.CrearVariante` | src/main/java/com/restaurante/services/ProductoServiceImp.java:91-93 | keeps `Db.Valid()`, writes only the product table and its counter; the new table is `ProductoRules.CrearVariante`'s, the stored record is returned and the counter advances by one |
| `PerfilRules.ListarTodos` | src/main/java/com/restaurante/services/PerfilServiceImp.java:29-31 | every stored profile is listed and only stored profiles are; the length equals the table size, so an empty table gives an empty list; when every record carries its own key, no profile is listed twice |
| `PerfilRules.BuscarPorId` | src/main/java/com/restaurante/services/PerfilServiceImp.java:41-44 | succeeds exactly when the id is stored, with the stored profile carrying that id; otherwise `NotFound(PerfilNotFound)` |
| `PerfilRules.Grabar` | src/main/java/com/restaurante/services/PerfilServiceImp.java:54-57 | always adds exactly the profile under the fresh id, with no check |
| `PerfilRules.Actualizar` | src/main/java/com/restaurante/services/PerfilServiceImp.java:69-77 | `NotFound` iff missing; otherwise only that profile's preferences change; id and customer are kept |
| `PerfilRules.Eliminar` | src/main/java/com/restaurante/services/PerfilServiceImp.java:87-95 | `NotFound` iff missing; otherwise exactly that profile is removed, unconditionally |
| `PerfilRules.GrabarAdmiteSegundoPerfil` | src/main/java/com/restaurante/services/PerfilServiceImp.java:54-57 | a customer that already has a profile can be given a second one |
| `PerfilService.Grabar` | src/main/java/com/restaurante/services/PerfilServiceImp.java:54-57 | keeps `Db.Valid()`, writes only the profile table and its counter; the new table is `PerfilRules.Grabar`'s, the stored record is returned and the counter advances by one |
| `PerfilService.Actualizar` | src/main/java/com/restaurante/services/PerfilServiceImp.java:69-77 | keeps `Db.Valid()`, writes only the profile table; result and new table are those of `PerfilRules.Actualizar` |
| `PerfilService.Eliminar` | src/main/java/com/restaurante/services/PerfilServiceImp.java:87-95 | keeps `Db.Valid()`, writes only the profile table; outcome and new table are those of `PerfilRules.Eliminar` |

## Left out

- HTTP controllers, response envelopes, DTO mapping and the application/config wiring are not
  part of this model. The same goes for exception classes and message texts: an error is
  identified by its kind and its reason only. The profile service raises the persistence
  layer's `EntityNotFoundException` rather than the project's own; both are `NotFound` here.
- Repository query semantics are abstracted:
  - `findByNombre` is exact name equality. For products, its `Optional` result is read as "some
    product has this name", and the exception for several matches is not modelled.
  - `existsByClienteAndProductosAndFecha` is equality of customer, product list and date.
- `save` of a new record always allocates a fresh identity from the table's IDENTITY counter.
  The argument's own id is ignored. So a `grabar`/`crear*` call whose argument carries the id
  of an existing row is not modelled as an update.
- `ClienteRules.ListarTodos`, `PedidoRules.ListarTodos`, `ProductoRules.ListarTodos`,
  `PerfilRules.ListarTodos`: the listing order is left unspecified, as the store leaves it.
- Database foreign-key constraints are not modelled. Two examples:
  - deleting a product that another product names as its variant;
  - deleting a customer that has a profile.
  The database might reject these. The services do not check them.
- Null paths are not modelled:
  - the uninjected repositories of the order service;
  - null strings (for example a null status given to `actualizarEstado`);
  - null dates;
  - null derived `pedidos` lists.
  An order's product list, by contrast, is modelled as possibly null (`Option<seq<Id>>`),
  because `PedidoRules.Eliminar` turns on whether it is null. A JPA provider usually loads a
  mapped `@ManyToMany` collection as an empty list rather than null, so the model's
  succeeding branch of that delete (no customer and a null product list) may be one the
  running program never reaches.
- `PedidoRules.ToLower` lower-cases ASCII letters only. Locale-dependent and non-ASCII case
  mapping of `String.toLowerCase` is not modelled.
- Dates (`LocalDateTime`) and prices (`double`) are opaque values that are only copied and
  compared. The Java `int` quantity is an unbounded integer, because it is only copied.
- `@Transactional` boundaries and the check-then-insert race between concurrent requests are
  not modelled: each operation is one atomic step.
