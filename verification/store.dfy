/** The persistence layer: the four repositories' tables, held by one object
    whose fields the services update in place, and the generic table queries
    and table changes the services are specified with. */
module Store {
  import opened Domain

  /** All keys lie below the next identity value to be handed out. */
  predicate Below(ks: set<Id>, next: Id) { forall k :: k in ks ==> k < next }

  /** The database: one table per entity and one IDENTITY counter per table. */
  class Db {
    var clientes: map<Id, Cliente>
    var pedidos: map<Id, Pedido>
    var productos: map<Id, Producto>
    var perfiles: map<Id, Perfil>
    var nextClienteId: Id
    var nextPedidoId: Id
    var nextProductoId: Id
    var nextPerfilId: Id

    ghost predicate Valid()
      reads this
    {
      && ClientesKeyed(clientes) && Below(clientes.Keys, nextClienteId)
      && PedidosKeyed(pedidos) && Below(pedidos.Keys, nextPedidoId)
      && ProductosKeyed(productos) && Below(productos.Keys, nextProductoId)
      && PerfilesKeyed(perfiles) && Below(perfiles.Keys, nextPerfilId)
    }

    /** An empty database whose identity columns start at 1. */
    constructor ()
      ensures Valid()
      ensures clientes == map[] && pedidos == map[] && productos == map[] && perfiles == map[]
    {
      clientes, pedidos, productos, perfiles := map[], map[], map[], map[];
      nextClienteId, nextPedidoId, nextProductoId, nextPerfilId := 1, 1, 1, 1;
    }
  }

  /** No two keys of `m` hold the same record. */
  ghost predicate Injective<T>(m: map<Id, T>) {
    forall j, k :: j in m && k in m && j != k ==> m[j] != m[k]
  }

  /** No element occurs twice in `s`. */
  ghost predicate SinRepetidos<T>(s: seq<T>) {
    forall i, j :: 0 <= i < j < |s| ==> s[i] != s[j]
  }

  lemma SinRepetidosCons<T>(x: T, tail: seq<T>)
    requires forall i :: 0 <= i < |tail| ==> tail[i] != x
    requires SinRepetidos(tail)
    ensures SinRepetidos([x] + tail)
  {
    var s := [x] + tail;
    forall i, j | 0 <= i < j < |s| ensures s[i] != s[j] {
      assert s[j] == tail[j - 1];
      if i > 0 { assert s[i] == tail[i - 1]; }
    }
  }

  /** `findAll`: every stored record, in an order the store does not
      specify; when no two keys hold the same record, each appears once. */
  ghost function FindAll<T>(m: map<Id, T>): (r: seq<T>)
    ensures |r| == |m|
    ensures forall k :: k in m ==> m[k] in r
    ensures forall i :: 0 <= i < |r| ==> r[i] in m.Values
    ensures Injective(m) ==> SinRepetidos(r)
    decreases m.Keys
  {
    if m.Keys == {} then []
    else
      var k :| k in m.Keys;
      var rest := m - {k};
      assert rest.Keys == m.Keys - {k};
      assert |rest| == |m| - 1 by { assert |rest.Keys| == |m.Keys| - 1; }
      var tail := FindAll(rest);
      var r := [m[k]] + tail;
      assert forall j :: j in m ==> m[j] in r by {
        forall j | j in m ensures m[j] in r {
          if j != k { assert j in rest && rest[j] == m[j]; }
        }
      }
      assert Injective(m) ==> SinRepetidos(r) by {
        if Injective(m) {
          assert Injective(rest);
          forall i | 0 <= i < |tail| ensures tail[i] != m[k] {
            var q :| q in rest && rest[q] == tail[i];
          }
          SinRepetidosCons(m[k], tail);
        }
      }
      r
  }

  /** `save` of a new record: the table gains exactly `v` under the fresh key `k`. */
  ghost predicate Inserted<T>(before: map<Id, T>, after: map<Id, T>, k: Id, v: T) {
    && k !in before
    && after.Keys == before.Keys + {k}
    && after[k] == v
    && forall j :: j in before ==> after[j] == before[j]
  }

  /** `save` of an existing record: only the record under `k` changes, to `v`. */
  ghost predicate Replaced<T>(before: map<Id, T>, after: map<Id, T>, k: Id, v: T) {
    && k in before
    && after.Keys == before.Keys
    && after[k] == v
    && forall j :: j in before && j != k ==> after[j] == before[j]
  }

  /** `deleteById`: only the record under `k` disappears. */
  ghost predicate Removed<T>(before: map<Id, T>, after: map<Id, T>, k: Id) {
    && k in before
    && after.Keys == before.Keys - {k}
    && forall j :: j in after ==> after[j] == before[j]
  }
}
