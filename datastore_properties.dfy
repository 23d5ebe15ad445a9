/**
 * Properties of the accessor over single calls and over any sequence of calls.
 * Each `edit` is atomic, so concurrent callers amount to some sequence of
 * calls applied one after the other; a call that throws leaves the table as
 * it was and the next call goes on from there.
 */
module DatastoreProperties {
  import opened Preferences
  import opened Datastore

  /** One call of a writing operation of the accessor. */
  datatype Llamada =
    | Favorito(producto: Producto, esFavorito: bool)
    | Carrito(producto: Producto, enCarrito: bool)
    | Aumentar(producto: Producto)
    | Disminuir(producto: Producto)

  /** The edit transform a call runs. */
  function Editar(prefs: Prefs, llamada: Llamada): Result<Prefs>
  {
    match llamada
    case Favorito(p, b) => GuardarFavoritoEdit(prefs, p, b)
    case Carrito(p, b) => GuardarEnCarritoEdit(prefs, p, b)
    case Aumentar(p) => AumentarCantidadEdit(prefs, p)
    case Disminuir(p) => DisminuirCantidadEdit(prefs, p)
  }

  /** The table after one call, whether it completed or threw. */
  function Aplicar(prefs: Prefs, llamada: Llamada): Prefs
  {
    Commit(prefs, Editar(prefs, llamada))
  }

  /** The table after the calls, in order. */
  function Ejecutar(prefs: Prefs, llamadas: seq<Llamada>): Prefs
    decreases |llamadas|
  {
    if llamadas == [] then prefs else Ejecutar(Aplicar(prefs, llamadas[0]), llamadas[1..])
  }

  lemma EjecutarUna(prefs: Prefs, a: Llamada)
    ensures Ejecutar(prefs, [a]) == Aplicar(prefs, a)
  {
  }

  lemma EjecutarDos(prefs: Prefs, a: Llamada, b: Llamada)
    ensures Ejecutar(prefs, [a, b]) == Aplicar(Aplicar(prefs, a), b)
  {
    assert [a, b][1..] == [b];
    EjecutarUna(Aplicar(prefs, a), b);
  }

  lemma {:induction false} EjecutarConcatenadas(prefs: Prefs, primeras: seq<Llamada>, resto: seq<Llamada>)
    decreases |primeras|
    ensures Ejecutar(prefs, primeras + resto) == Ejecutar(Ejecutar(prefs, primeras), resto)
  {
    if primeras != [] {
      assert (primeras + resto)[0] == primeras[0];
      assert (primeras + resto)[1..] == primeras[1..] + resto;
      EjecutarConcatenadas(Aplicar(prefs, primeras[0]), primeras[1..], resto);
    } else {
      assert primeras + resto == resto;
    }
  }

  /** A set call, seen as `EditarConjunto` on its key. */
  lemma AplicarConjunto(prefs: Prefs, llamada: Llamada)
    requires llamada.Favorito? || llamada.Carrito?
    ensures var key := if llamada.Favorito? then FAVORITOS_KEY else CARRITO_KEY;
            var incluir := if llamada.Favorito? then llamada.esFavorito else llamada.enCarrito;
            Aplicar(prefs, llamada) == Commit(prefs, EditarConjunto(prefs, key, llamada.producto.product, incluir))
  {
  }

  // ---------------------------------------------------------------- set updates

  /** Marking or unmarking a favourite twice leaves the table as marking it once. */
  lemma GuardarFavoritoIdempotente(prefs: Prefs, producto: Producto, esFavorito: bool)
    ensures Ejecutar(prefs, [Favorito(producto, esFavorito), Favorito(producto, esFavorito)])
         == Ejecutar(prefs, [Favorito(producto, esFavorito)])
  {
    var llamada := Favorito(producto, esFavorito);
    var uno := Aplicar(prefs, llamada);
    EjecutarUna(prefs, llamada);
    EjecutarDos(prefs, llamada, llamada);
    AplicarConjunto(prefs, llamada);
    AplicarConjunto(uno, llamada);
    if StringSetOrEmpty(prefs, FAVORITOS_KEY).Ok? {
      var s := StringSetOrEmpty(prefs, FAVORITOS_KEY).value;
      var t := if esFavorito then s + {producto.product} else s - {producto.product};
      assert uno == prefs[FAVORITOS_KEY := StringSetPref(t)];
      assert StringSetOrEmpty(uno, FAVORITOS_KEY) == Ok(t);
      assert (if esFavorito then t + {producto.product} else t - {producto.product}) == t;
    }
  }

  /** Putting a product into or out of the cart twice leaves the table as doing it once. */
  lemma GuardarEnCarritoIdempotente(prefs: Prefs, producto: Producto, enCarrito: bool)
    ensures Ejecutar(prefs, [Carrito(producto, enCarrito), Carrito(producto, enCarrito)])
         == Ejecutar(prefs, [Carrito(producto, enCarrito)])
  {
    var llamada := Carrito(producto, enCarrito);
    var uno := Aplicar(prefs, llamada);
    EjecutarUna(prefs, llamada);
    EjecutarDos(prefs, llamada, llamada);
    AplicarConjunto(prefs, llamada);
    AplicarConjunto(uno, llamada);
    if StringSetOrEmpty(prefs, CARRITO_KEY).Ok? {
      var s := StringSetOrEmpty(prefs, CARRITO_KEY).value;
      var t := if enCarrito then s + {producto.product} else s - {producto.product};
      assert uno == prefs[CARRITO_KEY := StringSetPref(t)];
      assert StringSetOrEmpty(uno, CARRITO_KEY) == Ok(t);
      assert (if enCarrito then t + {producto.product} else t - {producto.product}) == t;
    }
  }

  /** Unfavouriting when nothing is stored under "favoritos" stores the empty set there. */
  lemma GuardarFavoritoQuitarSinClave(prefs: Prefs, producto: Producto)
    requires FAVORITOS_KEY !in prefs
    ensures Aplicar(prefs, Favorito(producto, false)) == prefs[FAVORITOS_KEY := StringSetPref({})]
  {
    AplicarConjunto(prefs, Favorito(producto, false));
    assert StringSetOrEmpty(prefs, FAVORITOS_KEY) == Ok({});
    assert EditarConjunto(prefs, FAVORITOS_KEY, producto.product, false) == Ok(prefs[FAVORITOS_KEY := StringSetPref({} - {producto.product})]);
    assert {} - {producto.product} == {};
  }

  /**
   * Adding a product to the cart and then removing it gives back the cart read
   * before, without the product; so the cart is restored exactly when the
   * product was not in it.
   */
  lemma GuardarEnCarritoIdaYVuelta(prefs: Prefs, producto: Producto)
    requires ObtenerCarrito(prefs).Ok?
    ensures ObtenerCarrito(Ejecutar(prefs, [Carrito(producto, true), Carrito(producto, false)]))
         == Ok(ObtenerCarrito(prefs).value - {producto.product})
    ensures ObtenerCarrito(Ejecutar(prefs, [Carrito(producto, true), Carrito(producto, false)])) == ObtenerCarrito(prefs)
        <==> producto.product !in ObtenerCarrito(prefs).value
  {
    var s := ObtenerCarrito(prefs).value;
    var uno := Aplicar(prefs, Carrito(producto, true));
    AplicarConjunto(prefs, Carrito(producto, true));
    assert uno == prefs[CARRITO_KEY := StringSetPref(s + {producto.product})];
    var dos := Aplicar(uno, Carrito(producto, false));
    AplicarConjunto(uno, Carrito(producto, false));
    assert StringSetOrEmpty(uno, CARRITO_KEY) == Ok(s + {producto.product});
    assert dos == uno[CARRITO_KEY := StringSetPref((s + {producto.product}) - {producto.product})];
    EjecutarDos(prefs, Carrito(producto, true), Carrito(producto, false));
    if producto.product in s {
      assert (s + {producto.product}) - {producto.product} == s - {producto.product};
      assert producto.product !in s - {producto.product};
    } else {
      assert (s + {producto.product}) - {producto.product} == s == s - {producto.product};
    }
  }

  /**
   * Two products favourited one after the other, in either order, give the
   * same table, and both are favourites in it: no update is lost.
   */
  lemma GuardarFavoritoConmuta(prefs: Prefs, p: Producto, q: Producto)
    requires ObtenerFavoritos(prefs).Ok?
    ensures Ejecutar(prefs, [Favorito(p, true), Favorito(q, true)]) == Ejecutar(prefs, [Favorito(q, true), Favorito(p, true)])
    ensures ObtenerFavoritos(Ejecutar(prefs, [Favorito(p, true), Favorito(q, true)]))
         == Ok(ObtenerFavoritos(prefs).value + {p.product, q.product})
  {
    var s := ObtenerFavoritos(prefs).value;
    EjecutarDos(prefs, Favorito(p, true), Favorito(q, true));
    EjecutarDos(prefs, Favorito(q, true), Favorito(p, true));
    var tp, tq := Aplicar(prefs, Favorito(p, true)), Aplicar(prefs, Favorito(q, true));
    AplicarConjunto(prefs, Favorito(p, true));
    AplicarConjunto(prefs, Favorito(q, true));
    AplicarConjunto(tp, Favorito(q, true));
    AplicarConjunto(tq, Favorito(p, true));
    assert StringSetOrEmpty(tp, FAVORITOS_KEY) == Ok(s + {p.product});
    assert StringSetOrEmpty(tq, FAVORITOS_KEY) == Ok(s + {q.product});
    var pq := Aplicar(tp, Favorito(q, true));
    var qp := Aplicar(tq, Favorito(p, true));
    assert pq == prefs[FAVORITOS_KEY := StringSetPref(s + {p.product} + {q.product})];
    assert qp == prefs[FAVORITOS_KEY := StringSetPref(s + {q.product} + {p.product})];
    assert s + {p.product} + {q.product} == s + {q.product} + {p.product} == s + {p.product, q.product};
  }

  // ---------------------------------------------------------------- the key mismatch

  /**
   * Increasing or decreasing a product's quantity never changes the quantity
   * read for that same product: the counter operations write the bare id and
   * the read looks at "cantidad_" + id.
   */
  lemma ContadoresNoCambianCantidadLeida(prefs: Prefs, producto: Producto)
    ensures ObtenerCantidadProducto(Aplicar(prefs, Aumentar(producto)), producto) == ObtenerCantidadProducto(prefs, producto)
    ensures ObtenerCantidadProducto(Aplicar(prefs, Disminuir(producto)), producto) == ObtenerCantidadProducto(prefs, producto)
  {
  }

  /** Distinct products read their quantities under distinct keys. */
  lemma CantidadKeyInyectiva(p: Producto, q: Producto)
    ensures GetCantidadKey(p) == GetCantidadKey(q) ==> p == q
  {
  }

  /** The calls never touch `key` unless one of them names `key` as its product. */
  ghost predicate NingunaNombra(llamadas: seq<Llamada>, key: string)
  {
    forall i :: 0 <= i < |llamadas| ==> llamadas[i].producto.product != key
  }

  /** One call whose product is not `key` leaves the integer at a key other than the set keys as it was. */
  lemma AplicarPreservaClaveAjena(prefs: Prefs, llamada: Llamada, key: string)
    requires llamada.producto.product != key && key != FAVORITOS_KEY && key != CARRITO_KEY
    ensures key in Aplicar(prefs, llamada) <==> key in prefs
    ensures key in prefs ==> Aplicar(prefs, llamada)[key] == prefs[key]
  {
  }

  /**
   * Whatever calls are made, the quantity read for a product stays what it was
   * unless some call's product id is that product's "cantidad_" key; starting
   * from an empty container it therefore stays 1.
   */
  lemma {:induction false} CantidadLeidaSoloCambiaPorSuClave(prefs: Prefs, llamadas: seq<Llamada>, producto: Producto)
    requires NingunaNombra(llamadas, GetCantidadKey(producto))
    decreases |llamadas|
    ensures ObtenerCantidadProducto(Ejecutar(prefs, llamadas), producto) == ObtenerCantidadProducto(prefs, producto)
  {
    if llamadas != [] {
      var k := GetCantidadKey(producto);
      AplicarPreservaClaveAjena(prefs, llamadas[0], k);
      var siguiente := Aplicar(prefs, llamadas[0]);
      assert ObtenerCantidadProducto(siguiente, producto) == ObtenerCantidadProducto(prefs, producto);
      assert NingunaNombra(llamadas[1..], k) by {
        forall i | 0 <= i < |llamadas[1..]| ensures llamadas[1..][i].producto.product != k {
          assert llamadas[1..][i] == llamadas[i + 1];
        }
      }
      CantidadLeidaSoloCambiaPorSuClave(siguiente, llamadas[1..], producto);
    }
  }

  // ---------------------------------------------------------------- the counter floor

  /** Every integer in the table is a counter between 1 and `tope`. */
  ghost predicate ContadoresEnRango(prefs: Prefs, tope: int)
  {
    forall k :: k in prefs && prefs[k].IntPref? ==> 1 <= prefs[k].n as int <= tope
  }

  /**
   * One call keeps every counter at least 1 and raises the largest by at most
   * one, as long as that stays within Kotlin's `Int`.
   */
  lemma AplicarMantieneRango(prefs: Prefs, llamada: Llamada, tope: int)
    requires ContadoresEnRango(prefs, tope) && 1 <= tope < INT32_MAX as int
    ensures ContadoresEnRango(Aplicar(prefs, llamada), tope + 1)
  {
  }

  /**
   * Any sequence of calls on a table whose counters lie in [1, tope], tope >= 1, leaves
   * them in [1, tope + number of calls], as long as that stays within Kotlin's
   * `Int`: decreasing stops at 1 and nothing else lowers a counter.
   */
  lemma {:induction false} EjecutarMantieneRango(prefs: Prefs, llamadas: seq<Llamada>, tope: int)
    requires ContadoresEnRango(prefs, tope) && 1 <= tope && tope + |llamadas| <= INT32_MAX as int
    decreases |llamadas|
    ensures ContadoresEnRango(Ejecutar(prefs, llamadas), tope + |llamadas|)
  {
    if llamadas != [] {
      AplicarMantieneRango(prefs, llamadas[0], tope);
      EjecutarMantieneRango(Aplicar(prefs, llamadas[0]), llamadas[1..], tope + 1);
    }
  }

  /** From an empty container, fewer than Int.MAX_VALUE calls never store a counter below 1. */
  lemma DesdeVacioContadoresPositivos(llamadas: seq<Llamada>)
    requires |llamadas| < INT32_MAX as int
    ensures forall k :: k in Ejecutar(map[], llamadas) && Ejecutar(map[], llamadas)[k].IntPref? ==>
              Ejecutar(map[], llamadas)[k].n >= 1
  {
    EjecutarMantieneRango(map[], llamadas, 1);
  }

  /** Every integer in the table is at least 1. */
  ghost predicate Piso(prefs: Prefs)
  {
    forall k :: k in prefs && prefs[k].IntPref? ==> prefs[k].n >= 1
  }

  /** Decreasing a counter keeps every counter at least 1, whatever the table holds. */
  lemma DisminuirMantienePiso(prefs: Prefs, producto: Producto)
    requires Piso(prefs)
    ensures Piso(Aplicar(prefs, Disminuir(producto)))
  {
  }

  /**
   * Increasing a counter keeps every counter at least 1 unless that counter
   * itself holds Int.MAX_VALUE; the other counters may hold anything.
   */
  lemma AumentarMantienePiso(prefs: Prefs, producto: Producto)
    requires Piso(prefs) && CantidadActual(prefs, producto) != Ok(INT32_MAX)
    ensures Piso(Aplicar(prefs, Aumentar(producto)))
  {
  }

  /**
   * Kotlin's `Int` wraps: increasing a counter that holds Int.MAX_VALUE stores
   * Int.MIN_VALUE, after which the table no longer has all counters at least 1.
   */
  lemma AumentarDesbordaEnMaximo(prefs: Prefs, producto: Producto)
    requires CantidadActual(prefs, producto) == Ok(INT32_MAX)
    ensures CantidadActual(Aplicar(prefs, Aumentar(producto)), producto) == Ok(INT32_MIN)
    ensures forall tope :: !ContadoresEnRango(Aplicar(prefs, Aumentar(producto)), tope)
  {
  }

  // ---------------------------------------------------------------- value types

  /** "favoritos" and "carrito" hold string sets and every other key holds an integer. */
  ghost predicate BienTipada(prefs: Prefs)
  {
    forall k :: k in prefs ==> (prefs[k].StringSetPref? <==> k == FAVORITOS_KEY || k == CARRITO_KEY)
  }

  /** In a well-typed table none of the three reads throws. */
  lemma LecturasBienTipadas(prefs: Prefs, producto: Producto)
    requires BienTipada(prefs)
    ensures ObtenerFavoritos(prefs).Ok? && ObtenerCarrito(prefs).Ok?
    ensures ObtenerCantidadProducto(prefs, producto).Ok?
  {
  }

  /**
   * A call whose product id is neither "favoritos" nor "carrito" does not
   * throw on a well-typed table and keeps it well-typed.
   */
  lemma AplicarMantieneTipos(prefs: Prefs, llamada: Llamada)
    requires BienTipada(prefs)
    requires llamada.producto.product != FAVORITOS_KEY && llamada.producto.product != CARRITO_KEY
    ensures Editar(prefs, llamada).Ok?
    ensures BienTipada(Aplicar(prefs, llamada))
  {
  }

  /** Any calls whose product ids are not set keys keep a well-typed table well-typed. */
  lemma {:induction false} EjecutarMantieneTipos(prefs: Prefs, llamadas: seq<Llamada>)
    requires BienTipada(prefs)
    requires NingunaNombra(llamadas, FAVORITOS_KEY) && NingunaNombra(llamadas, CARRITO_KEY)
    decreases |llamadas|
    ensures BienTipada(Ejecutar(prefs, llamadas))
  {
    if llamadas != [] {
      assert llamadas[0].producto.product != FAVORITOS_KEY && llamadas[0].producto.product != CARRITO_KEY;
      AplicarMantieneTipos(prefs, llamadas[0]);
      assert NingunaNombra(llamadas[1..], FAVORITOS_KEY) && NingunaNombra(llamadas[1..], CARRITO_KEY) by {
        forall i | 0 <= i < |llamadas[1..]|
          ensures llamadas[1..][i].producto.product != FAVORITOS_KEY
          ensures llamadas[1..][i].producto.product != CARRITO_KEY
        {
          assert llamadas[1..][i] == llamadas[i + 1];
        }
      }
      EjecutarMantieneTipos(Aplicar(prefs, llamadas[0]), llamadas[1..]);
    }
  }

  /** The read of the set stored under a set key. */
  function LeerConjunto(prefs: Prefs, key: string): Result<set<string>>
  {
    if key == FAVORITOS_KEY then ObtenerFavoritos(prefs) else ObtenerCarrito(prefs)
  }

  /** The call that edits the set stored under a set key. */
  function EditarEnConjunto(key: string, otro: Producto, incluir: bool): Llamada
  {
    if key == FAVORITOS_KEY then Favorito(otro, incluir) else Carrito(otro, incluir)
  }

  /**
   * A product whose id is a set key ("favoritos" or "carrito"). While that key
   * is absent, increasing its quantity stores an integer there and decreasing
   * it stores nothing; after the increase, reading or editing that set throws.
   * Once a set is stored there, both counter operations on the product throw.
   */
  lemma ProductoConClaveDeConjunto(key: string, otro: Producto, incluir: bool, guardado: set<string>)
    requires key == FAVORITOS_KEY || key == CARRITO_KEY
    ensures Aplicar(map[], Aumentar(Producto(key))) == map[key := IntPref(2)]
    ensures Aplicar(map[], Disminuir(Producto(key))) == map[]
    ensures LeerConjunto(Aplicar(map[], Aumentar(Producto(key))), key) == ClassCast(key)
    ensures Editar(Aplicar(map[], Aumentar(Producto(key))), EditarEnConjunto(key, otro, incluir)) == ClassCast(key)
    ensures Editar(map[key := StringSetPref(guardado)], Aumentar(Producto(key))) == ClassCast(key)
    ensures Editar(map[key := StringSetPref(guardado)], Disminuir(Producto(key))) == ClassCast(key)
  {
  }

  // ---------------------------------------------------------------- a scenario

  /**
   * From an empty container: favourite "SKU1", put it in the cart and increase
   * its quantity twice. Both sets are {"SKU1"}, the bare-id counter is 3, and
   * the quantity read for "SKU1" is still 1.
   */
  lemma EscenarioSku1()
    ensures var sku := Producto("SKU1");
            var t := Ejecutar(map[], [Favorito(sku, true), Carrito(sku, true), Aumentar(sku), Aumentar(sku)]);
            && ObtenerFavoritos(t) == Ok({"SKU1"})
            && ObtenerCarrito(t) == Ok({"SKU1"})
            && CantidadActual(t, sku) == Ok(3)
            && ObtenerCantidadProducto(t, sku) == Ok(1)
  {
    var sku := Producto("SKU1");
    var llamadas := [Favorito(sku, true), Carrito(sku, true), Aumentar(sku), Aumentar(sku)];
    var t1 := Aplicar(map[], Favorito(sku, true));
    AplicarConjunto(map[], Favorito(sku, true));
    assert StringSetOrEmpty(map[], FAVORITOS_KEY) == Ok({});
    assert {} + {"SKU1"} == {"SKU1"};
    assert t1 == map[][FAVORITOS_KEY := StringSetPref({} + {"SKU1"})];
    assert t1 == map[FAVORITOS_KEY := StringSetPref({"SKU1"})];
    var t2 := Aplicar(t1, Carrito(sku, true));
    AplicarConjunto(t1, Carrito(sku, true));
    assert StringSetOrEmpty(t1, CARRITO_KEY) == Ok({});
    assert t2 == t1[CARRITO_KEY := StringSetPref({"SKU1"})];
    assert "SKU1" != FAVORITOS_KEY && "SKU1" != CARRITO_KEY;
    var t3 := Aplicar(t2, Aumentar(sku));
    assert t3 == t2["SKU1" := IntPref(2)];
    var t4 := Aplicar(t3, Aumentar(sku));
    assert CantidadActual(t3, sku) == Ok(2);
    assert Wrap(2 + 1) == 3;
    assert t4 == t3["SKU1" := IntPref(3)];
    assert llamadas == [Favorito(sku, true), Carrito(sku, true)] + [Aumentar(sku), Aumentar(sku)];
    EjecutarConcatenadas(map[], [Favorito(sku, true), Carrito(sku, true)], [Aumentar(sku), Aumentar(sku)]);
    EjecutarDos(map[], Favorito(sku, true), Carrito(sku, true));
    EjecutarDos(t2, Aumentar(sku), Aumentar(sku));
    assert Ejecutar(map[], llamadas) == t4;
    assert ObtenerFavoritos(t4) == Ok({"SKU1"});
    assert ObtenerCarrito(t4) == Ok({"SKU1"});
    CantidadLeidaSoloCambiaPorSuClave(map[], llamadas, sku);
  }
}
