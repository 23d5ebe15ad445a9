/**
 * The `ProductoDataStore` accessor: a favourites set, a cart set and per-product
 * quantity counters kept in one preferences table.
 *
 * The reads (`obtener*`) are pure functions of one snapshot of the table. The
 * writes are `edit` blocks: each is given here once as the transform it applies
 * to a snapshot (a function returning the edited table or the exception it
 * throws) and once as a method of the class that holds the table and updates it
 * in place.
 *
 * The counter operations read and write the integer at the BARE product id,
 * while `ObtenerCantidadProducto` reads the integer at "cantidad_" + id: the two
 * never meet (see `GetCantidadKey`). The model keeps that mismatch.
 */
module Datastore {
  import opened Preferences

  const FAVORITOS_KEY: string := "favoritos"
  const CARRITO_KEY: string := "carrito"
  const CANTIDAD_PREFIX: string := "cantidad_"

  /** A product, seen only through its unique identifier. */
  datatype Producto = Producto(product: string)

  /** `preferences[key] ?: emptySet()` for a string-set key. */
  function StringSetOrEmpty(prefs: Prefs, key: string): Result<set<string>>
  {
    match GetStringSet(prefs, key)
    case Missing => Ok({})
    case Found(s) => Ok(s)
    case WrongType => ClassCast(key)
  }

  // ---------------------------------------------------------------- reads

  /** The cart: the stored set, or the empty set when nothing is stored. */
  function ObtenerCarrito(prefs: Prefs): (r: Result<set<string>>)
    ensures CARRITO_KEY !in prefs ==> r == Ok({})
    ensures CARRITO_KEY in prefs && prefs[CARRITO_KEY].StringSetPref? ==> r == Ok(prefs[CARRITO_KEY].items)
    ensures r.ClassCast? <==> CARRITO_KEY in prefs && prefs[CARRITO_KEY].IntPref?
  {
    StringSetOrEmpty(prefs, CARRITO_KEY)
  }

  /** The favourites: the stored set, or the empty set when nothing is stored. */
  function ObtenerFavoritos(prefs: Prefs): (r: Result<set<string>>)
    ensures FAVORITOS_KEY !in prefs ==> r == Ok({})
    ensures FAVORITOS_KEY in prefs && prefs[FAVORITOS_KEY].StringSetPref? ==> r == Ok(prefs[FAVORITOS_KEY].items)
    ensures r.ClassCast? <==> FAVORITOS_KEY in prefs && prefs[FAVORITOS_KEY].IntPref?
  {
    StringSetOrEmpty(prefs, FAVORITOS_KEY)
  }

  /**
   * The key the quantity READ uses. It is one key per product (distinct
   * products get distinct keys), it is never the bare id that the counter
   * operations write, and it is never one of the two set keys.
   */
  function GetCantidadKey(producto: Producto): (k: string)
    ensures k != producto.product
    ensures k != FAVORITOS_KEY && k != CARRITO_KEY
    ensures |k| == |CANTIDAD_PREFIX| + |producto.product|
    ensures k[..|CANTIDAD_PREFIX|] == CANTIDAD_PREFIX && k[|CANTIDAD_PREFIX|..] == producto.product
  {
    var k := CANTIDAD_PREFIX + producto.product;
    assert k[0] == 'c';
    k
  }

  /** The quantity shown for a product: the integer at its "cantidad_" key, or 1. */
  function ObtenerCantidadProducto(prefs: Prefs, producto: Producto): (r: Result<Int32>)
    ensures GetCantidadKey(producto) !in prefs ==> r == Ok(1)
    ensures GetCantidadKey(producto) in prefs && prefs[GetCantidadKey(producto)].IntPref? ==>
              r == Ok(prefs[GetCantidadKey(producto)].n)
    ensures r.ClassCast? <==> GetCantidadKey(producto) in prefs && prefs[GetCantidadKey(producto)].StringSetPref?
  {
    var cantidadKey := GetCantidadKey(producto);
    match GetInt(prefs, cantidadKey)
    case Missing => Ok(1)
    case Found(n) => Ok(n)
    case WrongType => ClassCast(cantidadKey)
  }

  /** `currentCantidad` of the counter operations: the integer at the bare id, or 1. */
  function CantidadActual(prefs: Prefs, producto: Producto): (r: Result<Int32>)
    ensures producto.product !in prefs ==> r == Ok(1)
    ensures producto.product in prefs && prefs[producto.product].IntPref? ==> r == Ok(prefs[producto.product].n)
    ensures r.ClassCast? <==> producto.product in prefs && prefs[producto.product].StringSetPref?
  {
    match GetInt(prefs, producto.product)
    case Missing => Ok(1)
    case Found(n) => Ok(n)
    case WrongType => ClassCast(producto.product)
  }

  // ---------------------------------------------------------------- edit transforms

  /** The set stored under `key` after adding (`incluir`) or removing `id`. */
  function EditarConjunto(prefs: Prefs, key: string, id: string, incluir: bool): Result<Prefs>
  {
    match StringSetOrEmpty(prefs, key)
    case Ok(actuales) =>
      Ok(prefs[key := StringSetPref(if incluir then actuales + {id} else actuales - {id})])
    case ClassCast(k) => ClassCast(k)
  }

  /**
   * The transform of `guardarFavorito`: afterwards the product is a favourite
   * exactly when `esFavorito`, every other id keeps its membership, a set is
   * stored under "favoritos" even if there was none, and no other key changes.
   * It throws only when "favoritos" holds an integer.
   */
  function GuardarFavoritoEdit(prefs: Prefs, producto: Producto, esFavorito: bool): (r: Result<Prefs>)
    ensures r.Ok? <==> ObtenerFavoritos(prefs).Ok?
    ensures r.ClassCast? ==> r == ClassCast(FAVORITOS_KEY)
    ensures r.Ok? ==> FAVORITOS_KEY in r.value && r.value[FAVORITOS_KEY].StringSetPref?
    ensures r.Ok? ==> forall id :: id in ObtenerFavoritos(r.value).value <==>
                        if id == producto.product then esFavorito else id in ObtenerFavoritos(prefs).value
    ensures r.Ok? ==> r.value - {FAVORITOS_KEY} == prefs - {FAVORITOS_KEY}
  {
    EditarConjunto(prefs, FAVORITOS_KEY, producto.product, esFavorito)
  }

  /** The transform of `guardarEnCarrito`: as `GuardarFavoritoEdit`, on "carrito". */
  function GuardarEnCarritoEdit(prefs: Prefs, producto: Producto, enCarrito: bool): (r: Result<Prefs>)
    ensures r.Ok? <==> ObtenerCarrito(prefs).Ok?
    ensures r.ClassCast? ==> r == ClassCast(CARRITO_KEY)
    ensures r.Ok? ==> CARRITO_KEY in r.value && r.value[CARRITO_KEY].StringSetPref?
    ensures r.Ok? ==> forall id :: id in ObtenerCarrito(r.value).value <==>
                        if id == producto.product then enCarrito else id in ObtenerCarrito(prefs).value
    ensures r.Ok? ==> r.value - {CARRITO_KEY} == prefs - {CARRITO_KEY}
  {
    EditarConjunto(prefs, CARRITO_KEY, producto.product, enCarrito)
  }

  /**
   * The transform of `aumentarCantidad`: the bare-id counter reads back as its
   * old value (1 when absent) plus one in Kotlin `Int` arithmetic, so the first
   * call on an absent key stores 2; no other key changes. It throws only when
   * the bare id holds a string set.
   */
  function AumentarCantidadEdit(prefs: Prefs, producto: Producto): (r: Result<Prefs>)
    ensures r.Ok? <==> CantidadActual(prefs, producto).Ok?
    ensures r.ClassCast? ==> r == ClassCast(producto.product)
    ensures producto.product !in prefs ==> r == Ok(prefs[producto.product := IntPref(2)])
    ensures r.Ok? ==> CantidadActual(r.value, producto) == Ok(Wrap(CantidadActual(prefs, producto).value as int + 1))
    ensures r.Ok? ==> producto.product in r.value && r.value - {producto.product} == prefs - {producto.product}
  {
    match CantidadActual(prefs, producto)
    case Ok(currentCantidad) => Ok(prefs[producto.product := IntPref(Wrap(currentCantidad as int + 1))])
    case ClassCast(k) => ClassCast(k)
  }

  /**
   * The transform of `disminuirCantidad`: a counter above 1 goes down by one;
   * otherwise the table is left exactly as it was (an absent counter stays
   * absent). It throws only when the bare id holds a string set.
   */
  function DisminuirCantidadEdit(prefs: Prefs, producto: Producto): (r: Result<Prefs>)
    ensures r.Ok? <==> CantidadActual(prefs, producto).Ok?
    ensures r.ClassCast? ==> r == ClassCast(producto.product)
    ensures producto.product !in prefs ==> r == Ok(prefs)
    ensures r.Ok? && CantidadActual(prefs, producto).value > 1 ==>
              r.value == prefs[producto.product := IntPref(CantidadActual(prefs, producto).value - 1)]
    ensures r.Ok? && CantidadActual(prefs, producto).value <= 1 ==> r.value == prefs
  {
    match CantidadActual(prefs, producto)
    case Ok(currentCantidad) =>
      if currentCantidad > 1 then Ok(prefs[producto.product := IntPref(currentCantidad - 1)]) else Ok(prefs)
    case ClassCast(k) => ClassCast(k)
  }

  // ---------------------------------------------------------------- the store

  /** The accessor, holding the table of the "productos_datastore" container. */
  class ProductoDataStore {
    var prefs: Prefs

    /** Opens the container over whatever table it already holds. */
    constructor (almacenado: Prefs)
      ensures prefs == almacenado
    {
      prefs := almacenado;
    }

    /** Adds the product to, or removes it from, the favourites, as one atomic edit. */
    method GuardarFavorito(producto: Producto, esFavorito: bool) returns (r: Result<()>)
      modifies this
      ensures r == Status(GuardarFavoritoEdit(old(prefs), producto, esFavorito))
      ensures prefs == Commit(old(prefs), GuardarFavoritoEdit(old(prefs), producto, esFavorito))
    {
      var guardados := GetStringSet(prefs, FAVORITOS_KEY);
      if guardados.WrongType? {
        return ClassCast(FAVORITOS_KEY);
      }
      var favoritosActuales := if guardados.Found? then guardados.value else {};
      if esFavorito {
        favoritosActuales := favoritosActuales + {producto.product};
      } else {
        favoritosActuales := favoritosActuales - {producto.product};
      }
      prefs := prefs[FAVORITOS_KEY := StringSetPref(favoritosActuales)];
      r := Ok(());
    }

    /** Adds the product to, or removes it from, the cart, as one atomic edit. */
    method GuardarEnCarrito(producto: Producto, enCarrito: bool) returns (r: Result<()>)
      modifies this
      ensures r == Status(GuardarEnCarritoEdit(old(prefs), producto, enCarrito))
      ensures prefs == Commit(old(prefs), GuardarEnCarritoEdit(old(prefs), producto, enCarrito))
    {
      var guardado := GetStringSet(prefs, CARRITO_KEY);
      if guardado.WrongType? {
        return ClassCast(CARRITO_KEY);
      }
      var carrito := if guardado.Found? then guardado.value else {};
      if enCarrito {
        carrito := carrito + {producto.product};
      } else {
        carrito := carrito - {producto.product};
      }
      prefs := prefs[CARRITO_KEY := StringSetPref(carrito)];
      r := Ok(());
    }

    /** Increments the counter at the bare product id, as one atomic edit. */
    method AumentarCantidad(producto: Producto) returns (r: Result<()>)
      modifies this
      ensures r == Status(AumentarCantidadEdit(old(prefs), producto))
      ensures prefs == Commit(old(prefs), AumentarCantidadEdit(old(prefs), producto))
    {
      var guardada := GetInt(prefs, producto.product);
      if guardada.WrongType? {
        return ClassCast(producto.product);
      }
      var currentCantidad := if guardada.Found? then guardada.value else 1;
      prefs := prefs[producto.product := IntPref(Wrap(currentCantidad as int + 1))];
      r := Ok(());
    }

    /** Decrements the counter at the bare product id while it is above 1, as one atomic edit. */
    method DisminuirCantidad(producto: Producto) returns (r: Result<()>)
      modifies this
      ensures r == Status(DisminuirCantidadEdit(old(prefs), producto))
      ensures prefs == Commit(old(prefs), DisminuirCantidadEdit(old(prefs), producto))
    {
      var guardada := GetInt(prefs, producto.product);
      if guardada.WrongType? {
        return ClassCast(producto.product);
      }
      var currentCantidad := if guardada.Found? then guardada.value else 1;
      if currentCantidad > 1 {
        prefs := prefs[producto.product := IntPref(currentCantidad - 1)];
      }
      r := Ok(());
    }
  }
}
