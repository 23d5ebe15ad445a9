# ProductoDataStore, modelled in Dafny

`ProductoDataStore` is the persistence accessor of a shopping app. It keeps
three things in one preferences container named "productos_datastore":

- a set of favourite product ids under the key "favoritos";
- a set of in-cart product ids under the key "carrito";
- per-product quantity counters.

Each write is an `edit` block: a read-modify-write on a snapshot of the table,
committed atomically. Each read maps a snapshot to a value, with a default
when the key is absent.

The model has three modules:

- `Preferences` (`preferences.dfy`) is the table itself. It maps a key name
  to either a Kotlin `Int`, modelled as the `Int32` newtype, or a set of
  strings. Typed lookups report a value of the other type as a
  ClassCastException (`Result.ClassCast`). `Commit` gives the all-or-nothing
  meaning of `edit`, and `Wrap` gives Kotlin's 32-bit `Int` addition.
- `Datastore` (`producto_data_store.dfy`) is the accessor.
  - The reads `ObtenerCarrito`, `ObtenerFavoritos` and
    `ObtenerCantidadProducto`, the key builder `GetCantidadKey`, and the
    counter read `CantidadActual` are functions of one snapshot.
  - Each `edit` block appears twice. It is a pure transform
    (`GuardarFavoritoEdit`, `GuardarEnCarritoEdit`, `AumentarCantidadEdit`,
    `DisminuirCantidadEdit`) whose contract says what the table is afterwards.
    It is also an imperative method of the class `ProductoDataStore`, which
    updates the table in place: copy the set, add or remove the id, store it
    back. Each method is proved equal to its transform.
- `DatastoreProperties` (`datastore_properties.dfy`) proves properties of
  single calls and of any sequence of calls. `Ejecutar` runs the calls in
  order. A call that throws leaves the table unchanged, and later calls go on
  from there.

Three behaviours of the code are kept as written:

- **Key mismatch.** `aumentarCantidad` and `disminuirCantidad` read and write
  the integer at the bare product id. `obtenerCantidadProducto` reads
  "cantidad_" + id. The two slots never coincide, so the quantity read for a
  product never changes when its own counter does
  (`ContadoresNoCambianCantidadLeida`). Over any sequence of calls, it changes
  only when some call's product id is exactly that "cantidad_" key
  (`CantidadLeidaSoloCambiaPorSuClave`).
- **32-bit counters.** `currentCantidad + 1` is Kotlin `Int` arithmetic. A
  counter at Int.MAX_VALUE therefore becomes Int.MIN_VALUE
  (`AumentarDesbordaEnMaximo`). The floor "every counter is at least 1" is
  kept by every decrease, whatever the table holds (`DisminuirMantienePiso`).
  It is kept by every increase except one whose own counter holds
  Int.MAX_VALUE (`AumentarMantienePiso`). Over a sequence of calls it holds for
  as long as no counter can reach that value (`EjecutarMantieneRango`). In
  particular it holds for any fewer than Int.MAX_VALUE calls on an empty
  container (`DesdeVacioContadoresPositivos`).
- **Type clashes.** Take a product whose id is "favoritos" or "carrito".
  While that key is absent, `aumentarCantidad` stores an integer there, and
  `disminuirCantidad` stores nothing, because the default 1 is not above 1.
  After the increase, reading or editing that set throws. Once a set is
  stored under the key, both counter operations on the product throw. All of
  this is shown, for either key, by `ProductoConClaveDeConjunto`. No clash can
  happen while no product id is a set key (`AplicarMantieneTipos`,
  `EjecutarMantieneTipos`, `LecturasBienTipadas`).

Three more facts about the code:

- The keys are "favoritos", "carrito" and "cantidad_" + id.
- The counter operations use the bare id.
- The increment wraps around at Int.MAX_VALUE, as described above.

## Model

| member | source | states |
|---|---|---|
| Preferences.Wrap | app/src/main/java/tec/lass/zazil_app/datastore/ProductoDataStore.kt:87 | Kotlin `Int` addition: the result agrees with the exact sum modulo 2^32 and equals it whenever the sum is within `Int` range |
| Preferences.Commit | app/src/main/java/tec/lass/zazil_app/datastore/ProductoDataStore.kt:60 | `edit` commits the transformed table when the transform completes, and keeps the old table when it throws |
| Datastore.ObtenerCarrito | app/src/main/java/tec/lass/zazil_app/datastore/ProductoDataStore.kt:38-43 | the cart is the stored set, or the empty set when "carrito" is absent; it throws exactly when "carrito" holds an integer |
| Datastore.ObtenerFavoritos | app/src/main/java/tec/lass/zazil_app/datastore/ProductoDataStore.kt:45-50 | the favourites are the stored set, or the empty set when "favoritos" is absent; it throws exactly when "favoritos" holds an integer |
| Datastore.GetCantidadKey | app/src/main/java/tec/lass/zazil_app/datastore/ProductoDataStore.kt:53-55 | the read key is "cantidad_" followed by the id; it is never the bare id and never "favoritos" or "carrito" |
| Datastore.ObtenerCantidadProducto | app/src/main/java/tec/lass/zazil_app/datastore/ProductoDataStore.kt:101-106 | the quantity read is the integer at the product's "cantidad_" key, or 1 when that key is absent; it throws exactly when a set is stored there |
| Datastore.CantidadActual | app/src/main/java/tec/lass/zazil_app/datastore/ProductoDataStore.kt:86 | `currentCantidad` is the integer at the bare id, or 1 when absent; it throws exactly when a set is stored there |
| Datastore.GuardarFavoritoEdit | app/src/main/java/tec/lass/zazil_app/datastore/ProductoDataStore.kt:59-69 | afterwards the product is a favourite iff `esFavorito`; every other id keeps its membership; a set is stored under "favoritos" even when the key was absent; no other key changes; it throws only when "favoritos" holds an integer |
| Datastore.GuardarEnCarritoEdit | app/src/main/java/tec/lass/zazil_app/datastore/ProductoDataStore.kt:72-82 | afterwards the product is in the cart iff `enCarrito`; every other id keeps its membership; a set is stored under "carrito"; no other key changes; it throws only when "carrito" holds an integer |
| Datastore.AumentarCantidadEdit | app/src/main/java/tec/lass/zazil_app/datastore/ProductoDataStore.kt:84-89 | the bare-id counter reads back as its old value (1 when absent) plus one in `Int` arithmetic, so the first call on an absent key stores 2; no other key changes; it throws only when the bare id holds a set |
| Datastore.DisminuirCantidadEdit | app/src/main/java/tec/lass/zazil_app/datastore/ProductoDataStore.kt:91-98 | a counter above 1 goes down by one; otherwise the table is unchanged, and an absent counter stays absent; it throws only when the bare id holds a set |
| Datastore.ProductoDataStore.constructor | app/src/main/java/tec/lass/zazil_app/datastore/ProductoDataStore.kt:14 | the accessor starts over the table the container already holds |
| Datastore.ProductoDataStore.GuardarFavorito | app/src/main/java/tec/lass/zazil_app/datastore/ProductoDataStore.kt:59-69 | the in-place update copies the stored set, adds or removes the id and stores it back; the new table and the outcome are those of `GuardarFavoritoEdit` committed by `edit` |
| Datastore.ProductoDataStore.GuardarEnCarrito | app/src/main/java/tec/lass/zazil_app/datastore/ProductoDataStore.kt:72-82 | the in-place update leaves the table and outcome of `GuardarEnCarritoEdit` committed by `edit` |
| Datastore.ProductoDataStore.AumentarCantidad | app/src/main/java/tec/lass/zazil_app/datastore/ProductoDataStore.kt:84-89 | the in-place update leaves the table and outcome of `AumentarCantidadEdit` committed by `edit` |
| Datastore.ProductoDataStore.DisminuirCantidad | app/src/main/java/tec/lass/zazil_app/datastore/ProductoDataStore.kt:91-98 | the in-place update leaves the table and outcome of `DisminuirCantidadEdit` committed by `edit`; it writes only when the counter is above 1 |
| DatastoreProperties.GuardarFavoritoIdempotente | app/src/main/java/tec/lass/zazil_app/datastore/ProductoDataStore.kt:62-67 | calling `guardarFavorito(p, b)` twice leaves the same table as calling it once |
| DatastoreProperties.GuardarEnCarritoIdempotente | app/src/main/java/tec/lass/zazil_app/datastore/ProductoDataStore.kt:75-80 | calling `guardarEnCarrito(p, b)` twice leaves the same table as calling it once |
| DatastoreProperties.GuardarFavoritoQuitarSinClave | app/src/main/java/tec/lass/zazil_app/datastore/ProductoDataStore.kt:61-67 | removing a favourite when "favoritos" is absent stores the empty set there and changes nothing else |
| DatastoreProperties.GuardarEnCarritoIdaYVuelta | app/src/main/java/tec/lass/zazil_app/datastore/ProductoDataStore.kt:75-80 | adding then removing a product leaves the old cart minus that product, which equals the old cart iff the product was not in it |
| DatastoreProperties.GuardarFavoritoConmuta | app/src/main/java/tec/lass/zazil_app/datastore/ProductoDataStore.kt:59-68 | favouriting two products in either order gives the same table, and both are favourites in it |
| DatastoreProperties.ContadoresNoCambianCantidadLeida | app/src/main/java/tec/lass/zazil_app/datastore/ProductoDataStore.kt:84-104 | increasing or decreasing a product's counter never changes the quantity read for that product |
| DatastoreProperties.CantidadKeyInyectiva | app/src/main/java/tec/lass/zazil_app/datastore/ProductoDataStore.kt:53-55 | distinct products read their quantities under distinct keys |
| DatastoreProperties.CantidadLeidaSoloCambiaPorSuClave | app/src/main/java/tec/lass/zazil_app/datastore/ProductoDataStore.kt:101-105 | over any sequence of calls, the quantity read for a product is unchanged unless some call's product id is that product's "cantidad_" key |
| DatastoreProperties.AplicarMantieneRango | app/src/main/java/tec/lass/zazil_app/datastore/ProductoDataStore.kt:84-98 | one call keeps every counter at least 1 and raises the largest by at most one, as long as the result stays within `Int` range |
| DatastoreProperties.EjecutarMantieneRango | app/src/main/java/tec/lass/zazil_app/datastore/ProductoDataStore.kt:91-98 | any sequence of calls keeps the counters between 1 and the old bound plus the number of calls, as long as that bound is within `Int` range |
| DatastoreProperties.DesdeVacioContadoresPositivos | app/src/main/java/tec/lass/zazil_app/datastore/ProductoDataStore.kt:94 | from an empty container, fewer than Int.MAX_VALUE calls never store a counter below 1 |
| DatastoreProperties.DisminuirMantienePiso | app/src/main/java/tec/lass/zazil_app/datastore/ProductoDataStore.kt:91-98 | decreasing a counter keeps every counter at least 1 on any table |
| DatastoreProperties.AumentarMantienePiso | app/src/main/java/tec/lass/zazil_app/datastore/ProductoDataStore.kt:84-89 | increasing a counter keeps every counter at least 1 unless that counter holds Int.MAX_VALUE, whatever the other counters hold |
| DatastoreProperties.AumentarDesbordaEnMaximo | app/src/main/java/tec/lass/zazil_app/datastore/ProductoDataStore.kt:87 | increasing a counter that holds Int.MAX_VALUE stores Int.MIN_VALUE, after which not every counter is at least 1 |
| DatastoreProperties.LecturasBienTipadas | app/src/main/java/tec/lass/zazil_app/datastore/ProductoDataStore.kt:38-50 | when the set keys hold sets and every other key holds an integer, none of the three reads throws |
| DatastoreProperties.AplicarMantieneTipos | app/src/main/java/tec/lass/zazil_app/datastore/ProductoDataStore.kt:59-98 | a call whose product id is not a set key does not throw on a well-typed table and keeps it well-typed |
| DatastoreProperties.EjecutarMantieneTipos | app/src/main/java/tec/lass/zazil_app/datastore/ProductoDataStore.kt:84-98 | any sequence of calls whose product ids are not set keys keeps a well-typed table well-typed |
| DatastoreProperties.ProductoConClaveDeConjunto | app/src/main/java/tec/lass/zazil_app/datastore/ProductoDataStore.kt:84-98 | for a product whose id is "favoritos" or "carrito": on an empty container, increasing stores 2 under that key and decreasing stores nothing; after the increase, reading or editing that set throws; with a set stored there, both counter operations throw |
| DatastoreProperties.EscenarioSku1 | app/src/main/java/tec/lass/zazil_app/datastore/ProductoDataStore.kt:59-104 | from an empty container, favouriting "SKU1", adding it to the cart and increasing it twice gives both sets {"SKU1"} and a bare-id counter of 3, while the quantity read for it stays 1 |

## Left out

- `getInstance` (the `@Volatile` singleton with `synchronized`): it exists for thread-safe construction. The model builds one accessor with the constructor.
- The Android `Context`, the `preferencesDataStore` delegate and the on-disk file. The container is the `prefs` table, and its initial contents are a constructor parameter.
- `suspend` and coroutines, and I/O or serialization failures inside `edit`. These are library behaviour. The only failure modelled is the ClassCastException from a value of the wrong type.
- `Flow`: each `obtener*` is a read of one snapshot of the table, not a live stream of snapshots.
- Interleaving of concurrent `edit` calls: each `edit` is one atomic step, and concurrent callers appear as some sequence of calls (`DatastoreProperties.Ejecutar`).
- Where the ClassCastException surfaces: a read of a set key that holds an integer is reported as a failed read. On the platform, the erased generic cast may surface it later, where the stream is collected.
- The `Producto` class: only its `product` id is modelled.
