/**
 * The product entity and the read-only product queries of ProductoService,
 * over the product table modelled as a map from id to product.
 */
module Products {
  import opened Wrappers
  import opened Exceptions
  import Text

  /**
   * ProductoEntity. Timestamps are abstract clock readings; `cantidad` is an
   * unbounded integer.
   */
  datatype Product = Product(
    id: int,
    nombre: string,
    categoria: string,
    cantidad: int,
    descripcion: Option<string>,
    ubicacion: Option<string>,
    imagenUrl: Option<string>,
    fechaCreacion: int,
    fechaActualizacion: int)

  /** The product table: each row under its own id. */
  type Store = map<int, Product>

  /** The default limit of the low-stock query. */
  const DefaultStockBajoLimit := 2

  predicate StockNonNegative(ps: Store) {
    forall id :: id in ps ==> ps[id].cantidad >= 0
  }

  /** findById: the product under that id, or NotFound. */
  function FindById(ps: Store, id: int): (r: Result<Product, Error>)
    ensures r.Ok? <==> id in ps
    ensures r.Ok? ==> r.value == ps[id]
    ensures r.Err? ==> r.error == NotFound
  {
    if id in ps then Ok(ps[id]) else Err(NotFound)
  }

  /** existsByNombreIgnoreCase */
  predicate ExistsByNombreIgnoreCase(ps: Store, nombre: string) {
    exists id | id in ps :: Text.EqualsIgnoreCase(ps[id].nombre, nombre)
  }

  /** The rows of the table that satisfy a condition (the query result, keyed by id). */
  function Where(ps: Store, f: Product -> bool): (r: Store)
    ensures forall id :: id in r <==> id in ps && f(ps[id])
    ensures forall id :: id in r ==> r[id] == ps[id]
  {
    map id | id in ps && f(ps[id]) :: ps[id]
  }

  /** findStockBajo(limite): exactly the products with at most `limite` units. */
  function StockBajo(ps: Store, limite: int): (r: Store)
    ensures forall id :: id in r <==> id in ps && ps[id].cantidad <= limite
    ensures forall id :: id in r ==> r[id] == ps[id]
  {
    Where(ps, (p: Product) => p.cantidad <= limite)
  }

  /**
   * findStockBajo() with the default limit: exactly the products with at most
   * two units, which include every sold-out product.
   */
  function StockBajoDefault(ps: Store): (r: Store)
    ensures forall id :: id in r <==> id in ps && ps[id].cantidad <= 2
    ensures forall id :: id in r ==> r[id] == ps[id]
    ensures Agotados(ps).Keys <= r.Keys
  {
    StockBajoMonotone(ps, 0, DefaultStockBajoLimit);
    StockBajo(ps, DefaultStockBajoLimit)
  }

  /** findAgotados: exactly the products with no units left. */
  function Agotados(ps: Store): (r: Store)
    ensures forall id :: id in r <==> id in ps && ps[id].cantidad == 0
    ensures forall id :: id in r ==> r[id] == ps[id]
  {
    Where(ps, (p: Product) => p.cantidad == 0)
  }

  /** findByCategoria: exactly the products of that category (exact match). */
  function ByCategoria(ps: Store, categoria: string): (r: Store)
    ensures forall id :: id in r <==> id in ps && ps[id].categoria == categoria
    ensures forall id :: id in r ==> r[id] == ps[id]
  {
    Where(ps, (p: Product) => p.categoria == categoria)
  }

  /** searchByNombre: exactly the products whose name contains the text, ignoring case. */
  function SearchByNombre(ps: Store, nombre: string): (r: Store)
    ensures forall id :: id in r <==> id in ps && Text.ContainsIgnoreCase(ps[id].nombre, nombre)
    ensures forall id :: id in r ==> r[id] == ps[id]
  {
    Where(ps, (p: Product) => Text.ContainsIgnoreCase(p.nombre, nombre))
  }

  /** While no quantity is negative, the sold-out products are the low-stock products for limit 0. */
  lemma AgotadosIsStockBajoZero(ps: Store)
    requires StockNonNegative(ps)
    ensures Agotados(ps) == StockBajo(ps, 0)
  {
    forall id | id in ps
      ensures id in Agotados(ps) <==> id in StockBajo(ps, 0)
    {
      assert ps[id].cantidad >= 0;
    }
    assert Agotados(ps).Keys == StockBajo(ps, 0).Keys;
  }

  /** Raising the limit of the low-stock query only adds products. */
  lemma StockBajoMonotone(ps: Store, lo: int, hi: int)
    requires lo <= hi
    ensures StockBajo(ps, lo).Keys <= StockBajo(ps, hi).Keys
    ensures 0 <= hi ==> Agotados(ps).Keys <= StockBajo(ps, hi).Keys
  {
  }
}
