/**
 * ProductoService: the inventory engine. Each mutating operation reads one
 * product, checks it, writes it back (or removes it) and records exactly one
 * movement through the ledger, as one atomic step; an operation that fails
 * does so before anything is written.
 */
module ProductService {
  import opened Wrappers
  import opened Exceptions
  import Text
  import opened ProductDtos
  import opened Products
  import opened Movements
  import opened MovementService

  /** The detail texts of the engine's movements. */
  function CreatedDetail(cantidad: int): string {
    "Producto creado con " + Text.IntToString(cantidad) + " unidades"
  }

  function QuantityEditedDetail(anterior: int, nueva: int): string {
    "Cantidad actualizada de " + Text.IntToString(anterior) + " a " + Text.IntToString(nueva)
  }

  const InfoEditedDetail: string := "Informaci\U{F3}n del producto actualizada"

  const DeletedDetail: string := "Producto eliminado del inventario"

  function ConsumedDetail(cantidad: int): string {
    "Consumo de " + Text.IntToString(cantidad) + " unidad(es)"
  }

  function RestockedDetail(cantidad: int): string {
    "Reabastecimiento de " + Text.IntToString(cantidad) + " unidad(es)"
  }

  /**
   * `after` is `before` with exactly the fields the update body supplies
   * replaced; every other field, the id and the timestamps included, is kept.
   */
  ghost predicate AppliesUpdate(before: Product, dto: ProductUpdate, after: Product) {
    && after.id == before.id
    && after.nombre == (if dto.nombre.Some? then dto.nombre.value else before.nombre)
    && after.categoria == (if dto.categoria.Some? then dto.categoria.value else before.categoria)
    && after.cantidad == (if dto.cantidad.Some? then dto.cantidad.value else before.cantidad)
    && after.descripcion == (if dto.descripcion.Some? then dto.descripcion else before.descripcion)
    && after.ubicacion == (if dto.ubicacion.Some? then dto.ubicacion else before.ubicacion)
    && after.imagenUrl == (if dto.imagenUrl.Some? then dto.imagenUrl else before.imagenUrl)
    && after.fechaCreacion == before.fechaCreacion
    && after.fechaActualizacion == before.fechaActualizacion
  }

  /** The product an update body turns `before` into: each supplied field replaced, nothing else. */
  function ApplyUpdate(before: Product, dto: ProductUpdate): (after: Product)
    ensures AppliesUpdate(before, dto, after)
  {
    Product(before.id,
            if dto.nombre.Some? then dto.nombre.value else before.nombre,
            if dto.categoria.Some? then dto.categoria.value else before.categoria,
            if dto.cantidad.Some? then dto.cantidad.value else before.cantidad,
            if dto.descripcion.Some? then dto.descripcion else before.descripcion,
            if dto.ubicacion.Some? then dto.ubicacion else before.ubicacion,
            if dto.imagenUrl.Some? then dto.imagenUrl else before.imagenUrl,
            before.fechaCreacion, before.fechaActualizacion)
  }

  /**
   * The product table with its identity sequence, and the ledger service the
   * engine records its movements through.
   */
  class Inventory {
    var products: Store
    var nextId: int
    const ledger: Ledger

    /** Every product sits under its own id, below the next id, with no negative stock. */
    ghost predicate Valid()
      reads this, ledger
    {
      && ledger.Valid()
      && nextId >= 1
      && StockNonNegative(products)
      && forall id :: id in products ==> 1 <= id < nextId && products[id].id == id
    }

    constructor (ledger: Ledger)
      requires ledger.Valid()
      ensures Valid()
      ensures products == map[] && nextId == 1 && this.ledger == ledger
    {
      products := map[];
      nextId := 1;
      this.ledger := ledger;
    }

    /**
     * create: refuses a name that matches an existing product's ignoring case;
     * otherwise adds a product with exactly the supplied fields under a fresh
     * id, leaves the other products alone, and records one "Agregar" movement
     * from 0 to the new quantity.
     */
    method Create(dto: ProductCreate, now: int) returns (r: Result<Product, Error>)
      requires Valid() && ValidCreate(dto)
      modifies this, ledger
      ensures Valid()
      ensures ExistsByNombreIgnoreCase(old(products), dto.nombre) ==>
        r == Err(DuplicateResource) && unchanged(this, ledger)
      ensures !ExistsByNombreIgnoreCase(old(products), dto.nombre) ==>
        && r.Ok?
        && r.value.id !in old(products)
        && r.value == Product(r.value.id, dto.nombre, dto.categoria, dto.cantidad,
                              dto.descripcion, dto.ubicacion, dto.imagenUrl, now, now)
        && products == old(products)[r.value.id := r.value]
        && nextId == old(nextId) + 1
        && ledger.nextId == old(ledger.nextId) + 1
        && ledger.entries == old(ledger.entries) +
             [Movement(old(ledger.nextId), Agregar, dto.nombre, Some(r.value.id), Some(0),
                       Some(dto.cantidad), now, Some(CreatedDetail(dto.cantidad)))]
    {
      if ExistsByNombreIgnoreCase(products, dto.nombre) {
        return Err(DuplicateResource);
      }
      var saved := Product(nextId, dto.nombre, dto.categoria, dto.cantidad,
                           dto.descripcion, dto.ubicacion, dto.imagenUrl, now, now);
      products := products[saved.id := saved];
      nextId := nextId + 1;
      var _ := ledger.Record(Agregar, saved.nombre, Some(saved.id), Some(0), Some(saved.cantidad),
                             Some(CreatedDetail(saved.cantidad)), now);
      r := Ok(saved);
    }

    /**
     * update: NotFound for an absent id; otherwise changes only the supplied
     * fields of that product and no other product, and always records one
     * "Editar" movement, with the old and new quantities only when a supplied
     * quantity differs from the old one.
     */
    method Update(id: int, dto: ProductUpdate, now: int) returns (r: Result<Product, Error>)
      requires Valid() && ValidUpdate(dto)
      modifies this, ledger
      ensures Valid()
      ensures id !in old(products) ==> r == Err(NotFound) && unchanged(this, ledger)
      ensures id in old(products) ==>
        && r.Ok?
        && AppliesUpdate(old(products[id]), dto, r.value)
        && products == old(products)[id := r.value]
        && nextId == old(nextId)
        && ledger.nextId == old(ledger.nextId) + 1
      ensures id in old(products) && dto.cantidad.Some? && dto.cantidad.value != old(products[id].cantidad) ==>
        ledger.entries == old(ledger.entries) +
          [Movement(old(ledger.nextId), Editar, r.value.nombre, Some(id), Some(old(products[id].cantidad)),
                    Some(r.value.cantidad), now,
                    Some(QuantityEditedDetail(old(products[id].cantidad), r.value.cantidad)))]
      ensures id in old(products) && (dto.cantidad.None? || dto.cantidad.value == old(products[id].cantidad)) ==>
        ledger.entries == old(ledger.entries) +
          [Movement(old(ledger.nextId), Editar, r.value.nombre, Some(id), None, None, now, Some(InfoEditedDetail))]
    {
      if id !in products {
        return Err(NotFound);
      }
      var cantidadAnterior := products[id].cantidad;
      var producto := ApplyUpdate(products[id], dto);
      products := products[id := producto];
      if dto.cantidad.Some? && cantidadAnterior != dto.cantidad.value {
        var _ := ledger.Record(Editar, producto.nombre, Some(producto.id), Some(cantidadAnterior),
                               Some(producto.cantidad),
                               Some(QuantityEditedDetail(cantidadAnterior, producto.cantidad)), now);
      } else {
        var _ := ledger.Record(Editar, producto.nombre, Some(producto.id), None, None,
                               Some(InfoEditedDetail), now);
      }
      r := Ok(producto);
    }

    /**
     * delete: NotFound for an absent id; otherwise records one "Eliminar"
     * movement from the current quantity to 0, with the product's name and id,
     * and removes the product. Earlier movements of that product stay in the
     * ledger and are still found by its id.
     */
    method Delete(id: int, now: int) returns (r: Result<(), Error>)
      requires Valid()
      modifies this, ledger
      ensures Valid()
      ensures id !in old(products) ==> r == Err(NotFound) && unchanged(this, ledger)
      ensures id in old(products) ==>
        && r == Ok(())
        && products == old(products) - {id}
        && nextId == old(nextId)
        && ledger.nextId == old(ledger.nextId) + 1
        && ledger.entries == old(ledger.entries) +
             [Movement(old(ledger.nextId), Eliminar, old(products[id].nombre), Some(id),
                       Some(old(products[id].cantidad)), Some(0), now, Some(DeletedDetail))]
      ensures ByProductoId(old(ledger.entries), id) <= ByProductoId(ledger.entries, id)
    {
      if id !in products {
        return Err(NotFound);
      }
      var producto := products[id];
      var m := ledger.Record(Eliminar, producto.nombre, Some(producto.id), Some(producto.cantidad),
                             Some(0), Some(DeletedDetail), now);
      ByProductoIdAfterAppend(old(ledger.entries), m, id);
      products := products - {id};
      r := Ok(());
    }

    /**
     * consumir: NotFound for an absent id; InsufficientStock, changing nothing,
     * when more units are asked for than there are (asking for exactly all of
     * them is allowed and leaves 0); otherwise takes the units away and records
     * one "Consumo" movement from the old to the new quantity.
     */
    method Consume(dto: StockOperation, now: int) returns (r: Result<Product, Error>)
      requires Valid() && ValidStockOperation(dto)
      modifies this, ledger
      ensures Valid()
      ensures dto.productoId !in old(products) ==> r == Err(NotFound) && unchanged(this, ledger)
      ensures dto.productoId in old(products) && old(products[dto.productoId].cantidad) < dto.cantidad ==>
        r == Err(InsufficientStock) && unchanged(this, ledger)
      ensures dto.productoId in old(products) && dto.cantidad <= old(products[dto.productoId].cantidad) ==>
        && var before := old(products[dto.productoId]);
           && r == Ok(before.(cantidad := before.cantidad - dto.cantidad))
           && products == old(products)[dto.productoId := r.value]
           && nextId == old(nextId)
           && ledger.nextId == old(ledger.nextId) + 1
           && ledger.entries == old(ledger.entries) +
                [Movement(old(ledger.nextId), Consumo, before.nombre, Some(dto.productoId),
                          Some(before.cantidad), Some(before.cantidad - dto.cantidad), now,
                          Some(ConsumedDetail(dto.cantidad)))]
    {
      if dto.productoId !in products {
        return Err(NotFound);
      }
      var producto := products[dto.productoId];
      if producto.cantidad < dto.cantidad {
        return Err(InsufficientStock);
      }
      var cantidadAnterior := producto.cantidad;
      producto := producto.(cantidad := producto.cantidad - dto.cantidad);
      products := products[producto.id := producto];
      var _ := ledger.Record(Consumo, producto.nombre, Some(producto.id), Some(cantidadAnterior),
                             Some(producto.cantidad), Some(ConsumedDetail(dto.cantidad)), now);
      r := Ok(producto);
    }

    /**
     * reabastecer: NotFound for an absent id; otherwise adds the units, with no
     * upper bound, and records one "Reabastecimiento" movement from the old to
     * the new quantity.
     */
    method Restock(dto: StockOperation, now: int) returns (r: Result<Product, Error>)
      requires Valid() && ValidStockOperation(dto)
      modifies this, ledger
      ensures Valid()
      ensures dto.productoId !in old(products) ==> r == Err(NotFound) && unchanged(this, ledger)
      ensures dto.productoId in old(products) ==>
        && var before := old(products[dto.productoId]);
           && r == Ok(before.(cantidad := before.cantidad + dto.cantidad))
           && products == old(products)[dto.productoId := r.value]
           && nextId == old(nextId)
           && ledger.nextId == old(ledger.nextId) + 1
           && ledger.entries == old(ledger.entries) +
                [Movement(old(ledger.nextId), Reabastecimiento, before.nombre, Some(dto.productoId),
                          Some(before.cantidad), Some(before.cantidad + dto.cantidad), now,
                          Some(RestockedDetail(dto.cantidad)))]
    {
      if dto.productoId !in products {
        return Err(NotFound);
      }
      var producto := products[dto.productoId];
      var cantidadAnterior := producto.cantidad;
      producto := producto.(cantidad := producto.cantidad + dto.cantidad);
      products := products[producto.id := producto];
      var _ := ledger.Record(Reabastecimiento, producto.nombre, Some(producto.id), Some(cantidadAnterior),
                             Some(producto.cantidad), Some(RestockedDetail(dto.cantidad)), now);
      r := Ok(producto);
    }
  }

  /**
   * A client of the engine: rice is created with 10 units, 3 are consumed,
   * and asking for 20 more fails and leaves 7 units and two movements.
   * Everything here follows from the contracts above.
   */
  method RiceExample(now: int)
  {
    var ledger := new Ledger();
    var inventory := new Inventory(ledger);
    var rice := ProductCreate("Rice", "Grains", 10, None, None, None);
    assert !Text.IsTrimmed(rice.nombre[0]) && !Text.IsTrimmed(rice.categoria[0]);
    var created := inventory.Create(rice, now);
    assert created.Ok? && created.value.cantidad == 10;
    var id := created.value.id;

    var consumed := inventory.Consume(StockOperation(id, 3), now);
    assert consumed.Ok? && consumed.value.cantidad == 7;
    assert ledger.entries[1].tipo == Consumo;
    assert ledger.entries[1].cantidadAnterior == Some(10) && ledger.entries[1].cantidadNueva == Some(7);

    var refused := inventory.Consume(StockOperation(id, 20), now);
    assert refused == Err(InsufficientStock);
    assert inventory.products[id].cantidad == 7 && |ledger.entries| == 2;
  }

  /**
   * A client of the engine: once rice exists, a product named "RICE" is
   * refused as a duplicate and nothing is recorded for it.
   */
  method RiceDuplicateExample(now: int)
  {
    var ledger := new Ledger();
    var inventory := new Inventory(ledger);
    var rice := ProductCreate("Rice", "Grains", 10, None, None, None);
    assert !Text.IsTrimmed(rice.nombre[0]) && !Text.IsTrimmed(rice.categoria[0]);
    var created := inventory.Create(rice, now);
    var id := created.value.id;

    var shouting := ProductCreate("RICE", "Grains", 1, None, None, None);
    assert Text.Upper(shouting.nombre) == Text.Upper(inventory.products[id].nombre);
    assert !Text.IsTrimmed(shouting.nombre[0]) && !Text.IsTrimmed(shouting.categoria[0]);
    var duplicate := inventory.Create(shouting, now);
    assert duplicate == Err(DuplicateResource);
    assert |ledger.entries| == 1 && inventory.products.Keys == {id};
  }

  /**
   * A client of the engine: after rice is created, restocked and deleted, all
   * three of its movements are still found under its id.
   */
  method RiceHistoryExample(now: int)
  {
    var ledger := new Ledger();
    var inventory := new Inventory(ledger);
    var rice := ProductCreate("Rice", "Grains", 10, None, None, None);
    assert !Text.IsTrimmed(rice.nombre[0]) && !Text.IsTrimmed(rice.categoria[0]);
    var created := inventory.Create(rice, now);
    var id := created.value.id;

    var restocked := inventory.Restock(StockOperation(id, 5), now);
    assert restocked.Ok? && restocked.value.cantidad == 15;

    var deleted := inventory.Delete(id, now);
    assert deleted.Ok? && id !in inventory.products;
    assert |ledger.entries| == 3;
    assert ledger.entries[2].cantidadAnterior == Some(15) && ledger.entries[2].cantidadNueva == Some(0);
    assert forall i :: 0 <= i < 3 ==> ledger.entries[i].productoId == Some(id);
    FilterKeepsAll(ledger.entries, (m: Movement) => m.productoId == Some(id));
    assert ByProductoId(ledger.entries, id) == ledger.entries;
  }
}
