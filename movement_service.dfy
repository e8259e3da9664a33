/** MovimientoService: the owner of the movement ledger and the only code that writes to it. */
module MovementService {
  import opened Wrappers
  import opened Movements

  /**
   * The movement table. `nextId` is the identity sequence: clearing the table
   * does not reset it, so an id is never handed out twice.
   */
  class Ledger {
    var entries: seq<Movement>
    var nextId: int

    ghost predicate Valid()
      reads this
    {
      && nextId >= 1
      && IdsIncreasing(entries)
      && forall i :: 0 <= i < |entries| ==> 1 <= entries[i].id < nextId
    }

    constructor ()
      ensures Valid()
      ensures entries == [] && nextId == 1
    {
      entries := [];
      nextId := 1;
    }

    /**
     * registrarMovimiento: appends exactly one movement carrying the given
     * fields, the next id and the current time, and leaves every earlier
     * movement as it was.
     */
    method Record(tipo: string, producto: string, productoId: Option<int>,
                  cantidadAnterior: Option<int>, cantidadNueva: Option<int>,
                  detalles: Option<string>, now: int)
      returns (m: Movement)
      requires Valid()
      modifies this
      ensures Valid()
      ensures m == Movement(old(nextId), tipo, producto, productoId, cantidadAnterior, cantidadNueva, now, detalles)
      ensures entries == old(entries) + [m]
      ensures nextId == old(nextId) + 1
    {
      m := Movement(nextId, tipo, producto, productoId, cantidadAnterior, cantidadNueva, now, detalles);
      entries := entries + [m];
      nextId := nextId + 1;
    }

    /** create: a manually entered movement, every field of the body copied into exactly one new entry. */
    method Create(dto: MovementCreate, now: int) returns (m: Movement)
      requires Valid()
      modifies this
      ensures Valid()
      ensures m.id == old(nextId) && m.fecha == now
      ensures m.tipo == dto.tipo && m.producto == dto.producto && m.productoId == dto.productoId
      ensures m.cantidadAnterior == dto.cantidadAnterior && m.cantidadNueva == dto.cantidadNueva
      ensures m.detalles == dto.detalles
      ensures entries == old(entries) + [m]
      ensures nextId == old(nextId) + 1
    {
      m := Record(dto.tipo, dto.producto, dto.productoId, dto.cantidadAnterior, dto.cantidadNueva, dto.detalles, now);
    }

    /** clearAll: the ledger is left empty; the id sequence goes on. */
    method ClearAll()
      requires Valid()
      modifies this
      ensures Valid()
      ensures entries == []
      ensures nextId == old(nextId)
    {
      entries := [];
    }
  }
}
