/**
 * The request bodies of the product endpoints and the Bean Validation constraints
 * declared on their fields. The controllers validate a body before the inventory
 * engine sees it, so these predicates are the engine's preconditions.
 */
module ProductDtos {
  import opened Wrappers
  import Text

  const NombreMax := 100
  const CategoriaMax := 50
  const DescripcionMax := 500
  const UbicacionMax := 200
  const ImagenUrlMax := 500

  /** ProductoCreateDTO */
  datatype ProductCreate = ProductCreate(
    nombre: string,
    categoria: string,
    cantidad: int,
    descripcion: Option<string>,
    ubicacion: Option<string>,
    imagenUrl: Option<string>)

  /** ProductoUpdateDTO: every field optional, a null field is left alone. */
  datatype ProductUpdate = ProductUpdate(
    nombre: Option<string>,
    categoria: Option<string>,
    cantidad: Option<int>,
    descripcion: Option<string>,
    ubicacion: Option<string>,
    imagenUrl: Option<string>)

  /** StockOperationDTO, the body of both stock operations. */
  datatype StockOperation = StockOperation(productoId: int, cantidad: int)

  /** @Size(max = n) on a nullable string, counted in UTF-16 code units: null passes. */
  predicate SizeAtMost(s: Option<string>, max: nat) {
    s.None? || Text.Utf16Length(s.value) <= max
  }

  /** @Min(value = n) on a nullable Int: null passes. */
  predicate AtLeast(x: Option<int>, min: int) {
    x.None? || x.value >= min
  }

  /** The constraints of ProductoCreateDTO: two mandatory non-blank names, a quantity floor of 0, length bounds. */
  predicate ValidCreate(d: ProductCreate) {
    && Text.NotBlank(d.nombre) && Text.Utf16Length(d.nombre) <= NombreMax
    && Text.NotBlank(d.categoria) && Text.Utf16Length(d.categoria) <= CategoriaMax
    && d.cantidad >= 0
    && SizeAtMost(d.descripcion, DescripcionMax)
    && SizeAtMost(d.ubicacion, UbicacionMax)
    && SizeAtMost(d.imagenUrl, ImagenUrlMax)
  }

  /** The update body has the same length bounds and quantity floor, but nothing is mandatory. */
  predicate ValidUpdate(d: ProductUpdate) {
    && SizeAtMost(d.nombre, NombreMax)
    && SizeAtMost(d.categoria, CategoriaMax)
    && AtLeast(d.cantidad, 0)
    && SizeAtMost(d.descripcion, DescripcionMax)
    && SizeAtMost(d.ubicacion, UbicacionMax)
    && SizeAtMost(d.imagenUrl, ImagenUrlMax)
  }

  /** The constraint of StockOperationDTO: at least one unit is moved. */
  predicate ValidStockOperation(d: StockOperation) {
    d.cantidad >= 1
  }

  /**
   * A create body that gives only the two mandatory fields: the quantity defaults
   * to 0 and the optional texts to null, and such a body is valid exactly when
   * both names are non-blank and within their bounds.
   */
  function DefaultCreate(nombre: string, categoria: string): (d: ProductCreate)
    ensures d.nombre == nombre && d.categoria == categoria
    ensures d.cantidad == 0
    ensures d.descripcion.None? && d.ubicacion.None? && d.imagenUrl.None?
    ensures ValidCreate(d) <==>
      && Text.NotBlank(nombre) && Text.Utf16Length(nombre) <= NombreMax
      && Text.NotBlank(categoria) && Text.Utf16Length(categoria) <= CategoriaMax
  {
    ProductCreate(nombre, categoria, 0, None, None, None)
  }

  /** A stock operation that names only the product moves one unit, and is valid. */
  function DefaultStockOperation(productoId: int): (d: StockOperation)
    ensures d.productoId == productoId && d.cantidad == 1
    ensures ValidStockOperation(d)
  {
    StockOperation(productoId, 1)
  }

  /** An update body that gives no field is valid: it changes no field of the product. */
  function EmptyUpdate(): (d: ProductUpdate)
    ensures ValidUpdate(d)
    ensures d.nombre.None? && d.categoria.None? && d.cantidad.None?
    ensures d.descripcion.None? && d.ubicacion.None? && d.imagenUrl.None?
  {
    ProductUpdate(None, None, None, None, None, None)
  }

  /** A valid create body has a name of 1 to 100 and a category of 1 to 50 characters, and no negative quantity. */
  lemma ValidCreateBounds(d: ProductCreate)
    requires ValidCreate(d)
    ensures 1 <= |d.nombre| <= NombreMax && 1 <= |d.categoria| <= CategoriaMax
    ensures d.cantidad >= 0
  {
  }

  /**
   * Blankness is checked on create only: a blank name is refused in a create body
   * and accepted in an update body.
   */
  lemma BlankNameOnlyRefusedOnCreate(blank: string, categoria: string)
    requires |blank| <= NombreMax && forall i :: 0 <= i < |blank| ==> Text.IsTrimmed(blank[i])
    ensures !ValidCreate(ProductCreate(blank, categoria, 0, None, None, None))
    ensures ValidUpdate(ProductUpdate(Some(blank), None, None, None, None, None))
  {
  }

  /**
   * Lengths are counted in UTF-16 code units: a name of 100 characters that all
   * lie outside the Basic Multilingual Plane is 200 units long and is refused.
   */
  lemma SupplementaryNameRefused(c: char, categoria: string)
    requires Text.IsSupplementary(c)
    ensures |seq(NombreMax, _ => c)| == NombreMax
    ensures !ValidCreate(DefaultCreate(seq(NombreMax, _ => c), categoria))
  {
    var nombre := seq(NombreMax, _ => c);
    assert Text.Utf16Length(nombre) == 2 * NombreMax;
  }
}
