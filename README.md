# Bodega inventory engine and movement ledger, in Dafny

This project models the core of the `productos_service` inventory backend:

- the **inventory engine** (`ProductoService`). It keeps a table of products keyed by id, with a quantity each. Its five mutating operations are create, update, delete, consume (`consumir`) and restock (`reabastecer`). Each one checks one product, writes it back or removes it, and records exactly one movement in the ledger.
- the **movement ledger** (`MovimientoService`). It owns the audit entries. It appends them, wipes them, and answers filtered, sorted and counted views of them.
- the **request bodies** (`ProductoDTOs`). Their field constraints are what the engine relies on, above all "quantity ≥ 0" and "amount ≥ 1".

Layout:

| file | module | models |
|---|---|---|
| `wrappers.dfy` | `Wrappers`, `Exceptions` | nullable values, results, the three exceptions |
| `text.dfy` | `Text` | `@NotBlank`, the UTF-16 length `@Size` counts, upper-case comparison, substring search, integer rendering |
| `product_dtos.dfy` | `ProductDtos` | `ProductoCreateDTO`, `ProductoUpdateDTO`, `StockOperationDTO` and their constraints |
| `products.dfy` | `Products` | `ProductoEntity` and the read-only product queries |
| `movements.dfy` | `Movements` | `MovimientoEntity` and every read-only ledger query, including the statistics |
| `movement_service.dfy` | `MovementService` | class `Ledger`: the ledger's writes |
| `product_service.dfy` | `ProductService` | class `Inventory`: the engine's five mutators |

Both services are `@Transactional`, so each public method is one atomic step. `Inventory` holds the product map, its id sequence and the injected `Ledger`. `Ledger` holds the movement sequence and its id sequence. Every mutator's contract gives the whole new state in terms of the old one: the product map, the product id sequence, the ledger's entries and the ledger's id sequence. The invariant `Inventory.Valid()` says that each product sits under its own id and that no quantity is negative. Every mutator requires it and re-establishes it, given the request-body constraints as preconditions. So quantities stay non-negative after any sequence of operations, as long as quantities are unbounded integers, as they are in the model. With Kotlin's 32-bit `Int`, restocking a product past 2147483647 units wraps to a negative quantity (see the `Restock` line under "## Left out"). `RiceExample`, `RiceDuplicateExample` and `RiceHistoryExample` in `product_service.dfy` are verified clients built from the contracts alone. In the first, rice is created with 10 units, 3 are consumed, and a request for 20 fails, leaving 7. In the second, a duplicate named "RICE" is refused and nothing is recorded for it. In the third, rice is restocked to 15 units and deleted, and its three movements are still found by its id.

Timestamps are abstract integers. Each mutator receives the current time as `now`. The statistics receive their three thresholds (start of today, one week ago, one calendar month ago) as parameters.

The model follows the code on these points:

- Names are unique ignoring case only at creation. `update` can rename a product to any name, so no uniqueness invariant is stated.
- The ledger is not append-only. `clearAll` empties it and the manual `create` appends arbitrary entries. Ledger facts are stated per operation.
- The engine does not re-check quantities itself. It relies on the request bodies being validated, so those constraints are preconditions.
- An update always records an "Editar" movement. The quantities appear in it only when a supplied quantity differs from the old one.
- Movement kinds are free strings, as in the entity. The engine writes only "Agregar", "Editar", "Eliminar", "Consumo" and "Reabastecimiento".
- There is no locking or version field. The model therefore claims nothing about concurrent lost updates.
- `findMovimientosHoy()` is called without the start-of-day argument that the repository query declares. The model takes that bound as an explicit parameter.

## Model

| member | source | states |
|---|---|---|
| `Text.NotBlank` | src/main/kotlin/com/mybodega/productos_service/dto/ProductoDTOs.kt:8-14 | a string is non-blank exactly when some character survives trimming (is above the space) |
| `Text.Utf16Length` | src/main/kotlin/com/mybodega/productos_service/dto/ProductoDTOs.kt:9 | the length `@Size` measures: between the number of characters and twice it, one unit per character in the Basic Multilingual Plane and two per character outside it |
| `ProductDtos.ValidCreate` | src/main/kotlin/com/mybodega/productos_service/dto/ProductoDTOs.kt:7-27 | non-blank name and category within 100 and 50 UTF-16 units, quantity ≥ 0, optional texts within 500, 200 and 500 units |
| `ProductDtos.ValidUpdate` | src/main/kotlin/com/mybodega/productos_service/dto/ProductoDTOs.kt:30-48 | the same length bounds and quantity floor, each applying only to a supplied field |
| `ProductDtos.ValidStockOperation` | src/main/kotlin/com/mybodega/productos_service/dto/ProductoDTOs.kt:68-74 | at least one unit is moved |
| `ProductDtos.SupplementaryNameRefused` | src/main/kotlin/com/mybodega/productos_service/dto/ProductoDTOs.kt:8-10 | a name of 100 characters outside the Basic Multilingual Plane is 200 units long and is refused |
| `ProductDtos.DefaultCreate` | src/main/kotlin/com/mybodega/productos_service/dto/ProductoDTOs.kt:7-27 | a create body with only the two names has quantity 0 and null optional texts; it is valid exactly when both names are non-blank and within 100 and 50 UTF-16 units |
| `ProductDtos.ValidCreateBounds` | src/main/kotlin/com/mybodega/productos_service/dto/ProductoDTOs.kt:8-17 | a valid create body has a name of 1..100 and a category of 1..50 characters and a quantity ≥ 0 |
| `ProductDtos.EmptyUpdate` | src/main/kotlin/com/mybodega/productos_service/dto/ProductoDTOs.kt:30-48 | every update field is optional: the body with no field is valid |
| `ProductDtos.BlankNameOnlyRefusedOnCreate` | src/main/kotlin/com/mybodega/productos_service/dto/ProductoDTOs.kt:30-47 | a blank name is refused in a create body and accepted in an update body |
| `ProductDtos.DefaultStockOperation` | src/main/kotlin/com/mybodega/productos_service/dto/ProductoDTOs.kt:68-74 | a stock operation defaults to one unit, and that is valid (the floor is 1) |
| `Products.FindById` | src/main/kotlin/com/mybodega/productos_service/service/ProductoService.kt:28-32 | the product stored under the id, or NotFound exactly when the id is absent |
| `Products.ExistsByNombreIgnoreCase` | src/main/kotlin/com/mybodega/productos_service/repository/Repositories.kt:30 | some stored product's name equals the given one after ASCII upper-casing |
| `Products.StockBajo` | src/main/kotlin/com/mybodega/productos_service/service/ProductoService.kt:184-187 | exactly the products with quantity ≤ the limit, unchanged |
| `Products.StockBajoDefault` | src/main/kotlin/com/mybodega/productos_service/service/ProductoService.kt:184-187 | with the default limit 2: exactly the products with at most two units, unchanged, including every sold-out product |
| `Products.Agotados` | src/main/kotlin/com/mybodega/productos_service/service/ProductoService.kt:190-193 | exactly the products with quantity 0, unchanged |
| `Products.ByCategoria` | src/main/kotlin/com/mybodega/productos_service/service/ProductoService.kt:178-181 | exactly the products of that category |
| `Products.SearchByNombre` | src/main/kotlin/com/mybodega/productos_service/service/ProductoService.kt:172-175 | exactly the products whose name contains the text, ignoring case |
| `Products.AgotadosIsStockBajoZero` | src/main/kotlin/com/mybodega/productos_service/service/ProductoService.kt:184-193 | while no quantity is negative, the sold-out products are the low-stock products for limit 0 |
| `Products.StockBajoMonotone` | src/main/kotlin/com/mybodega/productos_service/service/ProductoService.kt:184-187 | raising the limit only adds products; every sold-out product is low on stock for any limit ≥ 0 |
| `Movements.FilterMultiset` | src/main/kotlin/com/mybodega/productos_service/repository/Repositories.kt:44-47 | a filtered query returns each matching movement as often as the ledger holds it, and nothing else |
| `Movements.FindById` | src/main/kotlin/com/mybodega/productos_service/service/MovimientoService.kt:26-30 | a movement of the ledger with that id, or NotFound when no movement has it |
| `Movements.FindByIdFindsEach` | src/main/kotlin/com/mybodega/productos_service/service/MovimientoService.kt:26-30 | with increasing ids, looking up any entry's id returns that very entry |
| `Movements.ByTipoExact` | src/main/kotlin/com/mybodega/productos_service/service/MovimientoService.kt:70-73 | the kind query returns exactly the movements of that kind, each as often as in the ledger |
| `Movements.ByProductoIdExact` | src/main/kotlin/com/mybodega/productos_service/service/MovimientoService.kt:76-79 | the product-id query returns exactly the movements about that product id, each as often as in the ledger |
| `Movements.CountTipo` | src/main/kotlin/com/mybodega/productos_service/repository/Repositories.kt:62 | the count of a kind never exceeds the ledger size, and is 0 exactly when no movement has that kind |
| `Movements.ByProductoIdAfterAppend` | src/main/kotlin/com/mybodega/productos_service/service/ProductoService.kt:108-118 | appending keeps the old per-product answer as a prefix, and adds the new entry only if it is about that product |
| `Movements.SortByFechaDesc` | src/main/kotlin/com/mybodega/productos_service/service/MovimientoService.kt:20-23 | the whole ledger, as a permutation, newest first |
| `Movements.Recent` | src/main/kotlin/com/mybodega/productos_service/service/MovimientoService.kt:82-85 | min(50, size) entries of the ledger, newest first, and no left-out entry is newer than a returned one |
| `Movements.Since` | src/main/kotlin/com/mybodega/productos_service/repository/Repositories.kt:73-78 | newest first, as many entries as pass the threshold |
| `Movements.SinceContents` | src/main/kotlin/com/mybodega/productos_service/repository/Repositories.kt:73-78 | exactly the entries at or after the threshold, each as often as in the ledger |
| `Movements.SinceMonotone` | src/main/kotlin/com/mybodega/productos_service/service/MovimientoService.kt:121-126 | an earlier threshold counts at least as many entries, and never more than the ledger holds |
| `Movements.Tipos` | src/main/kotlin/com/mybodega/productos_service/repository/Repositories.kt:81-86 | the observed kinds, each listed once |
| `Movements.SumCountsTotal` | src/main/kotlin/com/mybodega/productos_service/service/MovimientoService.kt:110-115 | counting kind by kind over a list naming every kind once counts every movement once |
| `Movements.PorTipo` | src/main/kotlin/com/mybodega/productos_service/service/MovimientoService.kt:113-115 | keys are exactly the observed kinds, each mapped to its count, none zero |
| `Movements.Estadisticas` | src/main/kotlin/com/mybodega/productos_service/service/MovimientoService.kt:110-135 | total = ledger size; the per-kind map is the grouped count, covers exactly the observed kinds and sums to the total; the today, week and month counts are the numbers of movements at or after their thresholds, each ≤ total; week ≤ month when the month threshold is not later |
| `MovementService.Ledger.Record` | src/main/kotlin/com/mybodega/productos_service/service/MovimientoService.kt:48-67 | appends exactly one entry with the given fields, the next id and the current time; earlier entries unchanged |
| `MovementService.Ledger.Create` | src/main/kotlin/com/mybodega/productos_service/service/MovimientoService.kt:33-45 | copies every field of the body into exactly one new entry |
| `MovementService.Ledger.ClearAll` | src/main/kotlin/com/mybodega/productos_service/service/MovimientoService.kt:138-140 | the ledger is empty and the id sequence is kept |
| `ProductService.Inventory.Create` | src/main/kotlin/com/mybodega/productos_service/service/ProductoService.kt:35-63 | a name equal ignoring case to an existing one gives DuplicateResource and changes nothing; otherwise one product with exactly the supplied fields under a fresh id, the others unchanged, and one "Agregar" entry from 0 to the quantity |
| `ProductService.Inventory.Update` | src/main/kotlin/com/mybodega/productos_service/service/ProductoService.kt:66-101 | an absent id gives NotFound and changes nothing; otherwise only the supplied fields of that product change, and one "Editar" entry is recorded, with before/after exactly when a supplied quantity differs |
| `ProductService.Inventory.Delete` | src/main/kotlin/com/mybodega/productos_service/service/ProductoService.kt:104-119 | an absent id gives NotFound and changes nothing; otherwise one "Eliminar" entry from the quantity to 0 with the name and id, the product removed, and its earlier entries still found by id |
| `ProductService.Inventory.Consume` | src/main/kotlin/com/mybodega/productos_service/service/ProductoService.kt:122-146 | NotFound, or InsufficientStock when more is asked than stocked, both changing nothing; otherwise quantity − amount (0 when all is asked) and one "Consumo" entry from old to new |
| `ProductService.Inventory.Restock` | src/main/kotlin/com/mybodega/productos_service/service/ProductoService.kt:149-169 | NotFound changing nothing; otherwise quantity + amount with no upper bound and one "Reabastecimiento" entry from old to new |

## Left out

- HTTP controllers and `GlobalExceptionHandler`: routing and status-code mapping only. Request-body validation is modelled as the engine's preconditions.
- Users (`UsuarioService` and its DTOs, entity and repository): they rest on BCrypt hashing, a foreign library.
- Concurrency: each service method is one sequential atomic step, as `@Transactional` gives it. There is no locking, so nothing is claimed about lost updates.
- Spring Data and JPA: the repositories become a map and a sequence with id counters. Query results are sub-maps keyed by id (products) or sequences in ledger order (movements). The database's own row order is not modelled. The order among movements with equal timestamps in sorted queries is not specified either.
- `@PreUpdate` refresh of `fechaActualizacion`: not modelled. Both product timestamps are set at creation and kept.
- Clock: `LocalDateTime.now()` is the `now` parameter of each mutator. Nothing is assumed about its monotonicity.
- Calendar arithmetic (`minusWeeks`, `minusMonths`) and the start of today: the thresholds are parameters of `Movements.Estadisticas` and `Movements.Since`.
- `findByFechas` (date-range listing), the plain product `findAll` listing and `findAllCategorias`: plain queries outside the core.
- `toResponseDTO` conversions: the model returns the entity values themselves.
- Validation of `MovimientoCreateDTO`: the ledger does not rely on it, so manual creation copies any body.
- Case-insensitive comparison uses ASCII upper-casing only. Database collations and full Unicode case mapping are not modelled.
- `@NotBlank` is read as Hibernate Validator's trim-based check: some character must be above the space.
- ProductService.Inventory.Restock: quantities are unbounded integers. Kotlin's 32-bit wrap-around is not modelled. In the code, restocking a product that holds 2147483647 units by 1 wraps its quantity to -2147483648, so the non-negative-stock part of `Inventory.Valid()` holds only for quantities that stay within `Int`. The same unbounded reading applies to all other quantities and ids.
