/**
 * The movement entity and the read-only queries of MovimientoService over the
 * ledger, modelled as the sequence of movements in insertion order.
 */
module Movements {
  import opened Wrappers
  import opened Exceptions

  /** The kinds the inventory engine writes; the entity's `tipo` itself is a free string. */
  const Agregar: string := "Agregar"
  const Editar: string := "Editar"
  const Eliminar: string := "Eliminar"
  const Consumo: string := "Consumo"
  const Reabastecimiento: string := "Reabastecimiento"

  /** The number of movements findRecientes returns at most (findTop50ByOrderByFechaDesc). */
  const RecentLimit := 50

  /**
   * MovimientoEntity. `producto` is a snapshot of the product's name, and
   * `productoId` is kept after the product is deleted.
   */
  datatype Movement = Movement(
    id: int,
    tipo: string,
    producto: string,
    productoId: Option<int>,
    cantidadAnterior: Option<int>,
    cantidadNueva: Option<int>,
    fecha: int,
    detalles: Option<string>)

  /** MovimientoCreateDTO, the body of a manually created movement. */
  datatype MovementCreate = MovementCreate(
    tipo: string,
    producto: string,
    productoId: Option<int>,
    cantidadAnterior: Option<int>,
    cantidadNueva: Option<int>,
    detalles: Option<string>)

  /** Ids grow along the ledger, so no two movements share one. */
  predicate IdsIncreasing(l: seq<Movement>) {
    forall i, j :: 0 <= i < j < |l| ==> l[i].id < l[j].id
  }

  /** The movements of the ledger that satisfy a condition, in ledger order. */
  function Filter(l: seq<Movement>, f: Movement -> bool): (r: seq<Movement>)
    decreases |l|
  {
    if l == [] then []
    else Filter(l[..|l| - 1], f) + (if f(l[|l| - 1]) then [l[|l| - 1]] else [])
  }

  /** The filter keeps each movement that satisfies the condition as often as the ledger has it, and nothing else. */
  lemma {:induction false} FilterMultiset(l: seq<Movement>, f: Movement -> bool)
    ensures |Filter(l, f)| <= |l|
    ensures forall m :: multiset(Filter(l, f))[m] == if f(m) then multiset(l)[m] else 0
    ensures forall m :: m in Filter(l, f) <==> m in l && f(m)
    decreases |l|
  {
    if l != [] {
      var init, last := l[..|l| - 1], l[|l| - 1];
      assert l == init + [last];
      FilterMultiset(init, f);
      var r := Filter(l, f);
      assert multiset(r) == multiset(Filter(init, f)) + multiset(if f(last) then [last] else []);
      forall m ensures m in r <==> m in l && f(m) {
        assert m in r <==> multiset(r)[m] > 0;
        assert m in l <==> multiset(l)[m] > 0;
      }
    }
  }

  /** A condition that every movement satisfies keeps the whole ledger. */
  lemma {:induction false} FilterKeepsAll(l: seq<Movement>, f: Movement -> bool)
    requires forall i :: 0 <= i < |l| ==> f(l[i])
    ensures Filter(l, f) == l
    decreases |l|
  {
    if l != [] {
      var init := l[..|l| - 1];
      FilterKeepsAll(init, f);
      assert l == init + [l[|l| - 1]];
    }
  }

  /** A weaker condition keeps at least as many movements. */
  lemma {:induction false} FilterWeaker(l: seq<Movement>, f: Movement -> bool, g: Movement -> bool)
    requires forall m :: f(m) ==> g(m)
    ensures |Filter(l, f)| <= |Filter(l, g)|
    decreases |l|
  {
    if l != [] {
      FilterWeaker(l[..|l| - 1], f, g);
    }
  }

  /** findById: the movement with that id, or NotFound when there is none. */
  function FindById(l: seq<Movement>, id: int): (r: Result<Movement, Error>)
    ensures r.Ok? ==> r.value in l && r.value.id == id
    ensures r.Err? ==> r.error == NotFound && forall m :: m in l ==> m.id != id
  {
    if l == [] then Err(NotFound)
    else if l[0].id == id then Ok(l[0])
    else FindById(l[1..], id)
  }

  /** With increasing ids, findById finds each movement of the ledger by its own id. */
  lemma FindByIdFindsEach(l: seq<Movement>, i: int)
    requires IdsIncreasing(l)
    requires 0 <= i < |l|
    ensures FindById(l, l[i].id) == Ok(l[i])
  {
  }

  /** findByTipo: the movements of that kind, in ledger order. */
  function ByTipo(l: seq<Movement>, tipo: string): seq<Movement> {
    Filter(l, (m: Movement) => m.tipo == tipo)
  }

  /** findByTipo returns exactly the movements of that kind, each as often as the ledger holds it. */
  lemma ByTipoExact(l: seq<Movement>, tipo: string)
    ensures forall m :: m in ByTipo(l, tipo) <==> m in l && m.tipo == tipo
    ensures forall m :: multiset(ByTipo(l, tipo))[m] == if m.tipo == tipo then multiset(l)[m] else 0
  {
    FilterMultiset(l, (m: Movement) => m.tipo == tipo);
  }

  /** findByProductoId: the movements about that product id, in ledger order. */
  function ByProductoId(l: seq<Movement>, productoId: int): seq<Movement> {
    Filter(l, (m: Movement) => m.productoId == Some(productoId))
  }

  /** findByProductoId returns exactly the movements about that id, each as often as the ledger holds it. */
  lemma ByProductoIdExact(l: seq<Movement>, productoId: int)
    ensures forall m :: m in ByProductoId(l, productoId) <==> m in l && m.productoId == Some(productoId)
    ensures forall m :: multiset(ByProductoId(l, productoId))[m] ==
                        if m.productoId == Some(productoId) then multiset(l)[m] else 0
  {
    FilterMultiset(l, (m: Movement) => m.productoId == Some(productoId));
  }

  /**
   * Appending to the ledger never hides an earlier movement from the per-product
   * query: the old answer is a prefix of the new one, which gains the new entry
   * exactly when it is about that product.
   */
  lemma ByProductoIdAfterAppend(l: seq<Movement>, m: Movement, productoId: int)
    ensures ByProductoId(l + [m], productoId)
         == ByProductoId(l, productoId) + (if m.productoId == Some(productoId) then [m] else [])
  {
  }

  predicate SortedByFechaDesc(l: seq<Movement>) {
    forall i, j :: 0 <= i < j < |l| ==> l[i].fecha >= l[j].fecha
  }

  /** Inserts a movement into a list sorted newest first, keeping it sorted. */
  function InsertByFecha(m: Movement, s: seq<Movement>): (r: seq<Movement>)
    requires SortedByFechaDesc(s)
    ensures SortedByFechaDesc(r)
    ensures multiset(r) == multiset(s) + multiset{m}
    ensures |r| == |s| + 1
    ensures r[0] == m || (s != [] && r[0] == s[0])
  {
    if s == [] || m.fecha >= s[0].fecha then [m] + s
    else
      var rest := InsertByFecha(m, s[1..]);
      assert s == [s[0]] + s[1..];
      [s[0]] + rest
  }

  /**
   * findAll (findAllByOrderByFechaDesc): the whole ledger, newest first. The
   * order among movements with the same timestamp is not specified by the query.
   */
  function SortByFechaDesc(l: seq<Movement>): (r: seq<Movement>)
    ensures SortedByFechaDesc(r)
    ensures multiset(r) == multiset(l)
    ensures |r| == |l|
  {
    if l == [] then []
    else
      assert l == [l[0]] + l[1..];
      InsertByFecha(l[0], SortByFechaDesc(l[1..]))
  }

  /** What a prefix leaves out of a list lies in the rest of the list. */
  lemma LeftOutIsSuffix(s: seq<Movement>, k: nat)
    requires k <= |s|
    ensures forall x :: x in multiset(s) - multiset(s[..k]) ==> x in s[k..]
  {
    assert s == s[..k] + s[k..];
    assert multiset(s) == multiset(s[..k]) + multiset(s[k..]);
  }

  /** Cutting a sorted list keeps it sorted and within the list. */
  lemma TakeSorted(s: seq<Movement>, k: nat)
    requires SortedByFechaDesc(s)
    requires k <= |s|
    ensures SortedByFechaDesc(s[..k])
    ensures multiset(s[..k]) <= multiset(s)
  {
    assert s == s[..k] + s[k..];
  }

  /** Cutting a sorted list leaves out nothing newer than what it keeps. */
  lemma TakeKeepsNewest(s: seq<Movement>, k: nat)
    requires SortedByFechaDesc(s)
    requires k <= |s|
    ensures forall x, y :: x in multiset(s) - multiset(s[..k]) && y in s[..k] ==> x.fecha <= y.fecha
  {
    LeftOutIsSuffix(s, k);
    forall x, y | x in multiset(s) - multiset(s[..k]) && y in s[..k]
      ensures x.fecha <= y.fecha
    {
      var j :| k <= j < |s| && s[j] == x;
      var i :| 0 <= i < k && s[i] == y;
    }
  }

  /**
   * findRecientes: at most 50 movements of the ledger, newest first, and no
   * movement it leaves out is newer than one it returns.
   */
  function Recent(l: seq<Movement>): (r: seq<Movement>)
    ensures |r| == if |l| < RecentLimit then |l| else RecentLimit
    ensures SortedByFechaDesc(r)
    ensures multiset(r) <= multiset(l)
    ensures forall x, y :: x in multiset(l) - multiset(r) && y in r ==> x.fecha <= y.fecha
  {
    var s := SortByFechaDesc(l);
    var k := if |s| < RecentLimit then |s| else RecentLimit;
    TakeSorted(s, k);
    TakeKeepsNewest(s, k);
    s[..k]
  }

  /**
   * The movements at or after a threshold, newest first: the query behind
   * findMovimientosHoy and findMovimientosSemana (fecha >= :fechaInicio ORDER BY fecha DESC).
   */
  function Since(l: seq<Movement>, desde: int): (r: seq<Movement>)
    ensures SortedByFechaDesc(r)
    ensures |r| == |Filter(l, (m: Movement) => m.fecha >= desde)|
  {
    SortByFechaDesc(Filter(l, (m: Movement) => m.fecha >= desde))
  }

  /** The window holds every entry at or after the threshold, as often as the ledger does, and nothing else. */
  lemma SinceContents(l: seq<Movement>, desde: int)
    ensures forall m :: multiset(Since(l, desde))[m] == if m.fecha >= desde then multiset(l)[m] else 0
  {
    FilterMultiset(l, (m: Movement) => m.fecha >= desde);
  }

  /** An earlier threshold counts at least as many movements, and never more than the ledger holds. */
  lemma SinceMonotone(l: seq<Movement>, earlier: int, later: int)
    requires earlier <= later
    ensures |Since(l, later)| <= |Since(l, earlier)| <= |l|
  {
    FilterWeaker(l, (m: Movement) => m.fecha >= later, (m: Movement) => m.fecha >= earlier);
    FilterMultiset(l, (m: Movement) => m.fecha >= earlier);
  }

  predicate Distinct(ts: seq<string>) {
    forall i, j :: 0 <= i < j < |ts| ==> ts[i] != ts[j]
  }

  /** The kinds present in the ledger, each once, in order of first appearance. */
  function Tipos(l: seq<Movement>): (ts: seq<string>)
    ensures Distinct(ts)
    ensures forall t :: t in ts <==> exists m :: m in l && m.tipo == t
    decreases |l|
  {
    if l == [] then []
    else
      var init, last := l[..|l| - 1], l[|l| - 1];
      assert l == init + [last];
      var ts := Tipos(init);
      if last.tipo in ts then ts else ts + [last.tipo]
  }

  /** countByTipo */
  function CountTipo(l: seq<Movement>, tipo: string): (n: nat)
    ensures n <= |l|
    ensures n == 0 <==> forall m :: m in l ==> m.tipo != tipo
  {
    ByTipoExact(l, tipo);
    FilterMultiset(l, (m: Movement) => m.tipo == tipo);
    |ByTipo(l, tipo)|
  }

  /** The movements counted under the kinds of `ks`, kind by kind. */
  function SumCounts(l: seq<Movement>, ks: seq<string>): nat {
    if ks == [] then 0 else CountTipo(l, ks[0]) + SumCounts(l, ks[1..])
  }

  /** How often a kind occurs in a list of kinds. */
  function Occurrences(ks: seq<string>, t: string): nat {
    if ks == [] then 0 else (if ks[0] == t then 1 else 0) + Occurrences(ks[1..], t)
  }

  lemma {:induction false} OccurrencesDistinct(ks: seq<string>, t: string)
    requires Distinct(ks)
    ensures Occurrences(ks, t) == if t in ks then 1 else 0
  {
    if ks != [] {
      assert Distinct(ks[1..]) by {
        forall i, j | 0 <= i < j < |ks[1..]| ensures ks[1..][i] != ks[1..][j] {
          assert ks[1..][i] == ks[i + 1] && ks[1..][j] == ks[j + 1];
        }
      }
      OccurrencesDistinct(ks[1..], t);
      assert ks == [ks[0]] + ks[1..];
      if ks[0] == t {
        forall i | 0 <= i < |ks[1..]| ensures ks[1..][i] != t {
          assert ks[1..][i] == ks[i + 1];
        }
      }
    }
  }

  lemma CountTipoAppend(l: seq<Movement>, m: Movement, t: string)
    ensures CountTipo(l + [m], t) == CountTipo(l, t) + (if m.tipo == t then 1 else 0)
  {
  }

  lemma {:induction false} SumCountsAppend(l: seq<Movement>, m: Movement, ks: seq<string>)
    ensures SumCounts(l + [m], ks) == SumCounts(l, ks) + Occurrences(ks, m.tipo)
    decreases |ks|
  {
    if ks != [] {
      CountTipoAppend(l, m, ks[0]);
      SumCountsAppend(l, m, ks[1..]);
    }
  }

  /** Counting kind by kind over a list that names every kind once counts every movement once. */
  lemma {:induction false} SumCountsTotal(l: seq<Movement>, ks: seq<string>)
    requires Distinct(ks)
    requires forall m :: m in l ==> m.tipo in ks
    ensures SumCounts(l, ks) == |l|
    decreases |l|
  {
    if l == [] {
      SumCountsEmpty(ks);
    } else {
      var init, last := l[..|l| - 1], l[|l| - 1];
      assert l == init + [last];
      SumCountsTotal(init, ks);
      SumCountsAppend(init, last, ks);
      OccurrencesDistinct(ks, last.tipo);
    }
  }

  lemma {:induction false} SumCountsEmpty(ks: seq<string>)
    ensures SumCounts([], ks) == 0
  {
    if ks != [] {
      SumCountsEmpty(ks[1..]);
    }
  }

  /** GROUP BY tipo, then associate: each observed kind to its number of movements. */
  function PorTipo(l: seq<Movement>): (counts: map<string, nat>)
    ensures forall t :: t in counts <==> exists m :: m in l && m.tipo == t
    ensures forall t :: t in counts ==> counts[t] == CountTipo(l, t) >= 1
  {
    assert forall t :: t in Tipos(l) ==> CountTipo(l, t) >= 1 by {
      forall t | t in Tipos(l) ensures CountTipo(l, t) >= 1 {
        ByTipoExact(l, t);
        var m :| m in l && m.tipo == t;
        assert m in ByTipo(l, t);
      }
    }
    map t | t in Tipos(l) :: CountTipo(l, t)
  }

  /** The values of a map over a list of its keys, added up. */
  function SumValues(counts: map<string, nat>, ks: seq<string>): nat
    requires forall k :: k in ks ==> k in counts
  {
    if ks == [] then 0 else counts[ks[0]] + SumValues(counts, ks[1..])
  }

  lemma {:induction false} SumValuesPorTipo(l: seq<Movement>, ks: seq<string>)
    requires forall k :: k in ks ==> k in PorTipo(l)
    ensures SumValues(PorTipo(l), ks) == SumCounts(l, ks)
    decreases |ks|
  {
    if ks != [] {
      SumValuesPorTipo(l, ks[1..]);
    }
  }

  /** EstadisticasMovimientosDTO */
  datatype Statistics = Statistics(
    totalMovimientos: nat,
    movimientosPorTipo: map<string, nat>,
    movimientosHoy: nat,
    movimientosEstaSemana: nat,
    movimientosEsteMes: nat)

  /**
   * getEstadisticas, with the three thresholds (start of today, one week ago,
   * one calendar month ago) passed in. The per-kind counts cover exactly the
   * observed kinds, omit none with count zero, and add up to the total; the
   * window counts never exceed the total, and the month window holds at least
   * the week window whenever its threshold is not later.
   */
  function Estadisticas(l: seq<Movement>, hoyDesde: int, semanaDesde: int, mesDesde: int): (s: Statistics)
    ensures s.totalMovimientos == |l|
    ensures forall t :: t in s.movimientosPorTipo <==> t in Tipos(l)
    ensures forall t :: t in s.movimientosPorTipo ==> s.movimientosPorTipo[t] >= 1
    ensures Distinct(Tipos(l)) && SumValues(s.movimientosPorTipo, Tipos(l)) == s.totalMovimientos
    ensures s.movimientosHoy <= s.totalMovimientos
    ensures s.movimientosEstaSemana <= s.totalMovimientos
    ensures s.movimientosEsteMes <= s.totalMovimientos
    ensures mesDesde <= semanaDesde ==> s.movimientosEstaSemana <= s.movimientosEsteMes
    ensures s.movimientosPorTipo == PorTipo(l)
    ensures s.movimientosHoy == |Filter(l, (m: Movement) => m.fecha >= hoyDesde)|
    ensures s.movimientosEstaSemana == |Filter(l, (m: Movement) => m.fecha >= semanaDesde)|
    ensures s.movimientosEsteMes == |Filter(l, (m: Movement) => m.fecha >= mesDesde)|
  {
    var porTipo := PorTipo(l);
    SumValuesPorTipo(l, Tipos(l));
    SumCountsTotal(l, Tipos(l));
    SinceMonotone(l, hoyDesde, hoyDesde);
    SinceMonotone(l, semanaDesde, semanaDesde);
    SinceMonotone(l, mesDesde, mesDesde);
    assert mesDesde <= semanaDesde ==> |Since(l, semanaDesde)| <= |Since(l, mesDesde)| by {
      if mesDesde <= semanaDesde { SinceMonotone(l, mesDesde, semanaDesde); }
    }
    Statistics(|l|, porTipo, |Since(l, hoyDesde)|, |Since(l, semanaDesde)|, |Since(l, mesDesde)|)
  }
}
