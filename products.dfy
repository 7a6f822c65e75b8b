/**
 * `ProductRepository`: the product table as the repository writes it. The
 * table is a sequence of rows; `commits` counts the transactions committed.
 * Timestamps are plain integers and "now" is passed in.
 */
module ProductRepository {
  import opened Wrappers
  import Text
  import opened ProductEntity

  // ----- timestamps ----------------------------------------------------------------

  /**
   * The timestamps a new row is written with: `fecha_creacion or now`, and
   * `fecha_actualizacion or fecha_creacion`.
   */
  function Stamp(p: Product, now: int): (r: Product)
    ensures r.fechaCreacion == Some(p.fechaCreacion.GetOr(now))
    ensures r.fechaActualizacion == (if p.fechaActualizacion.Some? then p.fechaActualizacion else r.fechaCreacion)
    ensures r.(fechaCreacion := p.fechaCreacion, fechaActualizacion := p.fechaActualizacion) == p
  {
    var creado := p.fechaCreacion.GetOr(now);
    p.(fechaCreacion := Some(creado), fechaActualizacion := Some(p.fechaActualizacion.GetOr(creado)))
  }

  /** A row that already carries both timestamps is written as it is, whatever the clock says. */
  lemma StampIdempotent(p: Product, now: int, later: int)
    ensures Stamp(Stamp(p, now), later) == Stamp(p, now)
  {
  }

  // ----- search ----------------------------------------------------------------------

  const TruthyTerms: set<string> := {"true", "1", "yes", "si", "on"}
  const FalsyTerms: set<string> := {"false", "0", "no", "off"}

  /**
   * The `estado` condition `search_products` adds for a term: `estado IS TRUE`
   * for a truthy word, `estado IS FALSE` for a falsy one, none otherwise.
   */
  function EstadoFilter(term: string): (r: Option<bool>)
    ensures r == Some(true) <==> Text.Lower(Text.Strip(term)) in TruthyTerms
    ensures r == Some(false) <==> Text.Lower(Text.Strip(term)) in FalsyTerms
    ensures r.None? <==> Text.Lower(Text.Strip(term)) !in TruthyTerms + FalsyTerms
  {
    TermsDisjoint();
    var lowered := Text.Lower(Text.Strip(term));
    if lowered in TruthyTerms then Some(true)
    else if lowered in FalsyTerms then Some(false)
    else None
  }

  /** No word is both truthy and falsy, so the order of the two tests does not matter. */
  lemma TermsDisjoint()
    ensures TruthyTerms * FalsyTerms == {}
  {
    assert forall w | w in TruthyTerms :: w !in FalsyTerms;
  }

  /** Case and surrounding blanks do not matter. */
  lemma EstadoFilterPadded()
    ensures EstadoFilter(" SI ") == Some(true)
  {
    var t := " SI ";
    Text.FirstOutsideUnique(t, Text.Whitespace, 1);
    var u := t[1..];
    Text.EndOutsideUnique(u, Text.Whitespace, 2);
    assert u[..2] == "SI";
    assert Text.Lower("SI") == "si";
  }

  /** A falsy word in mixed case adds `estado IS FALSE`. */
  lemma EstadoFilterMixedCase()
    ensures EstadoFilter("Off") == Some(false)
  {
    Text.StripCharsNoop("Off", Text.Whitespace);
    assert Text.Lower("Off") == "off";
  }

  /** A word outside both lists adds no condition. */
  lemma EstadoFilterUnknown()
    ensures EstadoFilter("activo") == None
  {
    Text.StripCharsNoop("activo", Text.Whitespace);
    assert Text.Lower("activo") == "activo";
  }

  // ----- lookup by id ------------------------------------------------------------------

  /** The position of the first row whose `producto_id` is `id` (`.filter(...).first()`). */
  function FindById(rows: seq<Product>, id: int): (r: Option<nat>)
    ensures r.Some? ==> r.value < |rows| && rows[r.value].productoId == Some(id)
    ensures r.Some? ==> forall k | 0 <= k < r.value :: rows[k].productoId != Some(id)
    ensures r.None? <==> forall k | 0 <= k < |rows| :: rows[k].productoId != Some(id)
  {
    if rows == [] then None
    else if rows[0].productoId == Some(id) then Some(0)
    else
      var r := FindById(rows[1..], id);
      if r.None? then None else Some(r.value + 1)
  }

  /**
   * The row after `update_product_status`: `estado` is set, `actualizado_por_id`
   * only when one is given, and `fecha_actualizacion` is the given time or now.
   */
  function StatusUpdated(p: Product, estado: bool, actualizadoPorId: Option<int>, fecha: Option<int>, now: int)
    : (r: Product)
    ensures r.estado == estado && r.fechaActualizacion == Some(fecha.GetOr(now))
    ensures actualizadoPorId.Some? ==> r.actualizadoPorId == actualizadoPorId
    ensures actualizadoPorId.None? ==> r.actualizadoPorId == p.actualizadoPorId
    ensures r.(estado := p.estado, actualizadoPorId := p.actualizadoPorId, fechaActualizacion := p.fechaActualizacion) == p
  {
    p.(estado := estado,
       actualizadoPorId := if actualizadoPorId.Some? then actualizadoPorId else p.actualizadoPorId,
       fechaActualizacion := Some(fecha.GetOr(now)))
  }

  /** Setting the same status twice with an explicit time is the same as setting it once. */
  lemma StatusUpdateIdempotent(p: Product, estado: bool, actualizadoPorId: Option<int>, fecha: int, now: int, later: int)
    ensures StatusUpdated(StatusUpdated(p, estado, actualizadoPorId, Some(fecha), now), estado, actualizadoPorId, Some(fecha), later)
         == StatusUpdated(p, estado, actualizadoPorId, Some(fecha), now)
  {
  }

  // ----- batch import --------------------------------------------------------------------

  /** The barcodes already in the table. */
  function StoredCodes(rows: seq<Product>): set<string> {
    set j | 0 <= j < |rows| :: rows[j].codigoBarras
  }

  /**
   * Whether `import_products` writes `ps[m]`: its barcode is non-empty, not in
   * the table, and no earlier product of the batch has the same barcode.
   */
  predicate Kept(existing: set<string>, ps: seq<Product>, m: nat)
    requires m < |ps|
  {
    && ps[m].codigoBarras != []
    && ps[m].codigoBarras !in existing
    && forall l | 0 <= l < m :: ps[l].codigoBarras != ps[m].codigoBarras
  }

  /** The rows written for `ps[i..]` and the number of products skipped there. */
  function ImportFrom(existing: set<string>, ps: seq<Product>, i: nat, now: int): (out: (seq<Product>, nat))
    requires i <= |ps|
    ensures |out.0| + out.1 == |ps| - i
    decreases |ps| - i
  {
    if i == |ps| then ([], 0)
    else
      var rest := ImportFrom(existing, ps, i + 1, now);
      if Kept(existing, ps, i) then ([Stamp(ps[i], now)] + rest.0, rest.1)
      else (rest.0, rest.1 + 1)
  }

  /** The rows written for `ps[i..]`. */
  function Written(existing: set<string>, ps: seq<Product>, i: nat, now: int): seq<Product>
    requires i <= |ps|
  {
    ImportFrom(existing, ps, i, now).0
  }

  /**
   * The rows written by the part from `i` on have non-empty barcodes that are
   * not in the table, differ from every earlier barcode of the batch, and
   * differ from each other.
   */
  lemma {:induction false} ImportFromCodes(existing: set<string>, ps: seq<Product>, i: nat, now: int)
    requires i <= |ps|
    ensures forall j | 0 <= j < |Written(existing, ps, i, now)| ::
      Written(existing, ps, i, now)[j].codigoBarras != [] && Written(existing, ps, i, now)[j].codigoBarras !in existing
    ensures forall j, l | 0 <= j < |Written(existing, ps, i, now)| && 0 <= l < i ::
      Written(existing, ps, i, now)[j].codigoBarras != ps[l].codigoBarras
    ensures forall j, k | 0 <= j < k < |Written(existing, ps, i, now)| ::
      Written(existing, ps, i, now)[j].codigoBarras != Written(existing, ps, i, now)[k].codigoBarras
    decreases |ps| - i
  {
    if i < |ps| {
      ImportFromCodes(existing, ps, i + 1, now);
      var rest := Written(existing, ps, i + 1, now);
      if Kept(existing, ps, i) {
        var rows := [Stamp(ps[i], now)] + rest;
        assert rows == Written(existing, ps, i, now);
        assert rows[0].codigoBarras == ps[i].codigoBarras;
        assert forall j | 1 <= j < |rows| :: rows[j] == rest[j - 1];
        forall j, l | 0 <= j < |rows| && 0 <= l < i
          ensures rows[j].codigoBarras != ps[l].codigoBarras
        {
          if j > 0 {
            assert rows[j] == rest[j - 1];
          }
        }
      } else {
        assert rest == Written(existing, ps, i, now);
      }
    }
  }

  /**
   * What `import(products)` promises: every product is either written or
   * skipped, and the barcodes written are non-empty, new to the table and
   * pairwise distinct.
   */
  lemma ImportSound(existing: set<string>, ps: seq<Product>, now: int)
    ensures |Written(existing, ps, 0, now)| + ImportFrom(existing, ps, 0, now).1 == |ps|
    ensures forall j | 0 <= j < |Written(existing, ps, 0, now)| ::
      Written(existing, ps, 0, now)[j].codigoBarras != [] && Written(existing, ps, 0, now)[j].codigoBarras !in existing
    ensures forall j, k | 0 <= j < k < |Written(existing, ps, 0, now)| ::
      Written(existing, ps, 0, now)[j].codigoBarras != Written(existing, ps, 0, now)[k].codigoBarras
  {
    ImportFromCodes(existing, ps, 0, now);
  }

  /** Of two products with the same new barcode, the first is written and the second skipped. */
  lemma FirstOccurrenceWins(existing: set<string>, p: Product, q: Product, now: int)
    requires p.codigoBarras == q.codigoBarras && p.codigoBarras != [] && p.codigoBarras !in existing
    ensures ImportFrom(existing, [p, q], 0, now) == ([Stamp(p, now)], 1)
  {
    var ps := [p, q];
    assert !Kept(existing, ps, 1) by {
      assert ps[0].codigoBarras == ps[1].codigoBarras;
    }
    assert Kept(existing, ps, 0);
    assert ImportFrom(existing, ps, 2, now) == ([], 0);
    assert ImportFrom(existing, ps, 1, now) == ([], 1);
    assert ImportFrom(existing, ps, 0, now) == ([Stamp(p, now)] + [], 1);
    assert [Stamp(p, now)] + [] == [Stamp(p, now)];
  }

  /** The codes the loop has marked as seen before position `i`. */
  ghost function SeenBefore(existing: set<string>, ps: seq<Product>, i: nat): set<string>
    requires i <= |ps|
  {
    set l | 0 <= l < i && ps[l].codigoBarras != [] && ps[l].codigoBarras !in existing :: ps[l].codigoBarras
  }

  class ProductStore {
    var rows: seq<Product>
    var commits: nat

    constructor(rows: seq<Product>)
      ensures this.rows == rows && commits == 0
    {
      this.rows := rows;
      commits := 0;
    }

    /** `create_product(entity)`: one stamped row, committed. */
    method CreateProduct(p: Product, now: int) returns (r: Product)
      modifies this
      ensures r == Stamp(p, now)
      ensures rows == old(rows) + [r] && commits == old(commits) + 1
    {
      r := Stamp(p, now);
      rows := rows + [r];
      commits := commits + 1;
    }

    /**
     * `update_product_status(product_id, estado, actualizado_por_id,
     * fecha_actualizacion)`: None and no commit for an unknown id; otherwise
     * the row is updated in place and committed.
     */
    method UpdateProductStatus(productId: int, estado: bool, actualizadoPorId: Option<int>,
                               fechaActualizacion: Option<int>, now: int) returns (r: Option<Product>)
      modifies this
      ensures FindById(old(rows), productId).None? ==> r.None? && rows == old(rows) && commits == old(commits)
      ensures FindById(old(rows), productId).Some? ==>
        var k := FindById(old(rows), productId).value;
        && r == Some(StatusUpdated(old(rows)[k], estado, actualizadoPorId, fechaActualizacion, now))
        && rows == old(rows)[k := r.value] && commits == old(commits) + 1
    {
      var k := FindById(rows, productId);
      if k.None? {
        return None;
      }
      var updated := StatusUpdated(rows[k.value], estado, actualizadoPorId, fechaActualizacion, now);
      rows := rows[k.value := updated];
      commits := commits + 1;
      r := Some(updated);
    }

    /**
     * `import_products(products)`: the `seen` loop. Returns (created, skipped);
     * a single commit happens exactly when something was created.
     */
    method ImportProducts(products: seq<Product>, now: int) returns (created: nat, skipped: nat)
      modifies this
      ensures var (added, k) := ImportFrom(StoredCodes(old(rows)), products, 0, now);
        && rows == old(rows) + added && created == |added| && skipped == k
      ensures commits == old(commits) + (if created > 0 then 1 else 0)
    {
      if products == [] {
        return 0, 0;
      }
      var existing := set j | 0 <= j < |rows| :: rows[j].codigoBarras;
      ghost var start := rows;
      ghost var total := ImportFrom(existing, products, 0, now);
      var seen: set<string> := {};
      created, skipped := 0, 0;
      var i := 0;
      while i < |products|
        invariant 0 <= i <= |products|
        invariant seen == SeenBefore(existing, products, i)
        invariant |rows| == |start| + created && rows[..|start|] == start
        invariant rows[|start|..] + ImportFrom(existing, products, i, now).0 == total.0
        invariant skipped + ImportFrom(existing, products, i, now).1 == total.1
        invariant commits == old(commits)
      {
        var code := products[i].codigoBarras;
        if code == [] || code in existing || code in seen {
          assert !Kept(existing, products, i);
          assert SeenBefore(existing, products, i + 1) == seen;
          skipped := skipped + 1;
        } else {
          assert Kept(existing, products, i);
          assert SeenBefore(existing, products, i + 1) == seen + {code};
          seen := seen + {code};
          rows := rows + [Stamp(products[i], now)];
          created := created + 1;
        }
        i := i + 1;
      }
      if created > 0 {
        commits := commits + 1;
      }
    }
  }
}
