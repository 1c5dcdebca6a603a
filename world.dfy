/** The world of world.py: the objects grouped by category and the uniform
    8 x 6 spatial grid that indexes them by the cells their bounding boxes
    cover, with the area query built on it. */
module Worlds {
  import opened Numerics
  import opened NeuroBlobs
  import opened WorldObjects
  import Agents

  /** `grid_size`: columns, then rows. */
  const COLUMNS: int := 8
  const ROWS: int := 6

  type Cell = (int, int)
  type Grid = map<Cell, set<WorldObject>>

  // ---------------------------------------------------------------------
  // Cells.

  /** Every cell of the grid. */
  function AllCells(): set<Cell>
  {
    set c: int, r: int | 0 <= c < COLUMNS && 0 <= r < ROWS :: (c, r)
  }

  /** The first `rows` cells of column `c`. */
  function ColumnCells(c: int, rows: int): set<Cell>
  {
    set r: int | 0 <= r < rows :: (c, r)
  }

  /** The cells of the first `cols` columns. */
  function CellsLeftOf(cols: int): set<Cell>
  {
    set c: int, r: int | 0 <= c < cols && 0 <= r < ROWS :: (c, r)
  }

  lemma {:induction false} ColumnCount(c: int, rows: nat)
    ensures |ColumnCells(c, rows)| == rows
  {
    if rows > 0 {
      ColumnCount(c, rows - 1);
      assert ColumnCells(c, rows) == ColumnCells(c, rows - 1) + {(c, rows - 1)};
    }
  }

  lemma {:induction false} CellsLeftOfCount(cols: nat)
    ensures |CellsLeftOf(cols)| == cols * ROWS
  {
    if cols > 0 {
      CellsLeftOfCount(cols - 1);
      ColumnCount(cols - 1, ROWS);
      assert CellsLeftOf(cols) == CellsLeftOf(cols - 1) + ColumnCells(cols - 1, ROWS);
      assert CellsLeftOf(cols - 1) !! ColumnCells(cols - 1, ROWS);
    }
  }

  /** The grid has 8 x 6 = 48 cells. */
  lemma AllCellsCount()
    ensures |AllCells()| == 48
  {
    CellsLeftOfCount(COLUMNS);
    assert AllCells() == CellsLeftOf(COLUMNS);
  }

  /** `_create_empty_grid()`: an empty set in each of the 48 cells. */
  function EmptyGrid(): (g: Grid)
    ensures g.Keys == AllCells() && |g.Keys| == 48
    ensures forall c :: c in g ==> g[c] == {}
  {
    AllCellsCount();
    map c | c in AllCells() :: {}
  }

  /** An inclusive rectangle of column and row indices. */
  datatype CellRange = CellRange(minCol: int, maxCol: int, minRow: int, maxRow: int)

  /** The cells of a range: `{(c, r) for c in range(minCol, maxCol + 1) for r in range(minRow, maxRow + 1)}`. */
  function CellsIn(b: CellRange): set<Cell>
  {
    set c: int, r: int | b.minCol <= c <= b.maxCol && b.minRow <= r <= b.maxRow :: (c, r)
  }

  /** `max(0, min(v, hi))` on indices. */
  function ClampIndex(v: int, hi: int): (r: int)
    requires hi >= 0
    ensures 0 <= r <= hi
    ensures 0 <= v <= hi ==> r == v
    ensures v <= r || r == hi
    ensures r <= v || r == 0
  {
    if v < 0 then 0 else if v > hi then hi else v
  }

  /** The index of fraction `f` of an axis split into `n` parts, as `int(f * n)`. */
  function IndexOf(p: real, extent: real, n: int): int
    requires extent > 0.0
  {
    Trunc(p / extent * n as real)
  }

  /** The column or row range of `_get_object_cells` on one axis: the
      object spans `p - radius` to `p + radius`, and the indices are clamped
      to the grid from below and above respectively. */
  function ObjectSpan(p: real, radius: real, extent: real, n: int): (r: (int, int))
    requires extent > 0.0 && n > 0
    ensures 0 <= r.0 && r.1 <= n - 1
  {
    (Max0(IndexOf(p - radius, extent, n)), MinIndex(n - 1, IndexOf(p + radius, extent, n)))
  }

  function Max0(v: int): (r: int)
    ensures r >= 0 && r >= v && (r == v || r == 0)
  {
    if v < 0 then 0 else v
  }

  function MinIndex(a: int, b: int): (r: int)
    ensures r <= a && r <= b && (r == a || r == b)
  {
    if a <= b then a else b
  }

  /** `_get_object_cells` for an object centred at (x, y) whose `radius`
      attribute is `radius`, or which has none. */
  function CellsOf(x: real, y: real, radius: Option<real>, width: real, height: real): (r: set<Cell>)
    requires width > 0.0 && height > 0.0
    ensures r <= AllCells()
    ensures radius.None? ==> r == {}
  {
    if radius.None? then {}
    else
      var cols := ObjectSpan(x, radius.value, width, COLUMNS);
      var rows := ObjectSpan(y, radius.value, height, ROWS);
      var b := CellRange(cols.0, cols.1, rows.0, rows.1);
      assert forall c :: c in CellsIn(b) ==> c in AllCells();
      CellsIn(b)
  }

  /** Scaling a coordinate to a grid index is monotone. */
  lemma IndexMonotone(p: real, q: real, extent: real, n: int)
    requires p <= q && extent > 0.0 && n > 0
    ensures IndexOf(p, extent, n) <= IndexOf(q, extent, n)
  {
    assert p / extent <= q / extent;
    MulRight(p / extent, q / extent, n as real);
    TruncMonotone(p / extent * n as real, q / extent * n as real);
  }

  /** A point of the world lies in the cell its coordinates scale to. */
  lemma IndexInGrid(p: real, extent: real, n: int)
    requires 0.0 <= p < extent && n > 0
    ensures 0 <= IndexOf(p, extent, n) < n
  {
    assert 0.0 <= p / extent < 1.0;
    MulRight(0.0, p / extent, n as real);
    MulRightStrict(p / extent, 1.0, n as real);
  }

  /** An object whose centre is inside the world, with a non-negative
      radius, is registered in (at least) the cell holding its centre. */
  lemma CentreCellRegistered(x: real, y: real, radius: real, width: real, height: real)
    requires width > 0.0 && height > 0.0 && radius >= 0.0
    requires 0.0 <= x < width && 0.0 <= y < height
    ensures (IndexOf(x, width, COLUMNS), IndexOf(y, height, ROWS)) in CellsOf(x, y, Some(radius), width, height)
  {
    IndexMonotone(x - radius, x, width, COLUMNS);
    IndexMonotone(x, x + radius, width, COLUMNS);
    IndexMonotone(y - radius, y, height, ROWS);
    IndexMonotone(y, y + radius, height, ROWS);
    IndexInGrid(x, width, COLUMNS);
    IndexInGrid(y, height, ROWS);
  }

  // ---------------------------------------------------------------------
  // Grid updates, over values.

  /** `grid` after `_add_to_grid(obj, cells)`. */
  function Added(g: Grid, obj: WorldObject, cells: set<Cell>): (r: Grid)
    ensures r.Keys == g.Keys
    ensures forall c :: c in g ==> (obj in r[c] <==> obj in g[c] || c in cells)
    ensures forall c :: c in g ==> r[c] - {obj} == g[c] - {obj}
    ensures forall c :: c in g && c !in cells ==> r[c] == g[c]
  {
    map c | c in g :: if c in cells then g[c] + {obj} else g[c]
  }

  /** `grid` after `_remove_from_grid(obj, cells)`. */
  function Removed(g: Grid, obj: WorldObject, cells: set<Cell>): (r: Grid)
    ensures r.Keys == g.Keys
    ensures forall c :: c in g ==> (obj in r[c] <==> obj in g[c] && c !in cells)
    ensures forall c :: c in g ==> r[c] - {obj} == g[c] - {obj}
    ensures forall c :: c in g && c !in cells ==> r[c] == g[c]
  {
    map c | c in g :: if c in cells then g[c] - {obj} else g[c]
  }

  /** Adding or removing twice is adding or removing once. */
  lemma {:induction false} AddRemoveIdempotent(g: Grid, obj: WorldObject, cells: set<Cell>)
    ensures Added(Added(g, obj, cells), obj, cells) == Added(g, obj, cells)
    ensures Removed(Removed(g, obj, cells), obj, cells) == Removed(g, obj, cells)
  {
    var a, a2 := Added(g, obj, cells), Added(Added(g, obj, cells), obj, cells);
    assert forall c :: c in a ==> a2[c] == a[c];
    var d, d2 := Removed(g, obj, cells), Removed(Removed(g, obj, cells), obj, cells);
    assert forall c :: c in d ==> d2[c] == d[c];
  }

  /** `obj` is a new object of class `cls` with identifier `id` at (px, py),
      with full energy and health. */
  ghost predicate Spawned(obj: WorldObject, cls: ObjectClass, id: nat, px: real, py: real)
    reads obj`x, obj`y, obj`energy, obj`health
  {
    obj.kind == KindOf(cls) && obj.size == SizeOf(cls) && obj.id == id && obj.x == px && obj.y == py &&
    obj.energy == 1.0 && obj.health == 1.0
  }

  /** The objects filed under category `k`: `objects_by_category.get(k, set())`. */
  function Lookup(byCategory: map<string, set<WorldObject>>, k: string): set<WorldObject>
  {
    if k in byCategory then byCategory[k] else {}
  }

  /** `after` is `before` with the objects of `s` filed under category `k`,
      a category that exists afterwards once something was filed. */
  ghost predicate FiledUnder(before: map<string, set<WorldObject>>, after: map<string, set<WorldObject>>,
                             k: string, s: set<WorldObject>)
  {
    after.Keys == before.Keys + (if s == {} then {} else {k}) &&
    (forall k' :: k' != k ==> Lookup(after, k') == Lookup(before, k')) &&
    Lookup(after, k) == Lookup(before, k) + s
  }

  /** Filing one more object under the same category. */
  lemma FiledOneMore(before: map<string, set<WorldObject>>, mid: map<string, set<WorldObject>>,
                     k: string, s: set<WorldObject>, obj: WorldObject)
    requires FiledUnder(before, mid, k, s)
    ensures FiledUnder(before, mid[k := Lookup(mid, k) + {obj}], k, s + {obj})
  {
    var after := mid[k := Lookup(mid, k) + {obj}];
    if s == {} {
      assert after.Keys == mid.Keys + {k};
    }
    forall k' | k' != k
      ensures Lookup(after, k') == Lookup(before, k')
    {
      assert Lookup(after, k') == Lookup(mid, k');
    }
  }

  /** `obj` is registered in exactly `cells`. */
  ghost predicate RegisteredIn(g: Grid, obj: WorldObject, cells: set<Cell>)
  {
    forall c :: c in g ==> (obj in g[c] <==> c in cells)
  }

  /** Every cell of `g` holds what it held in `g0` and, besides, only
      objects of `s`. */
  ghost predicate Grown(g0: Grid, g: Grid, s: set<WorldObject>)
  {
    g.Keys == g0.Keys && forall c :: c in g0 ==> g0[c] <= g[c] <= g0[c] + s
  }

  /** Registering one more object keeps a grid grown from `g0`, by that object. */
  lemma GrownByAdding(g0: Grid, g: Grid, s: set<WorldObject>, obj: WorldObject, cells: set<Cell>)
    requires Grown(g0, g, s)
    ensures Grown(g0, Added(g, obj, cells), s + {obj})
  {
    var r := Added(g, obj, cells);
    forall c | c in g0
      ensures g0[c] <= r[c] <= g0[c] + (s + {obj})
    {
      assert r[c] - {obj} == g[c] - {obj};
    }
  }

  /** Adding or removing one object leaves the registration of every other
      object as it was. */
  lemma OthersStayRegistered(g: Grid, obj: WorldObject, cells: set<Cell>, o: WorldObject, oCells: set<Cell>)
    requires RegisteredIn(g, o, oCells) && o != obj
    ensures RegisteredIn(Added(g, obj, cells), o, oCells)
    ensures RegisteredIn(Removed(g, obj, cells), o, oCells)
  {
    var a, r := Added(g, obj, cells), Removed(g, obj, cells);
    forall c | c in g
      ensures (o in a[c] <==> o in g[c]) && (o in r[c] <==> o in g[c])
    {
      assert a[c] - {obj} == g[c] - {obj};
      assert r[c] - {obj} == g[c] - {obj};
      assert o in a[c] <==> o in a[c] - {obj};
      assert o in g[c] <==> o in g[c] - {obj};
      assert o in r[c] <==> o in r[c] - {obj};
    }
  }

  /** Between `g0` and `g` only the registrations of objects of `s`
      change. */
  ghost predicate ChangedOnly(g0: Grid, g: Grid, s: set<WorldObject>)
  {
    g.Keys == g0.Keys && forall c :: c in g0 ==> g[c] - s == g0[c] - s
  }

  /** An object outside `s` keeps its registration across a change to
      objects of `s` only. */
  lemma {:induction false} RegistrationKept(g0: Grid, g: Grid, s: set<WorldObject>, o: WorldObject, cells: set<Cell>)
    requires ChangedOnly(g0, g, s) && o !in s
    ensures RegisteredIn(g0, o, cells) <==> RegisteredIn(g, o, cells)
  {
    forall c | c in g0
      ensures o in g[c] <==> o in g0[c]
    {
      assert o in g[c] <==> o in g[c] - s;
      assert o in g0[c] <==> o in g0[c] - s;
    }
  }

  /** A change confined to `s` is confined to any larger set. */
  lemma {:induction false} ChangedOnlyWider(g0: Grid, g: Grid, s: set<WorldObject>, t: set<WorldObject>)
    requires ChangedOnly(g0, g, s) && s <= t
    ensures ChangedOnly(g0, g, t)
  {
    forall c | c in g0
      ensures g[c] - t == g0[c] - t
    {
      assert g[c] - t == (g[c] - s) - t;
      assert g0[c] - t == (g0[c] - s) - t;
    }
  }

  /** Two changes confined to `s` make one change confined to `s`. */
  lemma {:induction false} ChangedOnlyTrans(g0: Grid, g1: Grid, g2: Grid, s: set<WorldObject>)
    requires ChangedOnly(g0, g1, s) && ChangedOnly(g1, g2, s)
    ensures ChangedOnly(g0, g2, s)
  {
    forall c | c in g0
      ensures g2[c] - s == g0[c] - s
    {
      assert c in g1;
    }
  }

  /** Removing `a` and then registering only `b` anew changes only `a` and `b`. */
  lemma {:induction false} SwapChangesOnly(g0: Grid, g1: Grid, g2: Grid, a: WorldObject, b: WorldObject)
    requires g1.Keys == g0.Keys && g2.Keys == g0.Keys
    requires forall c :: c in g0 ==> g1[c] - {a} == g0[c] - {a}
    requires forall c :: c in g1 ==> g1[c] <= g2[c] <= g1[c] + {b}
    ensures ChangedOnly(g0, g2, {a, b})
  {
    forall c | c in g0
      ensures g2[c] - {a, b} == g0[c] - {a, b}
    {
      assert g2[c] - {a, b} == g1[c] - {a, b};
      assert g1[c] - {a, b} == (g1[c] - {a}) - {b};
    }
  }

  /** `_remove_from_grid` undoes `_add_to_grid` for an object registered nowhere. */
  lemma {:induction false} RemoveUndoesAdd(g: Grid, obj: WorldObject, cells: set<Cell>)
    requires RegisteredIn(g, obj, {})
    ensures Removed(Added(g, obj, cells), obj, cells) == g
  {
    var r := Removed(Added(g, obj, cells), obj, cells);
    assert forall c :: c in g ==> r[c] == g[c];
  }

  /** The reconciliation of `_update_object_in_grid`: applying only the
      differences between the old and the new cells takes an object
      registered in exactly the old cells to exactly the new cells; only
      cells in either difference change, and only for that object. */
  lemma Reconcile(g: Grid, obj: WorldObject, oldCells: set<Cell>, newCells: set<Cell>)
    requires RegisteredIn(g, obj, oldCells) && newCells <= g.Keys
    ensures var r := Added(Removed(g, obj, oldCells - newCells), obj, newCells - oldCells);
      RegisteredIn(r, obj, newCells) &&
      (forall c :: c in g && c !in (oldCells - newCells) + (newCells - oldCells) ==> r[c] == g[c]) &&
      (forall c :: c in g ==> r[c] - {obj} == g[c] - {obj})
  {
  }

  // ---------------------------------------------------------------------
  // Creating objects.

  /** The classes `add_object` is called with; `Wall` needs a size, so it
      cannot be built from a position alone. */
  datatype ObjectClass = PlainClass | AgentClass | FoodClass | PoisonClass

  function KindOf(cls: ObjectClass): Kind
  {
    match cls
    case PlainClass => Plain
    case AgentClass => AgentBody
    case FoodClass => FoodKind
    case PoisonClass => PoisonKind
  }

  /** The kinds `add_object` can create. */
  predicate Spawnable(k: Kind)
  {
    k == Plain || k == AgentBody || k == FoodKind || k == PoisonKind
  }

  /** `type(obj)`: the class an object of a spawnable kind was built from. */
  function ClassOf(k: Kind): (cls: ObjectClass)
    requires Spawnable(k)
    ensures KindOf(cls) == k
  {
    if k == Plain then PlainClass
    else if k == AgentBody then AgentClass
    else if k == FoodKind then FoodClass
    else PoisonClass
  }

  /** Classes and kinds correspond one to one. */
  lemma {:induction false} ClassOfKindOf(cls: ObjectClass)
    ensures Spawnable(KindOf(cls)) && ClassOf(KindOf(cls)) == cls
  {
    match cls
    case PlainClass =>
    case AgentClass =>
    case FoodClass =>
      assert FoodKind != PoisonKind;
    case PoisonClass =>
      assert FoodKind != PoisonKind;
  }

  /** The sizes and colours the constructors pass to `WorldObject`. */
  function SizeOf(cls: ObjectClass): Size
  {
    match cls
    case PlainClass => Scalar(1.0)
    case AgentClass => Agents.AGENT_SIZE
    case FoodClass => Scalar(3.0)
    case PoisonClass => Scalar(3.0)
  }

  function ColorOf(cls: ObjectClass): Color
  {
    match cls
    case PlainClass => Color(255, 255, 255)
    case AgentClass => Agents.AGENT_COLOR
    case FoodClass => Color(0, 255, 0)
    case PoisonClass => Color(128, 0, 128)
  }

  /** The random draws of `add_object` for its `i`-th object: `x(i)` and
      `y(i)` are the `random.uniform` fractions of the world's width and
      height, `id(i)` its uuid, and for an agent `heading(i)` the fraction
      of a full turn and `weights(i)` the initial controller weights. */
  datatype Draws = Draws(x: nat -> real, y: nat -> real, id: nat -> nat,
                         heading: nat -> real, weights: nat -> (nat, nat) -> real)

  /** `obj_class(x, y)`. */
  method Construct(cls: ObjectClass, id: nat, x: real, y: real, heading: real, weights: (nat, nat) -> real)
    returns (obj: WorldObject)
    ensures fresh(obj) && obj.id == id && obj.kind == KindOf(cls)
    ensures obj.size == SizeOf(cls) && obj.color == ColorOf(cls)
    ensures obj.x == x && obj.y == y && obj.energy == 1.0 && obj.health == 1.0
    ensures cls == AgentClass ==> obj.angle == heading && Agents.WellFormed(obj) && fresh(obj.brain)
  {
    if cls == AgentClass {
      obj := Agents.NewAgent(id, x, y, heading, weights);
    } else {
      obj := new WorldObject(id, KindOf(cls), SizeOf(cls), ColorOf(cls), x, y);
    }
  }

  /** `x if x is not None else random.uniform(0, extent)`, where `draw`
      is the uniform fraction drawn. */
  function Coordinate(given: Option<real>, extent: real, draw: real): real
  {
    if given.Some? then given.value else extent * draw
  }

  /** The objects of a sequence, as a set. */
  function Elements(s: seq<WorldObject>): set<WorldObject>
  {
    set o | o in s
  }

  // ---------------------------------------------------------------------
  // Area queries.

  /** The exact test of `get_objects_in_area`: an object of radius `orad`
      centred at (ox, oy) is kept when its centre is within `radius + orad`
      of (x, y), compared on squares. */
  predicate Near(ox: real, oy: real, orad: real, x: real, y: real, radius: real)
  {
    (ox - x) * (ox - x) + (oy - y) * (oy - y) <= (radius + orad) * (radius + orad)
  }

  /** The cells `get_objects_in_area` scans, as written: the fractions are
      clamped to [0, 1] only on the side away from the centre, so a query
      whose circle lies wholly beyond an edge scans only indices outside
      the grid. */
  function QueryRangeAsWritten(x: real, y: real, radius: real, width: real, height: real): CellRange
    requires width > 0.0 && height > 0.0
  {
    var left := Max(0.0, (x - radius) / width);
    var right := Min(1.0, (x + radius) / width);
    var bottom := Max(0.0, (y - radius) / height);
    var top := Min(1.0, (y + radius) / height);
    CellRange(Trunc(left * COLUMNS as real), Trunc(right * COLUMNS as real),
              Trunc(bottom * ROWS as real), Trunc(top * ROWS as real))
  }

  /** The cells the area query scans in this model: the index range of the
      query's bounding box, clamped into the grid at both ends, as
      `_get_object_cells` clamps the range of an object. */
  function QueryRange(x: real, y: real, radius: real, width: real, height: real): (r: CellRange)
    requires width > 0.0 && height > 0.0
    ensures 0 <= r.minCol < COLUMNS && 0 <= r.maxCol < COLUMNS
    ensures 0 <= r.minRow < ROWS && 0 <= r.maxRow < ROWS
  {
    CellRange(ClampIndex(IndexOf(x - radius, width, COLUMNS), COLUMNS - 1),
              ClampIndex(IndexOf(x + radius, width, COLUMNS), COLUMNS - 1),
              ClampIndex(IndexOf(y - radius, height, ROWS), ROWS - 1),
              ClampIndex(IndexOf(y + radius, height, ROWS), ROWS - 1))
  }

  /** The objects registered in any of `cells`. */
  function Gathered(g: Grid, cells: set<Cell>): set<WorldObject>
  {
    set c, o | c in cells && c in g && o in g[c] :: o
  }

  /** Gathering two sets of cells gathers the objects of each. */
  lemma GatheredUnion(g: Grid, a: set<Cell>, b: set<Cell>)
    ensures Gathered(g, a + b) == Gathered(g, a) + Gathered(g, b)
  {
    forall o | o in Gathered(g, a + b)
      ensures o in Gathered(g, a) + Gathered(g, b)
    {
      var c :| c in a + b && c in g && o in g[c];
      if c in a {
        assert o in Gathered(g, a);
      } else {
        assert o in Gathered(g, b);
      }
    }
  }

  /** The columns up to `col - 1` and column `col` make the columns up to `col`. */
  lemma ColumnsJoin(minCol: int, col: int, minRow: int, maxRow: int)
    requires minCol <= col
    ensures CellsIn(CellRange(minCol, col - 1, minRow, maxRow)) + CellsIn(CellRange(col, col, minRow, maxRow)) ==
            CellsIn(CellRange(minCol, col, minRow, maxRow))
  {
    forall c | c in CellsIn(CellRange(minCol, col, minRow, maxRow))
      ensures c in CellsIn(CellRange(minCol, col - 1, minRow, maxRow)) + CellsIn(CellRange(col, col, minRow, maxRow))
    {
      if c.0 < col {
        assert c in CellsIn(CellRange(minCol, col - 1, minRow, maxRow));
      } else {
        assert c in CellsIn(CellRange(col, col, minRow, maxRow));
      }
    }
  }

  /** An object registered in exactly its (non-empty) bounding-box cells,
      whose circle reaches within `radius` of (x, y), is gathered from the
      cells of the area query. */
  lemma {:induction false} FoundIfRegistered(g: Grid, o: WorldObject, x: real, y: real, radius: real,
                                             ox: real, oy: real, orad: real, width: real, height: real)
    requires width > 0.0 && height > 0.0 && radius >= 0.0 && orad >= 0.0
    requires Near(ox, oy, orad, x, y, radius)
    requires CellsOf(ox, oy, Some(orad), width, height) != {}
    requires CellsOf(ox, oy, Some(orad), width, height) <= g.Keys
    requires RegisteredIn(g, o, CellsOf(ox, oy, Some(orad), width, height))
    ensures o in Gathered(g, CellsIn(QueryRange(x, y, radius, width, height)))
  {
    QueryRangeComplete(x, y, radius, ox, oy, orad, width, height);
    var c :| c in CellsIn(QueryRange(x, y, radius, width, height)) * CellsOf(ox, oy, Some(orad), width, height);
    assert o in g[c];
  }

  /** Gathering one more cell adds that cell's objects. */
  lemma GatheredOneMore(g: Grid, cells: set<Cell>, c: Cell)
    ensures Gathered(g, cells + {c}) == Gathered(g, cells) + (if c in g then g[c] else {})
  {
    var lhs, rhs := Gathered(g, cells + {c}), Gathered(g, cells) + (if c in g then g[c] else {});
    forall o | o in lhs
      ensures o in rhs
    {
      var c' :| c' in cells + {c} && c' in g && o in g[c'];
      if c' != c {
        assert o in Gathered(g, cells);
      }
    }
  }

  /** Within `radius + orad` on the squared distance means within it on
      each axis. */
  lemma NearOnAxes(ox: real, oy: real, orad: real, x: real, y: real, radius: real)
    requires radius >= 0.0 && orad >= 0.0 && Near(ox, oy, orad, x, y, radius)
    ensures ox - orad <= x + radius && x - radius <= ox + orad
    ensures oy - orad <= y + radius && y - radius <= oy + orad
  {
    var reach := radius + orad;
    var dx, dy := ox - x, oy - y;
    SquareSign(dx, dx * dx);
    SquareSign(dy, dy * dy);
    if Abs(dx) > reach {
      SquareBelow(reach, Abs(dx), reach * reach, Abs(dx) * Abs(dx));
      assert false;
    }
    if Abs(dy) > reach {
      SquareBelow(reach, Abs(dy), reach * reach, Abs(dy) * Abs(dy));
      assert false;
    }
  }

  /** On one axis: an object spanning `q - s .. q + s` whose span overlaps
      `p - r .. p + r` and whose clamped index range is not empty shares an
      index with the clamped index range of the query. */
  lemma AxisMeets(p: real, r: real, q: real, s: real, extent: real, n: int) returns (k: int)
    requires extent > 0.0 && n > 0 && r >= 0.0 && s >= 0.0
    requires q - s <= p + r && p - r <= q + s
    requires ObjectSpan(q, s, extent, n).0 <= ObjectSpan(q, s, extent, n).1
    ensures ObjectSpan(q, s, extent, n).0 <= k <= ObjectSpan(q, s, extent, n).1
    ensures ClampIndex(IndexOf(p - r, extent, n), n - 1) <= k <= ClampIndex(IndexOf(p + r, extent, n), n - 1)
  {
    IndexMonotone(q - s, p + r, extent, n);
    IndexMonotone(p - r, q + s, extent, n);
    IndexMonotone(p - r, p + r, extent, n);
    var lo := ObjectSpan(q, s, extent, n).0;
    var qlo := ClampIndex(IndexOf(p - r, extent, n), n - 1);
    k := if lo <= qlo then qlo else lo;
  }

  /** The area query scans at least one cell of every object it must
      return: one registered in some cell and near the query point. */
  lemma QueryRangeComplete(x: real, y: real, radius: real, ox: real, oy: real, orad: real, width: real, height: real)
    requires width > 0.0 && height > 0.0 && radius >= 0.0 && orad >= 0.0
    requires Near(ox, oy, orad, x, y, radius)
    requires CellsOf(ox, oy, Some(orad), width, height) != {}
    ensures CellsIn(QueryRange(x, y, radius, width, height)) * CellsOf(ox, oy, Some(orad), width, height) != {}
  {
    NearOnAxes(ox, oy, orad, x, y, radius);
    var cols := ObjectSpan(ox, orad, width, COLUMNS);
    var rows := ObjectSpan(oy, orad, height, ROWS);
    var cells := CellsOf(ox, oy, Some(orad), width, height);
    assert cells == CellsIn(CellRange(cols.0, cols.1, rows.0, rows.1));
    var some :| some in cells;
    assert cols.0 <= some.0 <= cols.1 && rows.0 <= some.1 <= rows.1;
    var col := AxisMeets(x, radius, ox, orad, width, COLUMNS);
    var row := AxisMeets(y, radius, oy, orad, height, ROWS);
    assert (col, row) in cells;
    var scanned := CellsIn(QueryRange(x, y, radius, width, height));
    assert (col, row) in scanned;
    assert (col, row) in scanned * cells;
  }

  /** As written, the query misses an object it should return: food of
      radius 3 at (798, 300) in an 800 x 600 world, queried from (900, 300)
      with radius 100, is within reach (102 <= 103) and registered in column
      7, but the query scans only column 8, which does not exist. The
      clamped range finds it. */
  lemma QueryRangeAsWrittenMisses()
    ensures Near(798.0, 300.0, 3.0, 900.0, 300.0, 100.0)
    ensures CellsOf(798.0, 300.0, Some(3.0), 800.0, 600.0) == {(7, 2), (7, 3)}
    ensures CellsIn(QueryRangeAsWritten(900.0, 300.0, 100.0, 800.0, 600.0)) == {(8, 2), (8, 3), (8, 4)}
    ensures (7, 2) in CellsIn(QueryRange(900.0, 300.0, 100.0, 800.0, 600.0))
  {
    assert IndexOf(795.0, 800.0, COLUMNS) == 7;
    assert IndexOf(801.0, 800.0, COLUMNS) == 8;
    assert IndexOf(297.0, 600.0, ROWS) == 2;
    assert IndexOf(303.0, 600.0, ROWS) == 3;
    assert ObjectSpan(798.0, 3.0, 800.0, COLUMNS) == (7, 7);
    assert ObjectSpan(300.0, 3.0, 600.0, ROWS) == (2, 3);
    var cells := CellsOf(798.0, 300.0, Some(3.0), 800.0, 600.0);
    assert cells == CellsIn(CellRange(7, 7, 2, 3));
    assert (7, 2) in cells && (7, 3) in cells;
    var q := QueryRangeAsWritten(900.0, 300.0, 100.0, 800.0, 600.0);
    assert q == CellRange(8, 8, 2, 4);
    assert (8, 2) in CellsIn(q) && (8, 3) in CellsIn(q) && (8, 4) in CellsIn(q);
    assert IndexOf(800.0, 800.0, COLUMNS) == 8;
    assert IndexOf(1000.0, 800.0, COLUMNS) == 10;
    assert IndexOf(200.0, 600.0, ROWS) == 2;
    assert IndexOf(400.0, 600.0, ROWS) == 4;
    assert QueryRange(900.0, 300.0, 100.0, 800.0, 600.0) == CellRange(7, 7, 2, 4);
  }

  /** A fraction below 1 of an axis split into `n` parts has an index in
      [0, n - 1]; as `int()` truncates, a fraction in (-1, 0] has index 0. */
  lemma FractionIndex(f: real, n: int)
    requires n > 0 && f < 1.0
    ensures 0.0 <= f ==> 0 <= Trunc(f * n as real) <= n - 1
    ensures f < 0.0 ==> Trunc(f * n as real) <= 0
  {
    MulRightStrict(f, 1.0, n as real);
    if f < 0.0 {
      MulRightStrict(f, 0.0, n as real);
    } else {
      MulRight(0.0, f, n as real);
    }
  }

  /** A fraction of at least 1 of an axis split into `n` parts has an index
      of at least `n`. */
  lemma FractionIndexPast(f: real, n: int)
    requires n > 0 && f >= 1.0
    ensures Trunc(f * n as real) >= n
  {
    MulRight(1.0, f, n as real);
  }

  /** The start of a query's range on one axis, for a centre inside the
      world, is the same whether clamped at 0 as written or clamped into
      the grid. */
  lemma LowerRangesAgree(p: real, radius: real, extent: real, n: int)
    requires extent > 0.0 && n > 0 && radius >= 0.0 && p < extent
    ensures Trunc(Max(0.0, (p - radius) / extent) * n as real) == ClampIndex(IndexOf(p - radius, extent, n), n - 1)
  {
    var f := (p - radius) / extent;
    QuotientBelowOne(p - radius, extent);
    FractionIndex(f, n);
    assert IndexOf(p - radius, extent, n) == Trunc(f * n as real);
    if f < 0.0 {
      assert Max(0.0, f) * n as real == 0.0;
    } else {
      assert Max(0.0, f) == f;
    }
  }

  /** The end of a query's range on one axis, for a non-negative centre, is
      the same whether clamped at 1 as written or clamped into the grid,
      except that the former may be `n`, one past the grid. */
  lemma UpperRangesAgree(p: real, radius: real, extent: real, n: int)
    requires extent > 0.0 && n > 0 && radius >= 0.0 && 0.0 <= p
    ensures var hi := Trunc(Min(1.0, (p + radius) / extent) * n as real);
      hi == ClampIndex(IndexOf(p + radius, extent, n), n - 1) ||
      (hi == n && ClampIndex(IndexOf(p + radius, extent, n), n - 1) == n - 1)
  {
    var g := (p + radius) / extent;
    QuotientNonNegative(p + radius, extent);
    assert IndexOf(p + radius, extent, n) == Trunc(g * n as real);
    if g < 1.0 {
      FractionIndex(g, n);
      assert Min(1.0, g) == g;
    } else {
      FractionIndexPast(g, n);
      assert Min(1.0, g) * n as real == n as real;
    }
  }

  /** For a query centred inside the world, the cells `get_objects_in_area`
      scans as written, cut down to the grid, are the cells of the clamped
      range. */
  lemma QueryCellsAgreeInside(x: real, y: real, radius: real, width: real, height: real)
    requires width > 0.0 && height > 0.0 && radius >= 0.0
    requires 0.0 <= x < width && 0.0 <= y < height
    ensures CellsIn(QueryRangeAsWritten(x, y, radius, width, height)) * AllCells() ==
            CellsIn(QueryRange(x, y, radius, width, height))
  {
    ColumnRangesAgree(x, y, radius, width, height);
    RowRangesAgree(x, y, radius, width, height);
    var a := QueryRangeAsWritten(x, y, radius, width, height);
    var b := QueryRange(x, y, radius, width, height);
    RangesCutToGrid(a, b);
  }

  lemma ColumnRangesAgree(x: real, y: real, radius: real, width: real, height: real)
    requires width > 0.0 && height > 0.0 && radius >= 0.0 && 0.0 <= x < width
    ensures var a, b := QueryRangeAsWritten(x, y, radius, width, height), QueryRange(x, y, radius, width, height);
      a.minCol == b.minCol && (a.maxCol == b.maxCol || (a.maxCol == COLUMNS && b.maxCol == COLUMNS - 1))
  {
    LowerRangesAgree(x, radius, width, COLUMNS);
    UpperRangesAgree(x, radius, width, COLUMNS);
  }

  lemma RowRangesAgree(x: real, y: real, radius: real, width: real, height: real)
    requires width > 0.0 && height > 0.0 && radius >= 0.0 && 0.0 <= y < height
    ensures var a, b := QueryRangeAsWritten(x, y, radius, width, height), QueryRange(x, y, radius, width, height);
      a.minRow == b.minRow && (a.maxRow == b.maxRow || (a.maxRow == ROWS && b.maxRow == ROWS - 1))
  {
    LowerRangesAgree(y, radius, height, ROWS);
    UpperRangesAgree(y, radius, height, ROWS);
  }

  /** Two ranges with the same start, whose ends agree or where the first
      ends one past the grid and the second on its last index, cover the
      same cells of the grid. */
  lemma RangesCutToGrid(a: CellRange, b: CellRange)
    requires 0 <= b.minCol && b.maxCol < COLUMNS && 0 <= b.minRow && b.maxRow < ROWS
    requires a.minCol == b.minCol && a.minRow == b.minRow
    requires a.maxCol == b.maxCol || (a.maxCol == COLUMNS && b.maxCol == COLUMNS - 1)
    requires a.maxRow == b.maxRow || (a.maxRow == ROWS && b.maxRow == ROWS - 1)
    ensures CellsIn(a) * AllCells() == CellsIn(b)
  {
    forall cell | cell in CellsIn(a) * AllCells()
      ensures cell in CellsIn(b)
    {
      assert 0 <= cell.0 < COLUMNS && 0 <= cell.1 < ROWS;
    }
    forall cell | cell in CellsIn(b)
      ensures cell in CellsIn(a) * AllCells()
    {
      assert cell in AllCells();
    }
  }

  /** Hence, for a query centred inside the world, the range as written and
      the clamped range gather the same candidates from the grid: the two
      differ only for queries centred outside the world. */
  lemma QueryRangesAgreeInside(g: Grid, x: real, y: real, radius: real, width: real, height: real)
    requires width > 0.0 && height > 0.0 && radius >= 0.0
    requires 0.0 <= x < width && 0.0 <= y < height && g.Keys == AllCells()
    ensures Gathered(g, CellsIn(QueryRangeAsWritten(x, y, radius, width, height))) ==
            Gathered(g, CellsIn(QueryRange(x, y, radius, width, height)))
  {
    var a := CellsIn(QueryRangeAsWritten(x, y, radius, width, height));
    var b := CellsIn(QueryRange(x, y, radius, width, height));
    QueryCellsAgreeInside(x, y, radius, width, height);
    forall o | o in Gathered(g, a)
      ensures o in Gathered(g, b)
    {
      var c :| c in a && c in g && o in g[c];
      assert c in a * AllCells();
    }
    forall o | o in Gathered(g, b)
      ensures o in Gathered(g, a)
    {
      var c :| c in b && c in g && o in g[c];
      assert c in a * AllCells();
    }
  }

  // ---------------------------------------------------------------------
  // The world.

  class World {
    const width: real
    const height: real
    var objectsByCategory: map<string, set<WorldObject>>
    var grid: Grid

    /** The grid keeps all 48 cells, and every object is filed under its
        own category. */
    ghost predicate Valid()
      reads this
    {
      width > 0.0 && height > 0.0 && grid.Keys == AllCells() &&
      forall k, o :: k in objectsByCategory && o in objectsByCategory[k] ==> Category(o.kind) == k && Spawnable(o.kind)
    }

    /** `World(width, height)`. */
    constructor (width: real, height: real)
      requires width > 0.0 && height > 0.0
      ensures Valid() && this.width == width && this.height == height
      ensures objectsByCategory == map[] && grid == EmptyGrid()
    {
      this.width, this.height := width, height;
      objectsByCategory := map[];
      grid := EmptyGrid();
    }

    /** `_get_object_cells(obj)`: every world object has a `radius`. */
    function ObjectCells(obj: WorldObject, m: Maths): (r: set<Cell>)
      requires width > 0.0 && height > 0.0
      reads obj`x, obj`y
      ensures r <= AllCells()
    {
      CellsOf(obj.x, obj.y, Some(Radius(obj.size, m)), width, height)
    }

    /** `_add_to_grid(obj, cells)`. */
    method AddToGrid(obj: WorldObject, cells: set<Cell>)
      requires cells <= grid.Keys
      modifies this`grid
      ensures grid == Added(old(grid), obj, cells)
    {
      var todo := cells;
      while todo != {}
        invariant todo <= cells
        invariant grid == Added(old(grid), obj, cells - todo)
        decreases todo
      {
        var c :| c in todo;
        grid := grid[c := grid[c] + {obj}];
        todo := todo - {c};
      }
    }

    /** `_remove_from_grid(obj, cells)`. */
    method RemoveFromGrid(obj: WorldObject, cells: set<Cell>)
      requires cells <= grid.Keys
      modifies this`grid
      ensures grid == Removed(old(grid), obj, cells)
    {
      var todo := cells;
      while todo != {}
        invariant todo <= cells
        invariant grid == Removed(old(grid), obj, cells - todo)
        decreases todo
      {
        var c :| c in todo;
        grid := grid[c := grid[c] - {obj}];
        todo := todo - {c};
      }
    }

    /** `_update_object_in_grid(obj, old_cells)`: only the differences
        between the old and the new cells are applied. */
    method UpdateObjectInGrid(obj: WorldObject, oldCells: Option<set<Cell>>, m: Maths)
      requires Valid()
      requires oldCells.Some? ==> oldCells.value - ObjectCells(obj, m) <= grid.Keys
      modifies this`grid
      ensures Valid()
      ensures oldCells.Some? ==>
        grid == Added(Removed(old(grid), obj, oldCells.value - ObjectCells(obj, m)),
                      obj, ObjectCells(obj, m) - oldCells.value)
      ensures oldCells.None? ==> grid == Added(old(grid), obj, ObjectCells(obj, m))
    {
      var newCells := ObjectCells(obj, m);
      if oldCells.Some? {
        RemoveFromGrid(obj, oldCells.value - newCells);
        AddToGrid(obj, newCells - oldCells.value);
      } else {
        AddToGrid(obj, newCells);
      }
    }

    /** The objects of category `k`: `objects_by_category.get(k, set())`. */
    function Members(k: string): set<WorldObject>
      reads this`objectsByCategory
    {
      Lookup(objectsByCategory, k)
    }

    /** `get_objects(category)`: the objects of that category, or of all
        categories; a new set, so changing it does not change the world. */
    function GetObjects(category: Option<string>): (r: set<WorldObject>)
      reads this`objectsByCategory
      ensures forall k :: k in objectsByCategory && (category.None? || category.value == k) ==>
        objectsByCategory[k] <= r
      ensures forall o :: o in r ==>
        exists k :: k in objectsByCategory && (category.None? || category.value == k) && o in objectsByCategory[k]
      ensures category.Some? ==> r == Members(category.value)
    {
      if category.None? then
        set k, o | k in objectsByCategory && o in objectsByCategory[k] :: o
      else Members(category.value)
    }

    /** `get_objects_in_area(x, y, radius)`: the objects registered in the
        scanned cells whose circles reach within `radius` of (x, y). Every
        object registered where its bounding box says and near enough is
        found. The scan covers the clamped range; for a query centred inside
        the world that gathers what the range as written gathers. */
    method GetObjectsInArea(x: real, y: real, radius: real, m: Maths) returns (found: set<WorldObject>)
      requires Valid()
      ensures found == set o | o in Gathered(grid, CellsIn(QueryRange(x, y, radius, width, height))) &&
                               Near(o.x, o.y, Radius(o.size, m), x, y, radius)
      ensures forall o :: o in found ==> Near(o.x, o.y, Radius(o.size, m), x, y, radius)
      ensures 0.0 <= x < width && 0.0 <= y < height && radius >= 0.0 ==>
        found == set o | o in Gathered(grid, CellsIn(QueryRangeAsWritten(x, y, radius, width, height))) &&
                         Near(o.x, o.y, Radius(o.size, m), x, y, radius)
      ensures forall o ::
        (RegisteredIn(grid, o, ObjectCells(o, m)) && ObjectCells(o, m) != {} &&
         radius >= 0.0 && Radius(o.size, m) >= 0.0 && Near(o.x, o.y, Radius(o.size, m), x, y, radius))
        ==> o in found
    {
      var range := QueryRange(x, y, radius, width, height);
      var candidates := Scan(range);
      found := set o | o in candidates && Near(o.x, o.y, Radius(o.size, m), x, y, radius);
      forall o | RegisteredIn(grid, o, ObjectCells(o, m)) && ObjectCells(o, m) != {} &&
                 radius >= 0.0 && Radius(o.size, m) >= 0.0 &&
                 Near(o.x, o.y, Radius(o.size, m), x, y, radius)
        ensures o in found
      {
        FoundIfRegistered(grid, o, x, y, radius, o.x, o.y, Radius(o.size, m), width, height);
      }
      if 0.0 <= x < width && 0.0 <= y < height && radius >= 0.0 {
        QueryRangesAgreeInside(grid, x, y, radius, width, height);
      }
    }

    /** The scan of `get_objects_in_area`: every object registered in the
        cells of `range`, column by column. */
    method Scan(range: CellRange) returns (candidates: set<WorldObject>)
      ensures candidates == Gathered(grid, CellsIn(range))
    {
      candidates := {};
      var col := range.minCol;
      if col > range.maxCol {
        assert CellsIn(range) == {};
        return;
      }
      while col <= range.maxCol
        invariant range.minCol <= col <= range.maxCol + 1
        invariant candidates == Gathered(grid, CellsIn(CellRange(range.minCol, col - 1, range.minRow, range.maxRow)))
      {
        var column := ScanColumn(col, range.minRow, range.maxRow);
        ColumnsJoin(range.minCol, col, range.minRow, range.maxRow);
        GatheredUnion(grid, CellsIn(CellRange(range.minCol, col - 1, range.minRow, range.maxRow)),
                      CellsIn(CellRange(col, col, range.minRow, range.maxRow)));
        candidates := candidates + column;
        col := col + 1;
      }
      assert CellRange(range.minCol, col - 1, range.minRow, range.maxRow) == range;
    }

    /** The objects registered in the cells of one column between two rows. */
    method ScanColumn(col: int, minRow: int, maxRow: int) returns (objs: set<WorldObject>)
      ensures objs == Gathered(grid, CellsIn(CellRange(col, col, minRow, maxRow)))
    {
      objs := {};
      var row := minRow;
      if row > maxRow {
        assert CellsIn(CellRange(col, col, minRow, maxRow)) == {};
        return;
      }
      while row <= maxRow
        invariant minRow <= row <= maxRow + 1
        invariant objs == Gathered(grid, CellsIn(CellRange(col, col, minRow, row - 1)))
      {
        GatheredOneMore(grid, CellsIn(CellRange(col, col, minRow, row - 1)), (col, row));
        assert CellsIn(CellRange(col, col, minRow, row - 1)) + {(col, row)} == CellsIn(CellRange(col, col, minRow, row));
        if (col, row) in grid {
          objs := objs + grid[(col, row)];
        }
        row := row + 1;
      }
    }

    /** `add_object(obj_class, count, x, y)`: `count` new objects, each at
        the given coordinate or at a random one, filed under its category
        and registered in exactly the cells of its bounding box. */
    method AddObject(cls: ObjectClass, count: nat, x: Option<real>, y: Option<real>, draws: Draws, m: Maths)
      returns (added: seq<WorldObject>)
      requires Valid()
      modifies this`grid, this`objectsByCategory
      ensures Valid()
      ensures |added| == count
      ensures forall i :: 0 <= i < count ==>
        fresh(added[i]) && added[i].kind == KindOf(cls) && added[i].size == SizeOf(cls) &&
        added[i].id == draws.id(i) &&
        added[i].x == Coordinate(x, width, draws.x(i)) && added[i].y == Coordinate(y, height, draws.y(i)) &&
        added[i].energy == 1.0 && added[i].health == 1.0
      ensures forall i, j :: 0 <= i < j < count ==> added[i] != added[j]
      ensures cls == AgentClass ==> forall i :: 0 <= i < count ==> Agents.WellFormed(added[i])
      ensures objectsByCategory.Keys == old(objectsByCategory.Keys) + (if count == 0 then {} else {Category(KindOf(cls))})
      ensures forall k :: k != Category(KindOf(cls)) ==> Members(k) == old(Members(k))
      ensures Members(Category(KindOf(cls))) == old(Members(Category(KindOf(cls)))) + Elements(added)
      ensures forall i :: 0 <= i < count ==> RegisteredIn(grid, added[i], ObjectCells(added[i], m))
      ensures forall c :: c in grid ==> old(grid[c]) <= grid[c] <= old(grid[c]) + Elements(added)
    {
      added := [];
      var i := 0;
      assert Elements(added) == {};
      while i < count
        invariant 0 <= i <= count && |added| == i
        invariant Valid() && AddedSoFar(grid, objectsByCategory, added, cls, x, y, draws, m, old(grid), old(objectsByCategory))
        invariant forall j :: 0 <= j < i ==> fresh(added[j])
      {
        var next := AddNext(cls, x, y, draws, m, added, old(grid), old(objectsByCategory));
        forall j | 0 <= j < i
          ensures fresh(next[j])
        {
          assert next[j] == added[j];
        }
        added := next;
        i := i + 1;
      }
      if count > 0 {
        assert added[0] in Elements(added);
      }
      forall i | 0 <= i < count
        ensures added[i].kind == KindOf(cls) && added[i].size == SizeOf(cls) && added[i].id == draws.id(i)
        ensures added[i].x == Coordinate(x, width, draws.x(i)) && added[i].y == Coordinate(y, height, draws.y(i))
        ensures added[i].energy == 1.0 && added[i].health == 1.0
      {
        assert Spawned(added[i], cls, draws.id(i), Coordinate(x, width, draws.x(i)), Coordinate(y, height, draws.y(i)));
      }
      if cls == AgentClass {
        forall i | 0 <= i < count
          ensures Agents.WellFormed(added[i])
        {
        }
      }
    }

    /** What `add_object` has done once the objects of `added` are created,
        starting from the grid `g0` and the categories `c0`. */
    ghost predicate AddedSoFar(g: Grid, c: map<string, set<WorldObject>>, added: seq<WorldObject>,
                               cls: ObjectClass, x: Option<real>, y: Option<real>,
                               draws: Draws, m: Maths, g0: Grid, c0: map<string, set<WorldObject>>)
      reads Elements(added), set o | o in added && o.brain != null :: o.brain
    {
      width > 0.0 && height > 0.0 &&
      (forall j {:trigger Spawned(added[j], cls, draws.id(j), Coordinate(x, width, draws.x(j)), Coordinate(y, height, draws.y(j)))} ::
        0 <= j < |added| ==>
        Spawned(added[j], cls, draws.id(j), Coordinate(x, width, draws.x(j)), Coordinate(y, height, draws.y(j)))) &&
      (forall j, k :: 0 <= j < k < |added| ==> added[j] != added[k]) &&
      (cls == AgentClass ==> forall j {:trigger Agents.WellFormed(added[j])} ::
        0 <= j < |added| ==> Agents.WellFormed(added[j])) &&
      FiledUnder(c0, c, Category(KindOf(cls)), Elements(added)) &&
      (forall j {:trigger RegisteredIn(g, added[j], ObjectCells(added[j], m))} ::
        0 <= j < |added| ==> RegisteredIn(g, added[j], ObjectCells(added[j], m))) &&
      Grown(g0, g, Elements(added))
    }

    /** The body of the loop of `add_object`: one more object. */
    method AddNext(cls: ObjectClass, x: Option<real>, y: Option<real>, draws: Draws, m: Maths,
                   added: seq<WorldObject>, ghost g0: Grid, ghost c0: map<string, set<WorldObject>>)
      returns (next: seq<WorldObject>)
      requires Valid() && AddedSoFar(grid, objectsByCategory, added, cls, x, y, draws, m, g0, c0)
      modifies this`grid, this`objectsByCategory
      ensures Valid() && AddedSoFar(grid, objectsByCategory, next, cls, x, y, draws, m, g0, c0)
      ensures |next| == |added| + 1 && next[..|added|] == added && fresh(next[|added|])
      ensures cls == AgentClass ==> Agents.WellFormed(next[|added|]) && fresh(next[|added|].brain)
    {
      var i := |added|;
      var px := Coordinate(x, width, draws.x(i));
      var py := Coordinate(y, height, draws.y(i));
      ghost var gridBefore := grid;
      ghost var filedBefore := objectsByCategory;
      var obj := AddOne(cls, draws.id(i), px, py, TAU * draws.heading(i), draws.weights(i), m);
      assert AddedSoFar(gridBefore, filedBefore, added, cls, x, y, draws, m, g0, c0);
      assert obj !in Elements(added) && forall c :: c in gridBefore ==> obj !in gridBefore[c];
      AddedOneMore(gridBefore, filedBefore, added, cls, x, y, draws, m, g0, c0, obj);
      next := added + [obj];
      assert next[..i] == added;
    }

    /** Registering and filing one more new object extends what `add_object`
        has done by that object. */
    lemma AddedOneMore(g: Grid, c: map<string, set<WorldObject>>, added: seq<WorldObject>,
                       cls: ObjectClass, x: Option<real>, y: Option<real>,
                       draws: Draws, m: Maths, g0: Grid, c0: map<string, set<WorldObject>>, obj: WorldObject)
      requires AddedSoFar(g, c, added, cls, x, y, draws, m, g0, c0)
      requires obj !in Elements(added) && forall c :: c in g ==> obj !in g[c]
      requires Spawned(obj, cls, draws.id(|added|), Coordinate(x, width, draws.x(|added|)), Coordinate(y, height, draws.y(|added|)))
      requires cls == AgentClass ==> Agents.WellFormed(obj)
      ensures AddedSoFar(Added(g, obj, ObjectCells(obj, m)),
                         c[Category(KindOf(cls)) := Lookup(c, Category(KindOf(cls))) + {obj}],
                         added + [obj], cls, x, y, draws, m, g0, c0)
    {
      var next := added + [obj];
      var cells := ObjectCells(obj, m);
      assert Elements(next) == Elements(added) + {obj};
      GrownByAdding(g0, g, Elements(added), obj, cells);
      FiledOneMore(c0, c, Category(KindOf(cls)), Elements(added), obj);
      SpawnedOneMore(added, cls, x, y, draws, obj);
      RegisteredOneMore(g, added, m, obj);
      DistinctOneMore(added, obj);
    }

    /** The objects added so far, then `obj`, were each spawned from their
        draws. */
    lemma SpawnedOneMore(added: seq<WorldObject>, cls: ObjectClass, x: Option<real>, y: Option<real>,
                         draws: Draws, obj: WorldObject)
      requires forall j :: 0 <= j < |added| ==>
        Spawned(added[j], cls, draws.id(j), Coordinate(x, width, draws.x(j)), Coordinate(y, height, draws.y(j)))
      requires cls == AgentClass ==> forall j :: 0 <= j < |added| ==> Agents.WellFormed(added[j])
      requires Spawned(obj, cls, draws.id(|added|), Coordinate(x, width, draws.x(|added|)), Coordinate(y, height, draws.y(|added|)))
      requires cls == AgentClass ==> Agents.WellFormed(obj)
      ensures forall j :: 0 <= j < |added + [obj]| ==>
        Spawned((added + [obj])[j], cls, draws.id(j), Coordinate(x, width, draws.x(j)), Coordinate(y, height, draws.y(j)))
      ensures cls == AgentClass ==> forall j :: 0 <= j < |added + [obj]| ==> Agents.WellFormed((added + [obj])[j])
    {
      var next := added + [obj];
      forall j | 0 <= j < |next|
        ensures Spawned(next[j], cls, draws.id(j), Coordinate(x, width, draws.x(j)), Coordinate(y, height, draws.y(j)))
        ensures cls == AgentClass ==> Agents.WellFormed(next[j])
      {
        if j < |added| {
          assert next[j] == added[j];
        }
      }
    }

    /** Registering `obj`, registered nowhere yet, keeps the objects added
        so far registered in their cells and registers `obj` in its own. */
    lemma RegisteredOneMore(g: Grid, added: seq<WorldObject>, m: Maths, obj: WorldObject)
      requires width > 0.0 && height > 0.0
      requires forall j :: 0 <= j < |added| ==> RegisteredIn(g, added[j], ObjectCells(added[j], m))
      requires obj !in Elements(added) && forall c :: c in g ==> obj !in g[c]
      ensures forall j :: 0 <= j < |added + [obj]| ==>
        RegisteredIn(Added(g, obj, ObjectCells(obj, m)), (added + [obj])[j], ObjectCells((added + [obj])[j], m))
    {
      var next, cells := added + [obj], ObjectCells(obj, m);
      forall j | 0 <= j < |next|
        ensures RegisteredIn(Added(g, obj, cells), next[j], ObjectCells(next[j], m))
      {
        if j < |added| {
          assert next[j] == added[j] && added[j] in Elements(added);
          OthersStayRegistered(g, obj, cells, added[j], ObjectCells(added[j], m));
        }
      }
    }

    /** Appending an object not among `added` keeps the entries distinct. */
    lemma DistinctOneMore(added: seq<WorldObject>, obj: WorldObject)
      requires forall j, k :: 0 <= j < k < |added| ==> added[j] != added[k]
      requires obj !in Elements(added)
      ensures forall j, k :: 0 <= j < k < |added + [obj]| ==> (added + [obj])[j] != (added + [obj])[k]
    {
      var next := added + [obj];
      forall j, k | 0 <= j < k < |next|
        ensures next[j] != next[k]
      {
        if k == |added| {
          assert next[j] == added[j] && added[j] in Elements(added);
        }
      }
    }

    /** One iteration of `add_object`: the new object is filed under its
        category and registered in exactly its cells. */
    method AddOne(cls: ObjectClass, id: nat, x: real, y: real, heading: real, weights: (nat, nat) -> real, m: Maths)
      returns (obj: WorldObject)
      requires Valid()
      modifies this`grid, this`objectsByCategory
      ensures Valid()
      ensures fresh(obj) && obj.kind == KindOf(cls) && obj.size == SizeOf(cls) && obj.id == id
      ensures obj.x == x && obj.y == y && obj.energy == 1.0 && obj.health == 1.0
      ensures cls == AgentClass ==> Agents.WellFormed(obj) && fresh(obj.brain)
      ensures objectsByCategory == old(objectsByCategory)[Category(KindOf(cls)) := old(Members(Category(KindOf(cls)))) + {obj}]
      ensures grid == Added(old(grid), obj, ObjectCells(obj, m))
      ensures RegisteredIn(grid, obj, ObjectCells(obj, m))
    {
      obj := Construct(cls, id, x, y, heading, weights);
      var category := Category(obj.kind);
      objectsByCategory := objectsByCategory[category := Members(category) + {obj}];
      var cells := ObjectCells(obj, m);
      AddToGrid(obj, cells);
    }

    /** `remove_object(obj)`: out of the cells of its current bounding box
        and out of its category. */
    method RemoveObject(obj: WorldObject, m: Maths)
      requires Valid()
      modifies this`grid, this`objectsByCategory
      ensures Valid()
      ensures grid == Removed(old(grid), obj, ObjectCells(obj, m))
      ensures Category(obj.kind) in old(objectsByCategory) ==>
        objectsByCategory == old(objectsByCategory)[Category(obj.kind) := old(objectsByCategory[Category(obj.kind)]) - {obj}]
      ensures Category(obj.kind) !in old(objectsByCategory) ==> objectsByCategory == old(objectsByCategory)
      ensures old(RegisteredIn(grid, obj, ObjectCells(obj, m))) ==> RegisteredIn(grid, obj, {})
    {
      var cells := ObjectCells(obj, m);
      RemoveFromGrid(obj, cells);
      var category := Category(obj.kind);
      if category in objectsByCategory {
        objectsByCategory := objectsByCategory[category := objectsByCategory[category] - {obj}];
      }
    }
  }
}
