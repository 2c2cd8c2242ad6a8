/** The tables the red-tag engine reads, for one building and one realization:
    the damage-state table (`comp_ds_table`), the component table
    (`comp_table`), the installed quantities per story and direction, the
    damaged quantities of one realization, and the tagging options. */
module Tables {
  import opened Numerics

  /** Structural system 12: coupling beams, the one system with a cross-story check. */
  const CouplingBeam: int := 12

  /** Number of directions per story; direction 3 is non-directional. */
  const Directions: int := 3

  /** A damage-state column: its safety class and its structural classification. */
  datatype DsRow = DsRow(safetyClass: int, system: int, systemAlt: int, series: int)

  /** A component row of the population table. */
  datatype CompRow = CompRow(system: int, systemAlt: int, series: int)

  /** The two switches of `red_tag_options` (an absent
      `tag_coupling_beams_over_height` reads as false). */
  datatype Options = Options(ignoreCouplingBeam: bool, tagCouplingBeamsOverHeight: bool)

  /** The static tables: damage-state rows, component rows and the installed
      quantities `qty[s][d][k]` of component `k` at story `s`, direction `d`. */
  datatype Inventory = Inventory(ds: seq<DsRow>, comps: seq<CompRow>, qty: seq<seq<seq<real>>>)

  /** One realization: the tables, the damaged quantities `dmg[s][d][j]` of
      damage-state column `j` at story `s`, direction `d`, and the options. */
  datatype Case = Case(inv: Inventory, dmg: seq<seq<seq<real>>>, opts: Options)

  /** A safety-class tier: columns of safety class at least `id` count, and a
      system ratio strictly above `threshold` tags. */
  datatype Tier = Tier(id: int, threshold: real)

  predicate InSystem(r: DsRow, sys: int)
  {
    r.system == sys || r.systemAlt == sys
  }

  predicate CompInSystem(k: CompRow, sys: int)
  {
    k.system == sys || k.systemAlt == sys
  }

  /** The `structural_system` column followed by the `structural_system_alt` column. */
  function SystemValues(ds: seq<DsRow>): seq<int>
  {
    seq(|ds|, j requires 0 <= j < |ds| => ds[j].system) + seq(|ds|, j requires 0 <= j < |ds| => ds[j].systemAlt)
  }

  /** The systems the engine visits: the distinct system values in increasing
      order with the first (smallest, "unassigned") one deleted. */
  function SystemList(ds: seq<DsRow>): seq<int>
  {
    var u := Unique(SystemValues(ds));
    if |u| == 0 then [] else u[1..]
  }

  /** The system list after the `ignore_coupling_beam_for_red_tag` filter. */
  function ActiveSystems(c: Case): seq<int>
  {
    var all := SystemList(c.inv.ds);
    if c.opts.ignoreCouplingBeam then Without(all, CouplingBeam) else all
  }

  /** The series ids of the rows belonging to `sys`, in row order, repeats included. */
  function SeriesInSystem(ds: seq<DsRow>, sys: int): seq<int>
  {
    if |ds| == 0 then []
    else if InSystem(ds[|ds| - 1], sys) then SeriesInSystem(ds[..|ds| - 1], sys) + [ds[|ds| - 1].series]
    else SeriesInSystem(ds[..|ds| - 1], sys)
  }

  /** A series id is collected exactly when some row of the system carries it. */
  lemma {:induction false} SeriesInSystemMembers(ds: seq<DsRow>, sys: int)
    ensures forall x :: x in SeriesInSystem(ds, sys) <==>
              exists j :: 0 <= j < |ds| && InSystem(ds[j], sys) && ds[j].series == x
  {
    if |ds| > 0 {
      var init := ds[..|ds| - 1];
      SeriesInSystemMembers(init, sys);
      assert forall j :: 0 <= j < |init| ==> init[j] == ds[j];
    }
  }

  /** The distinct series of a system (`np.unique` of the series column over the system's rows). */
  function SeriesIds(ds: seq<DsRow>, sys: int): seq<int>
  {
    Unique(SeriesInSystem(ds, sys))
  }

  /** Whether some primary `structural_system` is a coupling beam: the guard of
      the cross-story check. */
  predicate HasPrimaryCouplingBeam(ds: seq<DsRow>)
  {
    exists j :: 0 <= j < |ds| && ds[j].system == CouplingBeam
  }

  /** Shapes the engine needs: at least one story; three directions per story;
      a damage row per damage-state column and a quantity per component; and a
      non-empty system list (numpy raises on the empty reductions otherwise). */
  predicate WellFormed(c: Case)
  {
    && |c.dmg| >= 1
    && |c.inv.qty| == |c.dmg|
    && (forall s :: 0 <= s < |c.dmg| ==>
          && |c.dmg[s]| == Directions
          && |c.inv.qty[s]| == Directions
          && forall d :: 0 <= d < Directions ==>
               |c.dmg[s][d]| == |c.inv.ds| && |c.inv.qty[s][d]| == |c.inv.comps|)
    && |SystemList(c.inv.ds)| >= 1
  }

  /** Every installed quantity is non-negative. */
  predicate NonNegativeQuantities(inv: Inventory)
  {
    forall s, d, k :: 0 <= s < |inv.qty| && 0 <= d < |inv.qty[s]| && 0 <= k < |inv.qty[s][d]| ==> inv.qty[s][d][k] >= 0.0
  }

  predicate ValidAt(c: Case, s: int, d: int)
  {
    WellFormed(c) && 0 <= s < |c.dmg| && 0 <= d < Directions
  }

  /** A system value is visited exactly when it occurs in either system column
      and some smaller value occurs too: `np.delete(..., 0)` drops the smallest. */
  lemma SystemListDropsSmallest(ds: seq<DsRow>, x: int)
    ensures x in SystemList(ds) <==>
              x in SystemValues(ds) && exists y :: y in SystemValues(ds) && y < x
  {
    if x in SystemList(ds) {
      VisitedHasSmaller(ds, x);
    }
    if x in SystemValues(ds) && exists y :: y in SystemValues(ds) && y < x {
      var y :| y in SystemValues(ds) && y < x;
      SmallerMakesVisited(ds, x, y);
    }
  }

  /** A visited system occurs in the system columns above their smallest value. */
  lemma VisitedHasSmaller(ds: seq<DsRow>, x: int)
    requires x in SystemList(ds)
    ensures x in SystemValues(ds) && exists y :: y in SystemValues(ds) && y < x
  {
    var vals := SystemValues(ds);
    var u := Unique(vals);
    UniqueSortedDistinct(vals);
    assert SystemList(ds) == u[1..];
    var i :| 0 <= i < |u| - 1 && u[1..][i] == x;
    assert u[i + 1] == x && u[i + 1] in u;
    assert u[0] in u && u[0] < u[i + 1];
  }

  /** A system value with a smaller value beside it is visited. */
  lemma SmallerMakesVisited(ds: seq<DsRow>, x: int, y: int)
    requires x in SystemValues(ds) && y in SystemValues(ds) && y < x
    ensures x in SystemList(ds)
  {
    var vals := SystemValues(ds);
    var u := Unique(vals);
    UniqueSortedDistinct(vals);
    var i :| 0 <= i < |u| && u[i] == x;
    var k :| 0 <= k < |u| && u[k] == y;
    assert k < i;
    assert SystemList(ds) == u[1..];
    assert u[1..][i - 1] == x;
  }

  /** Every visited system has at least one series, so the `nanmax` over its
      series never sees an empty vector. */
  lemma SeriesNonEmpty(ds: seq<DsRow>, sys: int)
    requires sys in SystemList(ds)
    ensures |SeriesIds(ds, sys)| > 0
  {
    SystemListDropsSmallest(ds, sys);
    var vals := SystemValues(ds);
    var i :| 0 <= i < |vals| && vals[i] == sys;
    var j := if i < |ds| then i else i - |ds|;
    assert InSystem(ds[j], sys);
    SeriesInSystemMembers(ds, sys);
    UniqueSortedDistinct(SeriesInSystem(ds, sys));
    assert ds[j].series in SeriesInSystem(ds, sys);
  }

  /** The active list keeps its order and distinctness, and lists the visited
      systems other than 12 when coupling beams are ignored. */
  lemma ActiveSystemsShape(c: Case)
    ensures |ActiveSystems(c)| <= |SystemList(c.inv.ds)|
    ensures Increasing(ActiveSystems(c))
    ensures forall x :: x in ActiveSystems(c) <==>
              x in SystemList(c.inv.ds) && (c.opts.ignoreCouplingBeam ==> x != CouplingBeam)
  {
    var u := Unique(SystemValues(c.inv.ds));
    UniqueSortedDistinct(SystemValues(c.inv.ds));
    WithoutKeepsOrder(SystemList(c.inv.ds), CouplingBeam);
    if |u| > 0 {
      assert forall i, j :: 0 <= i < j < |u[1..]| ==> u[1..][i] == u[i + 1] && u[1..][j] == u[j + 1];
    }
  }

  /** The system visited at step `k` of the active list is a visited system and
      was not visited before. */
  lemma ActiveStep(c: Case, k: int)
    requires 0 <= k < |ActiveSystems(c)|
    ensures ActiveSystems(c)[k] in SystemList(c.inv.ds)
    ensures ActiveSystems(c)[k] !in ActiveSystems(c)[..k]
    ensures (CouplingBeam in ActiveSystems(c)[..k + 1]) == (CouplingBeam in ActiveSystems(c)[..k] || ActiveSystems(c)[k] == CouplingBeam)
  {
    var a := ActiveSystems(c);
    ActiveSystemsShape(c);
    assert a[k] in a;
    assert a[..k + 1] == a[..k] + [a[k]];
  }
}
