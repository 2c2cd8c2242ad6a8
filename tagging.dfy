/** `simulate_tagging` for one realization, written as the source runs it:
    nested loops over tiers, stories, directions, systems and series that fill
    preallocated tag buffers, running coupling-beam accumulators, and impact
    masks grown by `fmax`. Each level is proved against the reference
    definitions of TagSpec. */
module Tagging {
  import opened Numerics
  import opened Tables
  import opened TagSpec

  /** `ser_dmg` and `ser_qty` of one system at one story and direction: per
      series of the system, the filtered damage summed over the system's
      columns of that series, and the installed quantity summed likewise. */
  method SeriesTotals(ds: seq<DsRow>, comps: seq<CompRow>, scDmg: seq<real>, numComps: seq<real>, sys: int)
    returns (serDmg: seq<real>, serQty: seq<real>)
    requires |scDmg| == |ds| && |numComps| == |comps|
    ensures |serDmg| == |SeriesIds(ds, sys)| && |serQty| == |SeriesIds(ds, sys)|
    ensures forall i :: 0 <= i < |serDmg| ==>
              serDmg[i] == SeriesDamage(ds, scDmg, sys, SeriesIds(ds, sys)[i]) &&
              serQty[i] == SeriesQty(comps, numComps, sys, SeriesIds(ds, sys)[i])
  {
    var series := SeriesIds(ds, sys);
    var dmgBuf := new real[|series|](_ => 0.0);
    var qtyBuf := new real[|series|](_ => 0.0);
    for i := 0 to |series|
      invariant forall e :: 0 <= e < i ==>
                  dmgBuf[e] == SeriesDamage(ds, scDmg, sys, series[e]) &&
                  qtyBuf[e] == SeriesQty(comps, numComps, sys, series[e])
    {
      dmgBuf[i] := SeriesDamage(ds, scDmg, sys, series[i]);
      qtyBuf[i] := SeriesQty(comps, numComps, sys, series[i]);
    }
    serDmg, serQty := dmgBuf[..], qtyBuf[..];
  }

  /** `sys_dmg` and `sys_qty`: the `nanmax` over the series of a visited system
      of its series damages and, separately, of its series quantities. */
  method SystemTotals(c: Case, id: int, s: int, d: int, sys: int) returns (sysDmg: real, sysQty: real)
    requires ValidAt(c, s, d) && sys in SystemList(c.inv.ds)
    ensures sysDmg == SystemDamage(c.inv.ds, ScDamage(c, id, s, d), sys)
    ensures sysQty == SystemQty(c.inv.ds, c.inv.comps, c.inv.qty[s][d], sys)
  {
    var ds := c.inv.ds;
    var scDmg := ScDamage(c, id, s, d);
    SeriesNonEmpty(ds, sys);
    var serDmg, serQty := SeriesTotals(ds, c.inv.comps, scDmg, c.inv.qty[s][d], sys);
    var series := SeriesIds(ds, sys);
    assert serDmg == seq(|series|, i requires 0 <= i < |series| => SeriesDamage(ds, scDmg, sys, series[i]));
    assert serQty == seq(|series|, i requires 0 <= i < |series| => SeriesQty(c.inv.comps, c.inv.qty[s][d], sys, series[i]));
    sysDmg, sysQty := Max(serDmg), Max(serQty);
  }

  /** What visiting system `sys` at story `s`, direction `d` does: `tagged` is
      its per-story tag; a tagged system marks its damaged, tier-passing
      columns in `impact`; on the coupling-beam path its columns join
      `impactCb` and its damage and quantity are added to the accumulators of
      direction `d`, the other directions untouched. */
  ghost predicate SystemEffect(c: Case, id: int, thr: real, s: int, d: int, sys: int, tagged: bool,
                               impact: seq<bool>, impact': seq<bool>, impactCb: seq<bool>, impactCb': seq<bool>,
                               dmg: seq<real>, dmg': seq<real>, qty: seq<real>, qty': seq<real>)
    requires ValidAt(c, s, d)
  {
    && tagged == PerStoryHit(c, id, thr, s, d, sys)
    && |impact'| == |impact|
    && (forall j :: 0 <= j < |impact| && j < |c.inv.ds| ==>
          impact'[j] == (impact[j] || (tagged && Marks(c, id, s, d, sys, j))))
    && |impactCb'| == |impactCb|
    && (forall j :: 0 <= j < |impactCb| && j < |c.inv.ds| ==>
          impactCb'[j] == (impactCb[j] || (CbPath(c, sys) && Marks(c, id, s, d, sys, j))))
    && |dmg| == Directions && |dmg'| == Directions && |qty| == Directions && |qty'| == Directions
    && (forall e :: 0 <= e < Directions && e != d ==> dmg'[e] == dmg[e] && qty'[e] == qty[e])
    && dmg'[d] == dmg[d] + (if CbPath(c, sys) then SystemDamage(c.inv.ds, ScDamage(c, id, s, d), sys) else 0.0)
    && qty'[d] == qty[d] + (if CbPath(c, sys) then SystemQty(c.inv.ds, c.inv.comps, c.inv.qty[s][d], sys) else 0.0)
  }

  /** One system at one story and direction: system 12 under
      `tag_coupling_beams_over_height` adds its damage and quantity to the
      direction's coupling-beam accumulators and its damaged columns to the
      tier's candidates; any other system is tested against the threshold and,
      when tagged, marks its damaged columns. */
  method EvaluateSystem(c: Case, id: int, thr: real, s: int, d: int, sys: int,
                        cbDmg: array<real>, cbQty: array<real>,
                        impact: seq<bool>, impactCb: seq<bool>)
    returns (tagged: bool, impact': seq<bool>, impactCb': seq<bool>)
    requires ValidAt(c, s, d) && sys in SystemList(c.inv.ds)
    requires cbDmg.Length == Directions && cbQty.Length == Directions && cbDmg != cbQty
    requires |impact| == |c.inv.ds| && |impactCb| == |c.inv.ds|
    modifies cbDmg, cbQty
    ensures SystemEffect(c, id, thr, s, d, sys, tagged, impact, impact', impactCb, impactCb',
                         old(cbDmg[..]), cbDmg[..], old(cbQty[..]), cbQty[..])
  {
    var ds := c.inv.ds;
    var scDmg := ScDamage(c, id, s, d);
    var mask := seq(|ds|, j requires 0 <= j < |ds| => InSystem(ds[j], sys) && ds[j].safetyClass >= id && scDmg[j] > 0.0);
    assert forall j :: 0 <= j < |ds| ==> mask[j] == Marks(c, id, s, d, sys, j);
    var sysDmg, sysQty := SystemTotals(c, id, s, d, sys);
    impact', impactCb' := impact, impactCb;
    if sys == CouplingBeam && c.opts.tagCouplingBeamsOverHeight {
      cbDmg[d] := cbDmg[d] + sysDmg;
      cbQty[d] := cbQty[d] + sysQty;
      impactCb' := Or(impactCb, mask);
      tagged := false;
    } else {
      tagged := Exceeds(Divide(sysDmg, sysQty), thr);
      impact' := Or(impact, seq(|ds|, j requires 0 <= j < |ds| => tagged && mask[j]));
    }
  }

  /** The coupling-beam path has been taken among the first `k` active systems. */
  ghost predicate CbSeen(c: Case, k: int)
    requires 0 <= k <= |ActiveSystems(c)|
  {
    c.opts.tagCouplingBeamsOverHeight && CouplingBeam in ActiveSystems(c)[..k]
  }

  /** The state of one direction's system loop after the first `k` active
      systems: the `sys_tag` buffer, the impact masks grown from `impact0` and
      `impactCb0`, and the coupling-beam accumulators grown from `dmg0`/`qty0`. */
  ghost predicate DirectionAt(c: Case, id: int, thr: real, s: int, d: int, k: int, tags: seq<bool>,
                              impact0: seq<bool>, impact: seq<bool>, impactCb0: seq<bool>, impactCb: seq<bool>,
                              dmg0: seq<real>, dmg: seq<real>, qty0: seq<real>, qty: seq<real>)
    requires ValidAt(c, s, d)
  {
    && 0 <= k <= |ActiveSystems(c)| <= |tags|
    && Any(tags[..k]) == Any(SysTags(c, id, thr, s, d)[..k])
    && (forall i :: k <= i < |tags| ==> !tags[i])
    && |impact0| == |c.inv.ds| && |impact| == |c.inv.ds|
    && (forall j :: 0 <= j < |impact| ==> impact[j] == (impact0[j] || Any(SysMarks(c, id, thr, s, d, j)[..k])))
    && |impactCb0| == |c.inv.ds| && |impactCb| == |c.inv.ds|
    && (forall j :: 0 <= j < |impactCb| ==>
          impactCb[j] == (impactCb0[j] || (CbSeen(c, k) && Marks(c, id, s, d, CouplingBeam, j))))
    && |dmg0| == Directions && |dmg| == Directions && |qty0| == Directions && |qty| == Directions
    && (forall e :: 0 <= e < Directions && e != d ==> dmg[e] == dmg0[e] && qty[e] == qty0[e])
    && dmg[d] == dmg0[d] + (if CbSeen(c, k) then SystemDamage(c.inv.ds, ScDamage(c, id, s, d), CouplingBeam) else 0.0)
    && qty[d] == qty0[d] + (if CbSeen(c, k) then SystemQty(c.inv.ds, c.inv.comps, c.inv.qty[s][d], CouplingBeam) else 0.0)
  }

  /** The impact part of DirectionAdvance: the marks of active system `k`
      extend every column's trace by one system. */
  lemma DirectionAdvanceImpact(c: Case, id: int, thr: real, s: int, d: int, k: int, tagged: bool,
                               impact0: seq<bool>, impact: seq<bool>, impact': seq<bool>)
    requires ValidAt(c, s, d) && 0 <= k < |ActiveSystems(c)|
    requires |impact0| == |c.inv.ds| && |impact| == |c.inv.ds| && |impact'| == |c.inv.ds|
    requires forall j :: 0 <= j < |impact| ==> impact[j] == (impact0[j] || Any(SysMarks(c, id, thr, s, d, j)[..k]))
    requires tagged == PerStoryHit(c, id, thr, s, d, ActiveSystems(c)[k])
    requires forall j :: 0 <= j < |impact| && j < |c.inv.ds| ==>
               impact'[j] == (impact[j] || (tagged && Marks(c, id, s, d, ActiveSystems(c)[k], j)))
    ensures forall j :: 0 <= j < |impact'| ==> impact'[j] == (impact0[j] || Any(SysMarks(c, id, thr, s, d, j)[..k + 1]))
  {
    forall j | 0 <= j < |c.inv.ds|
      ensures impact'[j] == (impact0[j] || Any(SysMarks(c, id, thr, s, d, j)[..k + 1]))
    {
      AnyStep(SysMarks(c, id, thr, s, d, j), k);
    }
  }

  /** The coupling-beam part of DirectionAdvance: system 12 is met at most
      once, so its columns and its damage and quantity are added once. */
  lemma DirectionAdvanceCb(c: Case, id: int, s: int, d: int, k: int,
                           impactCb0: seq<bool>, impactCb: seq<bool>, impactCb': seq<bool>,
                           dmg0: seq<real>, dmg: seq<real>, dmg': seq<real>,
                           qty0: seq<real>, qty: seq<real>, qty': seq<real>)
    requires ValidAt(c, s, d) && 0 <= k < |ActiveSystems(c)|
    requires |impactCb0| == |c.inv.ds| && |impactCb| == |c.inv.ds| && |impactCb'| == |c.inv.ds|
    requires forall j :: 0 <= j < |impactCb| ==>
               impactCb[j] == (impactCb0[j] || (CbSeen(c, k) && Marks(c, id, s, d, CouplingBeam, j)))
    requires forall j :: 0 <= j < |impactCb| && j < |c.inv.ds| ==>
               impactCb'[j] == (impactCb[j] || (CbPath(c, ActiveSystems(c)[k]) && Marks(c, id, s, d, ActiveSystems(c)[k], j)))
    requires |dmg0| == Directions && |dmg| == Directions && |qty0| == Directions && |qty| == Directions
    requires |dmg'| == Directions && |qty'| == Directions
    requires dmg[d] == dmg0[d] + (if CbSeen(c, k) then SystemDamage(c.inv.ds, ScDamage(c, id, s, d), CouplingBeam) else 0.0)
    requires qty[d] == qty0[d] + (if CbSeen(c, k) then SystemQty(c.inv.ds, c.inv.comps, c.inv.qty[s][d], CouplingBeam) else 0.0)
    requires dmg'[d] == dmg[d] +
               (if CbPath(c, ActiveSystems(c)[k]) then SystemDamage(c.inv.ds, ScDamage(c, id, s, d), ActiveSystems(c)[k]) else 0.0)
    requires qty'[d] == qty[d] +
               (if CbPath(c, ActiveSystems(c)[k]) then SystemQty(c.inv.ds, c.inv.comps, c.inv.qty[s][d], ActiveSystems(c)[k]) else 0.0)
    ensures forall j :: 0 <= j < |impactCb'| ==>
              impactCb'[j] == (impactCb0[j] || (CbSeen(c, k + 1) && Marks(c, id, s, d, CouplingBeam, j)))
    ensures dmg'[d] == dmg0[d] + (if CbSeen(c, k + 1) then SystemDamage(c.inv.ds, ScDamage(c, id, s, d), CouplingBeam) else 0.0)
    ensures qty'[d] == qty0[d] + (if CbSeen(c, k + 1) then SystemQty(c.inv.ds, c.inv.comps, c.inv.qty[s][d], CouplingBeam) else 0.0)
  {
    ActiveStep(c, k);
    assert CbSeen(c, k + 1) == (CbSeen(c, k) || CbPath(c, ActiveSystems(c)[k]));
    assert CbPath(c, ActiveSystems(c)[k]) ==> !CbSeen(c, k);
  }

  /** Visiting active system `k` as EvaluateSystem does advances the loop state by one system. */
  lemma DirectionAdvance(c: Case, id: int, thr: real, s: int, d: int, k: int, tags: seq<bool>, tagged: bool,
                         impact0: seq<bool>, impact: seq<bool>, impact': seq<bool>,
                         impactCb0: seq<bool>, impactCb: seq<bool>, impactCb': seq<bool>,
                         dmg0: seq<real>, dmg: seq<real>, dmg': seq<real>,
                         qty0: seq<real>, qty: seq<real>, qty': seq<real>)
    requires ValidAt(c, s, d) && 0 <= k < |ActiveSystems(c)|
    requires DirectionAt(c, id, thr, s, d, k, tags, impact0, impact, impactCb0, impactCb, dmg0, dmg, qty0, qty)
    requires SystemEffect(c, id, thr, s, d, ActiveSystems(c)[k], tagged, impact, impact', impactCb, impactCb', dmg, dmg', qty, qty')
    ensures DirectionAt(c, id, thr, s, d, k + 1, tags[k := tagged], impact0, impact', impactCb0, impactCb', dmg0, dmg', qty0, qty')
  {
    AnyStep(SysTags(c, id, thr, s, d), k);
    var tags' := tags[k := tagged];
    AnyStep(tags', k);
    assert tags'[..k] == tags[..k];
    DirectionAdvanceImpact(c, id, thr, s, d, k, tagged, impact0, impact, impact');
    DirectionAdvanceCb(c, id, s, d, k, impactCb0, impactCb, impactCb', dmg0, dmg, dmg', qty0, qty, qty');
  }

  /** What one direction of one story does: `tagged` is its `dir_tag`; the
      columns its tagged systems mark join `impact`; on the coupling-beam path
      the damaged coupling-beam columns join `impactCb` and the direction's
      accumulators grow by the story's coupling-beam damage and quantity. */
  ghost predicate DirectionEffect(c: Case, id: int, thr: real, s: int, d: int, tagged: bool,
                                  impact: seq<bool>, impact': seq<bool>, impactCb: seq<bool>, impactCb': seq<bool>,
                                  dmg: seq<real>, dmg': seq<real>, qty: seq<real>, qty': seq<real>)
    requires ValidAt(c, s, d)
  {
    && tagged == DirTag(c, id, thr, s, d)
    && |impact'| == |impact|
    && (forall j :: 0 <= j < |impact| && j < |c.inv.ds| ==> impact'[j] == (impact[j] || DirMarks(c, id, thr, s, d, j)))
    && |impactCb'| == |impactCb|
    && (forall j :: 0 <= j < |impactCb| && j < |c.inv.ds| ==>
          impactCb'[j] == (impactCb[j] || (CbActive(c) && Marks(c, id, s, d, CouplingBeam, j))))
    && |dmg| == Directions && |dmg'| == Directions && |qty| == Directions && |qty'| == Directions
    && (forall e :: 0 <= e < Directions && e != d ==> dmg'[e] == dmg[e] && qty'[e] == qty[e])
    && dmg'[d] == dmg[d] + CbStoryDamage(c, id, s, d)
    && qty'[d] == qty[d] + CbStoryQty(c, s, d)
  }

  /** After the whole active list the loop state gives the direction's effect. */
  lemma DirectionDone(c: Case, id: int, thr: real, s: int, d: int, tags: seq<bool>,
                      impact0: seq<bool>, impact: seq<bool>, impactCb0: seq<bool>, impactCb: seq<bool>,
                      dmg0: seq<real>, dmg: seq<real>, qty0: seq<real>, qty: seq<real>)
    requires ValidAt(c, s, d)
    requires DirectionAt(c, id, thr, s, d, |ActiveSystems(c)|, tags, impact0, impact, impactCb0, impactCb, dmg0, dmg, qty0, qty)
    ensures DirectionEffect(c, id, thr, s, d, Any(tags), impact0, impact, impactCb0, impactCb, dmg0, dmg, qty0, qty)
  {
    var a := ActiveSystems(c);
    assert a[..|a|] == a;
    assert CbSeen(c, |a|) == CbActive(c);
    AnyTrailing(tags, |a|);
    assert SysTags(c, id, thr, s, d)[..|a|] == SysTags(c, id, thr, s, d);
    forall j | 0 <= j < |c.inv.ds|
      ensures Any(SysMarks(c, id, thr, s, d, j)[..|a|]) == DirMarks(c, id, thr, s, d, j)
    {
      assert SysMarks(c, id, thr, s, d, j)[..|a|] == SysMarks(c, id, thr, s, d, j);
    }
  }

  /** One direction of one story in one tier: every active system is visited
      in turn; `sys_tag` (sized for the unfiltered system list) holds the
      per-system tags and `dir_tag` is their OR. */
  method EvaluateDirection(c: Case, id: int, thr: real, s: int, d: int,
                           cbDmg: array<real>, cbQty: array<real>,
                           impact: seq<bool>, impactCb: seq<bool>)
    returns (dirTag: bool, impact': seq<bool>, impactCb': seq<bool>)
    requires ValidAt(c, s, d)
    requires cbDmg.Length == Directions && cbQty.Length == Directions && cbDmg != cbQty
    requires |impact| == |c.inv.ds| && |impactCb| == |c.inv.ds|
    modifies cbDmg, cbQty
    ensures DirectionEffect(c, id, thr, s, d, dirTag, impact, impact', impactCb, impactCb',
                            old(cbDmg[..]), cbDmg[..], old(cbQty[..]), cbQty[..])
  {
    var active := ActiveSystems(c);
    var sysTag := new bool[|SystemList(c.inv.ds)|](_ => false);
    ghost var dmg0, qty0 := cbDmg[..], cbQty[..];
    impact', impactCb' := impact, impactCb;
    var k := 0;
    while k < |active|
      invariant DirectionAt(c, id, thr, s, d, k, sysTag[..], impact, impact', impactCb, impactCb', dmg0, cbDmg[..], qty0, cbQty[..])
    {
      ghost var tags, dmgBefore, qtyBefore, impactBefore, impactCbBefore := sysTag[..], cbDmg[..], cbQty[..], impact', impactCb';
      ActiveStep(c, k);
      var tagged;
      tagged, impact', impactCb' := EvaluateSystem(c, id, thr, s, d, active[k], cbDmg, cbQty, impact', impactCb');
      sysTag[k] := tagged;
      DirectionAdvance(c, id, thr, s, d, k, tags, tagged, impact, impactBefore, impact', impactCb, impactCbBefore, impactCb',
                       dmg0, dmgBefore, cbDmg[..], qty0, qtyBefore, cbQty[..]);
      k := k + 1;
    }
    DirectionDone(c, id, thr, s, d, sysTag[..], impact, impact', impactCb, impactCb', dmg0, cbDmg[..], qty0, cbQty[..]);
    dirTag := Any(sysTag[..]);
  }

  /** The state of one story's direction loop after the first `d` directions. */
  ghost predicate StoryAt(c: Case, id: int, thr: real, s: int, d: int, tags: seq<bool>,
                          impact0: seq<bool>, impact: seq<bool>, impactCb0: seq<bool>, impactCb: seq<bool>,
                          dmg0: seq<real>, dmg: seq<real>, qty0: seq<real>, qty: seq<real>)
    requires WellFormed(c) && 0 <= s < |c.dmg|
  {
    && 0 <= d <= Directions && |tags| == Directions
    && (forall e :: 0 <= e < d ==> tags[e] == DirTags(c, id, thr, s)[e])
    && |impact0| == |c.inv.ds| && |impact| == |c.inv.ds|
    && (forall j :: 0 <= j < |impact| ==> impact[j] == (impact0[j] || Any(DirMarksVec(c, id, thr, s, j)[..d])))
    && |impactCb0| == |c.inv.ds| && |impactCb| == |c.inv.ds|
    && (forall j :: 0 <= j < |impactCb| ==>
          impactCb[j] == (impactCb0[j] || (CbActive(c) && Any(CbDirMarks(c, id, s, j)[..d]))))
    && |dmg0| == Directions && |dmg| == Directions && |qty0| == Directions && |qty| == Directions
    && (forall e :: 0 <= e < Directions ==>
          dmg[e] == dmg0[e] + (if e < d then CbStoryDamage(c, id, s, e) else 0.0) &&
          qty[e] == qty0[e] + (if e < d then CbStoryQty(c, s, e) else 0.0))
  }

  /** The impact part of StoryAdvance: direction `d`'s marks extend every
      column's trace by one direction. */
  lemma StoryAdvanceImpact(c: Case, id: int, thr: real, s: int, d: int,
                           impact0: seq<bool>, impact: seq<bool>, impact': seq<bool>)
    requires WellFormed(c) && 0 <= s < |c.dmg| && 0 <= d < Directions
    requires |impact0| == |c.inv.ds| && |impact| == |c.inv.ds| && |impact'| == |c.inv.ds|
    requires forall j :: 0 <= j < |impact| ==> impact[j] == (impact0[j] || Any(DirMarksVec(c, id, thr, s, j)[..d]))
    requires forall j :: 0 <= j < |impact| && j < |c.inv.ds| ==> impact'[j] == (impact[j] || DirMarks(c, id, thr, s, d, j))
    ensures forall j :: 0 <= j < |impact'| ==> impact'[j] == (impact0[j] || Any(DirMarksVec(c, id, thr, s, j)[..d + 1]))
  {
    forall j | 0 <= j < |c.inv.ds|
      ensures Any(DirMarksVec(c, id, thr, s, j)[..d + 1]) == (Any(DirMarksVec(c, id, thr, s, j)[..d]) || DirMarks(c, id, thr, s, d, j))
    {
      AnyStep(DirMarksVec(c, id, thr, s, j), d);
      DirMarksVecAt(c, id, thr, s, d, j);
    }
  }

  /** The coupling-beam part of StoryAdvance: direction `d`'s damaged
      coupling-beam columns extend every column's candidate trace. */
  lemma StoryAdvanceCb(c: Case, id: int, s: int, d: int,
                       impactCb0: seq<bool>, impactCb: seq<bool>, impactCb': seq<bool>)
    requires WellFormed(c) && 0 <= s < |c.dmg| && 0 <= d < Directions
    requires |impactCb0| == |c.inv.ds| && |impactCb| == |c.inv.ds| && |impactCb'| == |c.inv.ds|
    requires forall j :: 0 <= j < |impactCb| ==>
               impactCb[j] == (impactCb0[j] || (CbActive(c) && Any(CbDirMarks(c, id, s, j)[..d])))
    requires forall j :: 0 <= j < |impactCb| && j < |c.inv.ds| ==>
               impactCb'[j] == (impactCb[j] || (CbActive(c) && Marks(c, id, s, d, CouplingBeam, j)))
    ensures forall j :: 0 <= j < |impactCb'| ==>
              impactCb'[j] == (impactCb0[j] || (CbActive(c) && Any(CbDirMarks(c, id, s, j)[..d + 1])))
  {
    forall j | 0 <= j < |c.inv.ds|
      ensures Any(CbDirMarks(c, id, s, j)[..d + 1]) == (Any(CbDirMarks(c, id, s, j)[..d]) || Marks(c, id, s, d, CouplingBeam, j))
    {
      AnyStep(CbDirMarks(c, id, s, j), d);
      CbDirMarksAt(c, id, s, d, j);
    }
  }

  /** Evaluating direction `d` as EvaluateDirection does advances the story's loop state. */
  lemma StoryAdvance(c: Case, id: int, thr: real, s: int, d: int, tags: seq<bool>, tagged: bool,
                     impact0: seq<bool>, impact: seq<bool>, impact': seq<bool>,
                     impactCb0: seq<bool>, impactCb: seq<bool>, impactCb': seq<bool>,
                     dmg0: seq<real>, dmg: seq<real>, dmg': seq<real>,
                     qty0: seq<real>, qty: seq<real>, qty': seq<real>)
    requires WellFormed(c) && 0 <= s < |c.dmg| && 0 <= d < Directions
    requires StoryAt(c, id, thr, s, d, tags, impact0, impact, impactCb0, impactCb, dmg0, dmg, qty0, qty)
    requires DirectionEffect(c, id, thr, s, d, tagged, impact, impact', impactCb, impactCb', dmg, dmg', qty, qty')
    ensures StoryAt(c, id, thr, s, d + 1, tags[d := tagged], impact0, impact', impactCb0, impactCb', dmg0, dmg', qty0, qty')
  {
    DirTagsAt(c, id, thr, s, d);
    StoryAdvanceImpact(c, id, thr, s, d, impact0, impact, impact');
    StoryAdvanceCb(c, id, s, d, impactCb0, impactCb, impactCb');
  }

  /** What one story does: `tagged` is its `story_tag`; the columns marked at
      some direction join `impact`; on the coupling-beam path its damaged
      coupling-beam columns join `impactCb` and every direction's accumulators
      grow by the story's coupling-beam damage and quantity. */
  ghost predicate StoryEffect(c: Case, id: int, thr: real, s: int, tagged: bool,
                              impact: seq<bool>, impact': seq<bool>, impactCb: seq<bool>, impactCb': seq<bool>,
                              dmg: seq<real>, dmg': seq<real>, qty: seq<real>, qty': seq<real>)
    requires WellFormed(c) && 0 <= s < |c.dmg|
  {
    && tagged == StoryTag(c, id, thr, s)
    && |impact'| == |impact|
    && (forall j :: 0 <= j < |impact| && j < |c.inv.ds| ==> impact'[j] == (impact[j] || StoryMarks(c, id, thr, s, j)))
    && |impactCb'| == |impactCb|
    && (forall j :: 0 <= j < |impactCb| && j < |c.inv.ds| ==>
          impactCb'[j] == (impactCb[j] || (CbActive(c) && CbStoryMarks(c, id, s, j))))
    && |dmg| == Directions && |dmg'| == Directions && |qty| == Directions && |qty'| == Directions
    && (forall e :: 0 <= e < Directions ==>
          dmg'[e] == dmg[e] + CbStoryDamage(c, id, s, e) && qty'[e] == qty[e] + CbStoryQty(c, s, e))
  }

  /** After the three directions the loop state gives the story's effect. */
  lemma StoryDone(c: Case, id: int, thr: real, s: int, tags: seq<bool>,
                  impact0: seq<bool>, impact: seq<bool>, impactCb0: seq<bool>, impactCb: seq<bool>,
                  dmg0: seq<real>, dmg: seq<real>, qty0: seq<real>, qty: seq<real>)
    requires WellFormed(c) && 0 <= s < |c.dmg|
    requires StoryAt(c, id, thr, s, Directions, tags, impact0, impact, impactCb0, impactCb, dmg0, dmg, qty0, qty)
    ensures StoryEffect(c, id, thr, s, Any(tags), impact0, impact, impactCb0, impactCb, dmg0, dmg, qty0, qty)
  {
    assert tags == DirTags(c, id, thr, s);
    forall j | 0 <= j < |c.inv.ds|
      ensures DirMarksVec(c, id, thr, s, j)[..Directions] == DirMarksVec(c, id, thr, s, j)
      ensures CbDirMarks(c, id, s, j)[..Directions] == CbDirMarks(c, id, s, j)
    {
    }
  }

  /** One story in one tier: the three directions (3 = non-directional) in
      turn; `story_tag` is the OR of the direction tags. */
  method EvaluateStory(c: Case, id: int, thr: real, s: int,
                       cbDmg: array<real>, cbQty: array<real>,
                       impact: seq<bool>, impactCb: seq<bool>)
    returns (storyTag: bool, impact': seq<bool>, impactCb': seq<bool>)
    requires WellFormed(c) && 0 <= s < |c.dmg|
    requires cbDmg.Length == Directions && cbQty.Length == Directions && cbDmg != cbQty
    requires |impact| == |c.inv.ds| && |impactCb| == |c.inv.ds|
    modifies cbDmg, cbQty
    ensures StoryEffect(c, id, thr, s, storyTag, impact, impact', impactCb, impactCb',
                        old(cbDmg[..]), cbDmg[..], old(cbQty[..]), cbQty[..])
  {
    var dirTag := new bool[Directions](_ => false);
    ghost var dmg0, qty0 := cbDmg[..], cbQty[..];
    impact', impactCb' := impact, impactCb;
    for d := 0 to Directions
      invariant StoryAt(c, id, thr, s, d, dirTag[..], impact, impact', impactCb, impactCb', dmg0, cbDmg[..], qty0, cbQty[..])
    {
      ghost var tags, dmgBefore, qtyBefore, impactBefore, impactCbBefore := dirTag[..], cbDmg[..], cbQty[..], impact', impactCb';
      var tagged;
      tagged, impact', impactCb' := EvaluateDirection(c, id, thr, s, d, cbDmg, cbQty, impact', impactCb');
      dirTag[d] := tagged;
      StoryAdvance(c, id, thr, s, d, tags, tagged, impact, impactBefore, impact', impactCb, impactCbBefore, impactCb',
                   dmg0, dmgBefore, cbDmg[..], qty0, qtyBefore, cbQty[..]);
    }
    StoryDone(c, id, thr, s, dirTag[..], impact, impact', impactCb, impactCb', dmg0, cbDmg[..], qty0, cbQty[..]);
    storyTag := Any(dirTag[..]);
  }

  /** The state of one tier's story loop after the first `s` stories: the
      `story_tag` buffer, the impact mask grown from `impact0`, the tier's
      coupling-beam candidates and the coupling-beam accumulators. */
  ghost predicate TierAt(c: Case, id: int, thr: real, s: int, tags: seq<bool>,
                         impact0: seq<bool>, impact: seq<bool>, cbSc: seq<bool>, dmg: seq<real>, qty: seq<real>)
    requires WellFormed(c)
  {
    && 0 <= s <= |c.dmg| && |tags| == |c.dmg|
    && (forall e :: 0 <= e < s ==> tags[e] == StoryTags(c, id, thr)[e])
    && |impact0| == |c.inv.ds| && |impact| == |c.inv.ds|
    && (forall j :: 0 <= j < |impact| ==> impact[j] == (impact0[j] || Any(StoryMarksVec(c, id, thr, j)[..s])))
    && |cbSc| == |c.inv.ds|
    && (forall j :: 0 <= j < |cbSc| ==> cbSc[j] == (CbActive(c) && Any(CbStoryMarksVec(c, id, j)[..s])))
    && |dmg| == Directions && |qty| == Directions
    && (forall e :: 0 <= e < Directions ==> dmg[e] == CbDamage(c, id, e, s) && qty[e] == CbQty(c, e, s))
  }

  /** Evaluating story `s` as EvaluateStory does advances the tier's loop state. */
  lemma TierAdvance(c: Case, id: int, thr: real, s: int, tags: seq<bool>, tagged: bool,
                    impact0: seq<bool>, impact: seq<bool>, impact': seq<bool>,
                    cbSc: seq<bool>, cbSc': seq<bool>,
                    dmg: seq<real>, dmg': seq<real>, qty: seq<real>, qty': seq<real>)
    requires WellFormed(c) && 0 <= s < |c.dmg|
    requires TierAt(c, id, thr, s, tags, impact0, impact, cbSc, dmg, qty)
    requires StoryEffect(c, id, thr, s, tagged, impact, impact', cbSc, cbSc', dmg, dmg', qty, qty')
    ensures TierAt(c, id, thr, s + 1, tags[s := tagged], impact0, impact', cbSc', dmg', qty')
  {
    forall j | 0 <= j < |c.inv.ds|
      ensures Any(StoryMarksVec(c, id, thr, j)[..s + 1]) == (Any(StoryMarksVec(c, id, thr, j)[..s]) || StoryMarks(c, id, thr, s, j))
      ensures Any(CbStoryMarksVec(c, id, j)[..s + 1]) == (Any(CbStoryMarksVec(c, id, j)[..s]) || CbStoryMarks(c, id, s, j))
    {
      AnyStep(StoryMarksVec(c, id, thr, j), s);
      AnyStep(CbStoryMarksVec(c, id, j), s);
    }
  }

  /** What the story loop of a tier leaves behind: `storiesTag` is the OR of
      the story tags; the per-story marks joined `impact`; `cbSc` holds the
      tier's coupling-beam candidates; and the accumulators hold, per
      direction, the cross-story sums of system 12's damage and quantity. */
  ghost predicate StoriesEffect(c: Case, id: int, thr: real, storiesTag: bool,
                                impact: seq<bool>, impact': seq<bool>, cbSc: seq<bool>, dmg: seq<real>, qty: seq<real>)
    requires WellFormed(c)
  {
    && storiesTag == StoriesTag(c, id, thr)
    && |impact'| == |impact|
    && (forall j :: 0 <= j < |impact| && j < |c.inv.ds| ==> impact'[j] == (impact[j] || TierMarks(c, id, thr, j)))
    && |cbSc| == |c.inv.ds|
    && (forall j :: 0 <= j < |cbSc| ==> cbSc[j] == CbMarks(c, id, j))
    && |dmg| == Directions && |qty| == Directions
    && (forall e :: 0 <= e < Directions ==> dmg[e] == CbDamage(c, id, e, |c.dmg|) && qty[e] == CbQty(c, e, |c.dmg|))
  }

  /** After every story the loop state gives the story loop's effect. */
  lemma TierDone(c: Case, id: int, thr: real, tags: seq<bool>,
                 impact0: seq<bool>, impact: seq<bool>, cbSc: seq<bool>, dmg: seq<real>, qty: seq<real>)
    requires WellFormed(c)
    requires TierAt(c, id, thr, |c.dmg|, tags, impact0, impact, cbSc, dmg, qty)
    ensures StoriesEffect(c, id, thr, Any(tags), impact0, impact, cbSc, dmg, qty)
  {
    assert tags == StoryTags(c, id, thr);
    forall j | 0 <= j < |c.inv.ds|
      ensures StoryMarksVec(c, id, thr, j)[..|c.dmg|] == StoryMarksVec(c, id, thr, j)
      ensures CbStoryMarksVec(c, id, j)[..|c.dmg|] == CbStoryMarksVec(c, id, j)
    {
    }
  }

  /** What one tier does: `tagged` is its `sc_tag` entry; its per-story marks
      join `impact`; and, when some primary system is 12 and the whole tier
      tag is set, its coupling-beam candidates join `impactCb`. */
  ghost predicate TierEffect(c: Case, id: int, thr: real, tagged: bool,
                             impact: seq<bool>, impact': seq<bool>, impactCb: seq<bool>, impactCb': seq<bool>)
    requires WellFormed(c)
  {
    && tagged == TierTag(c, id, thr)
    && |impact'| == |impact|
    && (forall j :: 0 <= j < |impact| && j < |c.inv.ds| ==> impact'[j] == (impact[j] || TierMarks(c, id, thr, j)))
    && |impactCb'| == |impactCb|
    && (forall j :: 0 <= j < |impactCb| && j < |c.inv.ds| ==>
          impactCb'[j] == (impactCb[j] || (HasPrimaryCouplingBeam(c.inv.ds) && tagged && CbMarks(c, id, j))))
  }

  /** The end of a tier: when some primary system is 12, the `nanmax` over
      directions of the cross-story ratios is tested against the threshold and
      OR-ed into the tier tag, and the tier's coupling-beam candidates, masked
      by that whole tier tag, join the coupling-beam impact. */
  method CheckCouplingBeams(c: Case, id: int, thr: real, cbDmg: array<real>, cbQty: array<real>,
                            storiesTag: bool, impact: seq<bool>, impact': seq<bool>, cbSc: seq<bool>, impactCb: seq<bool>)
    returns (tierTag: bool, impactCb': seq<bool>)
    requires WellFormed(c)
    requires StoriesEffect(c, id, thr, storiesTag, impact, impact', cbSc, cbDmg[..], cbQty[..])
    requires |impactCb| == |c.inv.ds|
    ensures TierEffect(c, id, thr, tierTag, impact, impact', impactCb, impactCb')
  {
    tierTag := storiesTag;
    impactCb' := impactCb;
    if HasPrimaryCouplingBeam(c.inv.ds) {
      var ratios := [Divide(cbDmg[0], cbQty[0]), Divide(cbDmg[1], cbQty[1]), Divide(cbDmg[2], cbQty[2])];
      assert ratios == [CbRatio(c, id, 0), CbRatio(c, id, 1), CbRatio(c, id, 2)];
      var cbTag := Exceeds(NanMax(ratios), thr);
      tierTag := tierTag || cbTag;
      var tierMask := seq(|cbSc|, j requires 0 <= j < |cbSc| => cbSc[j] && tierTag);
      impactCb' := Or(impactCb, tierMask);
    }
  }

  /** One pass of a tier's story loop: story `s` is evaluated and its tag
      written to `story_tag[:, s]`, advancing the loop state by one story. */
  method StoryStep(c: Case, id: int, thr: real, s: int, storyTag: array<bool>,
                   cbDmg: array<real>, cbQty: array<real>, impact0: seq<bool>, impact: seq<bool>, cbSc: seq<bool>)
    returns (impact': seq<bool>, cbSc': seq<bool>)
    requires WellFormed(c) && 0 <= s < |c.dmg|
    requires cbDmg.Length == Directions && cbQty.Length == Directions && cbDmg != cbQty
    requires TierAt(c, id, thr, s, storyTag[..], impact0, impact, cbSc, cbDmg[..], cbQty[..])
    modifies storyTag, cbDmg, cbQty
    ensures TierAt(c, id, thr, s + 1, storyTag[..], impact0, impact', cbSc', cbDmg[..], cbQty[..])
    ensures storyTag[..] == old(storyTag[..])[s := StoryTag(c, id, thr, s)]
  {
    ghost var tags, dmg, qty := storyTag[..], cbDmg[..], cbQty[..];
    var tagged;
    tagged, impact', cbSc' := EvaluateStory(c, id, thr, s, cbDmg, cbQty, impact, cbSc);
    ghost var dmg', qty' := cbDmg[..], cbQty[..];
    TierAdvance(c, id, thr, s, tags, tagged, impact0, impact, impact', cbSc, cbSc', dmg, dmg', qty, qty');
    storyTag[s] := tagged;
    assert storyTag[..] == tags[s := tagged];
  }

  /** The story loop of one tier: the coupling-beam accumulators and the
      tier's coupling-beam candidates start from zero, and the stories are
      evaluated in turn; `storiesTag` is the OR of the `story_tag` buffer. */
  method EvaluateStories(c: Case, id: int, thr: real, impact: seq<bool>)
    returns (storiesTag: bool, impact': seq<bool>, cbSc: seq<bool>, cbDmg: array<real>, cbQty: array<real>)
    requires WellFormed(c)
    requires |impact| == |c.inv.ds|
    ensures StoriesEffect(c, id, thr, storiesTag, impact, impact', cbSc, cbDmg[..], cbQty[..])
  {
    var storyTag := new bool[|c.dmg|](_ => false);
    cbDmg := new real[Directions](_ => 0.0);
    cbQty := new real[Directions](_ => 0.0);
    cbSc := Zeros(|c.inv.ds|);
    impact' := impact;
    for s := 0 to |c.dmg|
      invariant TierAt(c, id, thr, s, storyTag[..], impact, impact', cbSc, cbDmg[..], cbQty[..])
    {
      impact', cbSc := StoryStep(c, id, thr, s, storyTag, cbDmg, cbQty, impact, impact', cbSc);
    }
    TierDone(c, id, thr, storyTag[..], impact, impact', cbSc, cbDmg[..], cbQty[..]);
    storiesTag := Any(storyTag[..]);
  }

  /** One safety-class tier: the story loop, then the cross-story
      coupling-beam check that closes the tier. */
  method EvaluateTier(c: Case, id: int, thr: real, impact: seq<bool>, impactCb: seq<bool>)
    returns (tierTag: bool, impact': seq<bool>, impactCb': seq<bool>)
    requires WellFormed(c)
    requires |impact| == |c.inv.ds| && |impactCb| == |c.inv.ds|
    ensures TierEffect(c, id, thr, tierTag, impact, impact', impactCb, impactCb')
  {
    var storiesTag, cbSc, cbDmg, cbQty;
    storiesTag, impact', cbSc, cbDmg, cbQty := EvaluateStories(c, id, thr, impact);
    tierTag, impactCb' := CheckCouplingBeams(c, id, thr, cbDmg, cbQty, storiesTag, impact, impact', cbSc, impactCb);
  }

  /** The state of the tier loop after the first `i` tiers. */
  ghost predicate EngineAt(c: Case, tiers: seq<Tier>, i: int, tags: seq<bool>, impact: seq<bool>, impactCb: seq<bool>)
    requires WellFormed(c)
  {
    && 0 <= i <= |tiers| && |tags| == |tiers|
    && (forall e :: 0 <= e < i ==> tags[e] == TierTags(c, tiers)[e])
    && |impact| == |c.inv.ds|
    && (forall j :: 0 <= j < |impact| ==> impact[j] == Any(TierMarksVec(c, tiers, j)[..i]))
    && |impactCb| == |c.inv.ds|
    && (forall j :: 0 <= j < |impactCb| ==>
          impactCb[j] == (HasPrimaryCouplingBeam(c.inv.ds) && Any(TierCbMarks(c, tiers, j)[..i])))
  }

  /** Evaluating tier `i` as EvaluateTier does advances the engine's loop state. */
  lemma EngineAdvance(c: Case, tiers: seq<Tier>, i: int, tags: seq<bool>, tagged: bool,
                      impact: seq<bool>, impact': seq<bool>, impactCb: seq<bool>, impactCb': seq<bool>)
    requires WellFormed(c) && 0 <= i < |tiers|
    requires EngineAt(c, tiers, i, tags, impact, impactCb)
    requires TierEffect(c, tiers[i].id, tiers[i].threshold, tagged, impact, impact', impactCb, impactCb')
    ensures EngineAt(c, tiers, i + 1, tags[i := tagged], impact', impactCb')
  {
    forall j | 0 <= j < |c.inv.ds|
      ensures Any(TierMarksVec(c, tiers, j)[..i + 1]) ==
              (Any(TierMarksVec(c, tiers, j)[..i]) || TierMarks(c, tiers[i].id, tiers[i].threshold, j))
      ensures Any(TierCbMarks(c, tiers, j)[..i + 1]) ==
              (Any(TierCbMarks(c, tiers, j)[..i]) || (tagged && CbMarks(c, tiers[i].id, j)))
    {
      AnyStep(TierMarksVec(c, tiers, j), i);
      AnyStep(TierCbMarks(c, tiers, j), i);
    }
  }

  /** After every tier the loop state gives the engine's result. */
  lemma EngineDone(c: Case, tiers: seq<Tier>, tags: seq<bool>, impact: seq<bool>, impactCb: seq<bool>)
    requires WellFormed(c)
    requires EngineAt(c, tiers, |tiers|, tags, impact, impactCb)
    ensures Any(tags) == EngineTag(c, tiers)
    ensures |impact| == |impactCb| == |c.inv.ds|
    ensures Or(impact, impactCb) == Impact(c, tiers)
  {
    assert tags == TierTags(c, tiers);
    forall j | 0 <= j < |c.inv.ds|
      ensures TierMarksVec(c, tiers, j)[..|tiers|] == TierMarksVec(c, tiers, j)
      ensures TierCbMarks(c, tiers, j)[..|tiers|] == TierCbMarks(c, tiers, j)
    {
    }
  }

  /** `simulate_tagging` for one realization: every tier is evaluated (no early
      exit), the tag is the OR of the tier tags, and the impact row is the
      per-story impact merged with the coupling-beam impact. */
  method SimulateTagging(c: Case, tiers: seq<Tier>) returns (tag: bool, impact: seq<bool>)
    requires WellFormed(c) && |tiers| > 0
    ensures tag == EngineTag(c, tiers)
    ensures impact == Impact(c, tiers)
  {
    var n := |c.inv.ds|;
    impact := Zeros(n);
    var impactCb := Zeros(n);
    var scTag := new bool[|tiers|](_ => false);
    for i := 0 to |tiers|
      invariant EngineAt(c, tiers, i, scTag[..], impact, impactCb)
    {
      ghost var tags, impactBefore, impactCbBefore := scTag[..], impact, impactCb;
      var tagged;
      tagged, impact, impactCb := EvaluateTier(c, tiers[i].id, tiers[i].threshold, impact, impactCb);
      scTag[i] := tagged;
      EngineAdvance(c, tiers, i, tags, tagged, impactBefore, impact, impactCbBefore, impactCb);
    }
    EngineDone(c, tiers, scTag[..], impact, impactCb);
    impact := Or(impact, impactCb);
    tag := Any(scTag[..]);
  }
}
