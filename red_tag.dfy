/** `fn_red_tag`: the classification gate, the red-tag and inspection passes of
    the engine over every realization, and the replacement override. */
module RedTag {
  import opened Numerics
  import opened Tables
  import opened TagSpec
  import opened Tagging

  /** A simulated replacement time: `None` stands for NaN (no replacement). */
  datatype Option<T> = None | Some(value: T)

  /** `sc_ids` paired with `sc_thresholds`. */
  const RedTagTiers: seq<Tier> := [Tier(1, 0.5), Tier(2, 0.25), Tier(3, 0.1), Tier(4, 0.0)]

  /** The same tiers at half their thresholds (`0.5 * sc_thresholds`). */
  function Halved(tiers: seq<Tier>): seq<Tier>
  {
    seq(|tiers|, i requires 0 <= i < |tiers| => Tier(tiers[i].id, tiers[i].threshold / 2.0))
  }

  /** The tiers of the inspection pass. */
  const InspectionTiers: seq<Tier> := Halved(RedTagTiers)

  /** The gate: some entry of the component table's `structural_system`
      column is truthy (non-zero). */
  predicate ComputesRedTag(comps: seq<CompRow>)
  {
    Any(seq(|comps|, k requires 0 <= k < |comps| => comps[k].system != 0))
  }

  /** The gate opens exactly when some component has a structural system. */
  lemma GateSome(comps: seq<CompRow>)
    ensures ComputesRedTag(comps) <==> exists k :: 0 <= k < |comps| && comps[k].system != 0
  {
    var v := seq(|comps|, k requires 0 <= k < |comps| => comps[k].system != 0);
    AnySome(v);
    if exists k :: 0 <= k < |comps| && comps[k].system != 0 {
      var k :| 0 <= k < |comps| && comps[k].system != 0;
      assert v[k];
    }
  }

  /** Halving non-negative thresholds never loses a tag: any tier tagged at its
      threshold is tagged at half of it, so the halved pass tags too. */
  lemma HalvingKeepsRedTag(c: Case, tiers: seq<Tier>)
    requires WellFormed(c)
    requires forall i :: 0 <= i < |tiers| ==> tiers[i].threshold >= 0.0
    ensures EngineTag(c, tiers) ==> EngineTag(c, Halved(tiers))
  {
    EngineTagSome(c, tiers);
    EngineTagSome(c, Halved(tiers));
    if EngineTag(c, tiers) {
      var i :| 0 <= i < |tiers| && TierTag(c, tiers[i].id, tiers[i].threshold);
      LowerThresholdKeepsTags(c, tiers[i].id, tiers[i].threshold, tiers[i].threshold / 2.0);
      var h := Halved(tiers);
      assert h[i] == Tier(tiers[i].id, tiers[i].threshold / 2.0);
      assert TierTag(c, h[i].id, h[i].threshold);
    }
  }

  /** Before the override, a red-tagged realization is also flagged for
      inspection; a column in a realization's impact row implies that
      realization's red tag; and, when no installed quantity is negative, a
      red-tagged realization has some column in its impact row. */
  lemma RealizationConsistent(c: Case)
    requires WellFormed(c)
    ensures EngineTag(c, RedTagTiers) ==> EngineTag(c, InspectionTiers)
    ensures forall j :: 0 <= j < |c.inv.ds| && Impact(c, RedTagTiers)[j] ==> EngineTag(c, RedTagTiers)
    ensures NonNegativeQuantities(c.inv) && EngineTag(c, RedTagTiers) ==>
              exists j :: 0 <= j < |c.inv.ds| && Impact(c, RedTagTiers)[j]
  {
    HalvingKeepsRedTag(c, RedTagTiers);
    if NonNegativeQuantities(c.inv) && EngineTag(c, RedTagTiers) {
      TagMarksSomeColumn(c, RedTagTiers);
    }
    forall j | 0 <= j < |c.inv.ds| && Impact(c, RedTagTiers)[j]
      ensures EngineTag(c, RedTagTiers)
    {
      ImpactSound(c, RedTagTiers, j);
    }
  }

  /** `red_tag[replace_case] = 1`: every realization with a replacement time
      is red-tagged; the others keep their tag. */
  method ApplyReplacementOverride(redTag: array<bool>, replacementTime: seq<Option<real>>)
    requires redTag.Length == |replacementTime|
    modifies redTag
    ensures forall r :: 0 <= r < redTag.Length ==> redTag[r] == (old(redTag[r]) || replacementTime[r].Some?)
  {
    for r := 0 to redTag.Length
      invariant forall q :: 0 <= q < redTag.Length ==>
                  redTag[q] == (old(redTag[q]) || (q < r && replacementTime[q].Some?))
    {
      if replacementTime[r].Some? {
        redTag[r] := true;
      }
    }
  }

  /** What the gate-open branch produces for one realization: the red tag and
      impact row of the red-tag pass and the tag of the inspection pass. */
  ghost predicate Outcome(c: Case, tag: bool, inspection: bool, row: seq<bool>)
    requires WellFormed(c)
  {
    && tag == EngineTag(c, RedTagTiers)
    && inspection == EngineTag(c, InspectionTiers)
    && row == Impact(c, RedTagTiers)
    && (tag ==> inspection)
    && (forall j :: 0 <= j < |row| && row[j] ==> tag)
    && (NonNegativeQuantities(c.inv) && tag ==> exists j :: 0 <= j < |row| && row[j])
  }

  /** Both passes of the engine on one realization. */
  method TagRealization(c: Case) returns (tag: bool, inspection: bool, row: seq<bool>)
    requires WellFormed(c)
    ensures Outcome(c, tag, inspection, row)
  {
    RealizationConsistent(c);
    tag, row := SimulateTagging(c, RedTagTiers);
    var inspectionRow;
    inspection, inspectionRow := SimulateTagging(c, InspectionTiers);
  }

  /** The state of the realization loop after the first `n` realizations. */
  ghost predicate OutcomesUpTo(inv: Inventory, dmg: seq<seq<seq<seq<real>>>>, opts: Options, n: int,
                               tags: seq<bool>, inspections: seq<bool>, rows: seq<seq<bool>>)
    requires forall r :: 0 <= r < |dmg| ==> WellFormed(Case(inv, dmg[r], opts))
  {
    && 0 <= n <= |dmg| && |tags| == |dmg| && |inspections| == |dmg| && |rows| == n
    && forall q :: 0 <= q < n ==> Outcome(Case(inv, dmg[q], opts), tags[q], inspections[q], rows[q])
  }

  /** Tagging realization `n` as TagRealization does advances the loop state. */
  lemma OutcomesAdvance(inv: Inventory, dmg: seq<seq<seq<seq<real>>>>, opts: Options, n: int,
                        tags: seq<bool>, inspections: seq<bool>, rows: seq<seq<bool>>,
                        tag: bool, inspection: bool, row: seq<bool>)
    requires forall r :: 0 <= r < |dmg| ==> WellFormed(Case(inv, dmg[r], opts))
    requires 0 <= n < |dmg| && OutcomesUpTo(inv, dmg, opts, n, tags, inspections, rows)
    requires Outcome(Case(inv, dmg[n], opts), tag, inspection, row)
    ensures OutcomesUpTo(inv, dmg, opts, n + 1, tags[n := tag], inspections[n := inspection], rows + [row])
  {
  }

  /** The gate-open branch: both passes of the engine on every realization. */
  method TagRealizations(inv: Inventory, dmg: seq<seq<seq<seq<real>>>>, opts: Options)
    returns (redTag: array<bool>, impact: seq<seq<bool>>, inspectionTag: array<bool>)
    requires forall r :: 0 <= r < |dmg| ==> WellFormed(Case(inv, dmg[r], opts))
    ensures fresh(redTag) && fresh(inspectionTag) && redTag != inspectionTag
    ensures redTag.Length == |dmg| && inspectionTag.Length == |dmg|
    ensures OutcomesUpTo(inv, dmg, opts, |dmg|, redTag[..], inspectionTag[..], impact)
  {
    redTag := new bool[|dmg|](_ => false);
    inspectionTag := new bool[|dmg|](_ => false);
    impact := [];
    for r := 0 to |dmg|
      invariant OutcomesUpTo(inv, dmg, opts, r, redTag[..], inspectionTag[..], impact)
    {
      ghost var tags, inspections, rows := redTag[..], inspectionTag[..], impact;
      var tag, inspection, row := TagRealization(Case(inv, dmg[r], opts));
      redTag[r], inspectionTag[r] := tag, inspection;
      impact := impact + [row];
      OutcomesAdvance(inv, dmg, opts, r, tags, inspections, rows, tag, inspection, row);
    }
  }

  /** `fn_red_tag` over the realizations `dmg[r]` of one building. The
      caller's `calculateRedTag` is overwritten by the gate. With the gate
      open, each realization gets the engine's red tag and impact row at the
      red-tag thresholds and its inspection tag at half of them; with the gate
      closed, everything is zero. Then the replacement override sets `red_tag`
      (only). */
  method FnRedTag(calculateRedTag: bool, inv: Inventory, dmg: seq<seq<seq<seq<real>>>>, opts: Options,
                  replacementTime: seq<Option<real>>)
    returns (redTag: array<bool>, impact: seq<seq<bool>>, inspectionTag: array<bool>)
    requires |replacementTime| == |dmg|
    requires ComputesRedTag(inv.comps) ==> forall r :: 0 <= r < |dmg| ==> WellFormed(Case(inv, dmg[r], opts))
    ensures fresh(redTag) && fresh(inspectionTag) && redTag != inspectionTag
    ensures redTag.Length == |dmg| && inspectionTag.Length == |dmg| && |impact| == |dmg|
    ensures forall r :: 0 <= r < |dmg| ==>
              redTag[r] == ((ComputesRedTag(inv.comps) && EngineTag(Case(inv, dmg[r], opts), RedTagTiers)) ||
                            replacementTime[r].Some?)
    ensures forall r :: 0 <= r < |dmg| ==>
              inspectionTag[r] == (ComputesRedTag(inv.comps) && EngineTag(Case(inv, dmg[r], opts), InspectionTiers))
    ensures forall r :: 0 <= r < |dmg| ==>
              impact[r] == (if ComputesRedTag(inv.comps) then Impact(Case(inv, dmg[r], opts), RedTagTiers) else Zeros(|inv.ds|))
    ensures forall r :: 0 <= r < |dmg| && replacementTime[r].None? && redTag[r] ==> inspectionTag[r]
    ensures forall r, j :: 0 <= r < |dmg| && 0 <= j < |impact[r]| && impact[r][j] ==> redTag[r]
    ensures NonNegativeQuantities(inv) ==>
              forall r :: 0 <= r < |dmg| && replacementTime[r].None? ==>
                (redTag[r] <==> exists j :: 0 <= j < |impact[r]| && impact[r][j])
  {
    if ComputesRedTag(inv.comps) {
      redTag, impact, inspectionTag := TagRealizations(inv, dmg, opts);
      assert forall r :: 0 <= r < |dmg| ==> redTag[r] == redTag[..][r] && inspectionTag[r] == inspectionTag[..][r];
    } else {
      redTag := new bool[|dmg|](_ => false);
      inspectionTag := new bool[|dmg|](_ => false);
      impact := seq(|dmg|, _ => Zeros(|inv.ds|));
    }
    ApplyReplacementOverride(redTag, replacementTime);
  }
}
