# Red-tag engine of the functional-recovery assessment

This project models `fn_red_tag` and its nested `simulate_tagging`, the step of
the ATC-138 functional-recovery assessment that decides, for every simulated
realization of building damage, whether the building is red-tagged, which
damage-state columns caused the tag, and whether it needs an inspection.

The engine walks four safety-class tiers (ids 1–4, thresholds 0.5, 0.25, 0.1
and 0). In each tier it visits every story and each of its three directions
(direction 3 is non-directional). At each visit it does three things:

- it zeroes the damage of columns whose safety class is below the tier;
- it visits every structural system taken from the damage-state table (the
  sorted distinct values of both system columns, with the smallest one deleted
  as "unassigned");
- it tags a system when its damage over its quantity is strictly above the
  tier threshold. The damage is the largest over the system's series of the
  summed filtered damage; the quantity is the largest over series of the summed
  installed quantity.

Tags are OR-ed over systems, directions, stories and tiers, with no early exit.
Coupling beams (system 12) can instead be summed across stories in three
per-direction accumulators, which are reset for every tier. Their ratio is
checked at the end of the tier, but only when some primary system is 12. An
impact trace records the damaged, tier-passing columns of every tagged system.
The wrapper opens a gate when some component has a structural system. It runs
the engine at the red-tag thresholds and again at half of them (the inspection
tag), and finally red-tags every realization that has a replacement time.

Modules:

- `Numerics` (`numerics.dfy`): the numpy primitives the engine uses.
  - IEEE division as a `Ratio` (finite, ±inf, NaN) and the strict `>` test.
  - `nanmax` and `fmax`, masked sums, and OR over a vector.
  - `np.unique` and boolean-mask deletion.
- `Tables` (`tables.dfy`): the damage-state table, the component table, the
  installed and damaged quantities of one realization, the options, the system
  and series lists, and the shape conditions the engine needs.
- `TagSpec` (`tag_spec.dfy`): reference definitions of what the engine
  computes for one realization, stated directly as ORs and sums, and the
  properties proved about them.
- `Tagging` (`tagging.dfy`): `simulate_tagging` as the source runs it.
  - Nested loops fill preallocated tag buffers (`sys_tag`, `dir_tag`,
    `story_tag`, `sc_tag`).
  - The coupling-beam accumulators are arrays updated in place.
  - The impact masks grow by `fmax`.
  - Each loop level is proved against `TagSpec`.
- `RedTag` (`red_tag.dfy`): the wrapper `fn_red_tag`, covering the gate, both
  passes over every realization, the inspection thresholds and the replacement
  override.

## Model

| member | source | states |
|---|---|---|
| Numerics.ZeroDivisorExceeds | fn_red_tag.py:94-95 | with a zero quantity, the ratio exceeds a non-negative threshold exactly when the damage is positive (x/0 = inf tags, 0/0 = NaN does not) |
| Numerics.NonPositiveNeverExceeds | fn_red_tag.py:94-95 | zero damage over a non-negative quantity never exceeds a non-negative threshold |
| Numerics.ExceedsLower | fn_red_tag.py:95 | a ratio strictly above a threshold is strictly above every lower threshold |
| Numerics.NanMaxExceeds | fn_red_tag.py:119 | the `nanmax` of ratios exceeds a threshold exactly when some ratio does (NaN entries never count) |
| Numerics.MaxIsLargest | fn_red_tag.py:92-93 | the max over series is one of the series values and no series value is larger |
| Numerics.AnySome | fn_red_tag.py:106 | the OR (`nanmax` of a boolean vector) is set exactly when some entry is |
| Numerics.AnyMonotone | fn_red_tag.py:106 | setting more entries never clears the OR |
| Numerics.AnyStep | fn_red_tag.py:106 | extending a prefix by one entry ORs that entry in |
| Numerics.AnyTrailing | fn_red_tag.py:60 | the unwritten tail of `sys_tag` (sized for the unfiltered system list) does not change its OR |
| Numerics.MaskedSumOfZeros | fn_red_tag.py:79 | a series sum over columns that are all zero is zero |
| Numerics.MaskedSumPositive | fn_red_tag.py:79 | a positive series sum over the selected columns has a selected column with positive damage |
| Numerics.InsertMembers | fn_red_tag.py:57 | inserting a value into the distinct list adds exactly that value |
| Numerics.InsertKeepsOrder | fn_red_tag.py:57 | inserting into a strictly increasing list keeps it strictly increasing |
| Numerics.UniqueSortedDistinct | fn_red_tag.py:57 | `np.unique` is strictly increasing and holds exactly the input values |
| Numerics.WithoutMembers | fn_red_tag.py:64 | `xs[xs != v]` holds exactly the values of `xs` other than `v` |
| Numerics.WithoutKeepsOrder | fn_red_tag.py:64 | `xs[xs != v]` holds exactly the entries other than `v` and keeps the order |
| Tables.SeriesInSystemMembers | fn_red_tag.py:71 | a series id is collected for a system exactly when some damage-state row of that system carries it |
| Tables.VisitedHasSmaller | fn_red_tag.py:57-58 | a visited system occurs in the system columns, and a smaller value occurs there too |
| Tables.SmallerMakesVisited | fn_red_tag.py:57-58 | a value of the system columns with a smaller value beside it is visited |
| Tables.SystemListDropsSmallest | fn_red_tag.py:57-58 | a value is a visited system exactly when it occurs in either system column and a smaller value occurs too |
| Tables.SeriesNonEmpty | fn_red_tag.py:71 | every visited system has at least one series, so its `nanmax` over series is never empty |
| Tables.ActiveSystemsShape | fn_red_tag.py:62-64 | the active list is strictly increasing, no longer than the system list, and holds exactly the visited systems except 12 when coupling beams are ignored |
| Tables.ActiveStep | fn_red_tag.py:66 | each active system is a visited system met for the first time, and system 12 enters the visited prefix exactly at its own step |
| TagSpec.ZeroDamageNeverTagged | fn_red_tag.py:79-95 | a system none of whose tier-passing columns is damaged is never tagged, whatever its quantities (non-negative threshold): its ratio is 0/q, zero or NaN |
| TagSpec.SeriesQtyNonNegative | fn_red_tag.py:82 | a series of non-negative installed quantities has a non-negative total |
| TagSpec.MaskedSumNonNegative | fn_red_tag.py:79-82 | a masked sum of non-negative entries is non-negative |
| TagSpec.SystemQtyNonNegative | fn_red_tag.py:82-93 | a system of non-negative installed quantities has a non-negative reference quantity |
| TagSpec.ZeroQuantityTagRule | fn_red_tag.py:92-95 | a system with zero quantity is tagged exactly when its damage is positive |
| TagSpec.DirTagSome | fn_red_tag.py:105-106 | `dir_tag` is set exactly when some active system is tagged per story there |
| TagSpec.DirMarksSome | fn_red_tag.py:102 | a column is marked at a story and direction exactly when a tagged active system there holds it as a damaged, tier-passing column |
| TagSpec.StoryTagSome | fn_red_tag.py:109-110 | `story_tag` is set exactly when some direction of the story is tagged |
| TagSpec.StoryMarksSome | fn_red_tag.py:52-102 | a column is marked at a story exactly when it is marked at one of its three directions |
| TagSpec.StoriesTagSome | fn_red_tag.py:113-114 | the tier's per-story roll-up is set exactly when some story is tagged |
| TagSpec.TierMarksSome | fn_red_tag.py:48-102 | a column is marked by a tier's per-story tests exactly when it is marked at some story |
| TagSpec.CbStoryMarksSome | fn_red_tag.py:90 | a column is a coupling-beam candidate at a story exactly when it is a damaged, tier-passing system-12 column at some direction |
| TagSpec.CbMarksSome | fn_red_tag.py:85-90 | a column is a tier's coupling-beam candidate exactly when system 12 is on the cross-story path and the column is a candidate at some story |
| TagSpec.EngineTagSome | fn_red_tag.py:128-129 | the engine's tag is set exactly when some tier's tag is set |
| TagSpec.DirectImpactSome | fn_red_tag.py:102 | a column is in the per-story impact exactly when some tier's per-story tests mark it |
| TagSpec.CbImpactSome | fn_red_tag.py:117-124 | a column is in the coupling-beam impact exactly when some primary system is 12 and some tier whose whole tag is set has it as a candidate |
| TagSpec.CbTagByDirection | fn_red_tag.py:117-119 | the coupling-beam check tags exactly when some primary system is 12 and some direction's cross-story ratio exceeds the threshold |
| TagSpec.CbAccumulatorsStayZero | fn_red_tag.py:44-45 | off the cross-story path the accumulators, zeroed for the tier, stay zero over all stories |
| TagSpec.CbInactiveNeverTags | fn_red_tag.py:117-119 | off the cross-story path every direction's ratio is 0/0, so the check never tags and marks nothing |
| TagSpec.IgnoredCouplingBeam | fn_red_tag.py:62-64 | with `ignore_coupling_beam_for_red_tag`, system 12 is never tested per story and the cross-story check never tags and marks nothing |
| TagSpec.FilterAgreesAt | fn_red_tag.py:49-53 | at a story and direction, damage of columns below the tier changes no direction tag, mark or coupling-beam sum |
| TagSpec.FilterAgreesAtStory | fn_red_tag.py:48-53 | at a story, damage of columns below the tier changes no story tag, mark or coupling-beam contribution |
| TagSpec.TierFilter | fn_red_tag.py:48-102 | changing the damage of columns below the tier's safety class changes neither the tier's tag nor its impact marks nor its coupling-beam candidates |
| TagSpec.CbFilterAgree | fn_red_tag.py:88-89 | accumulators fed equal per-story contributions are equal |
| TagSpec.LowerThresholdAt | fn_red_tag.py:95 | at a story and direction, a lower threshold keeps the direction tag and every mark |
| TagSpec.LowerThresholdAtStory | fn_red_tag.py:95 | at a story, a lower threshold keeps the story tag and every mark |
| TagSpec.LowerThresholdKeepsTags | fn_red_tag.py:92-119 | a lower threshold keeps a tier's tag (per-story and coupling-beam) and every per-story impact mark |
| TagSpec.ImpactSound | fn_red_tag.py:90-126 | a column in the impact row implies the engine's tag; the column passes some tier's filter, is damaged at some story and direction, and belongs to a visited system that is either tagged per story there or part of a tier whose whole tag is set |
| TagSpec.PositiveDamageMarks | fn_red_tag.py:79-102 | a system with positive damage at a story and direction has a damaged, tier-passing column there |
| TagSpec.TaggedSystemMarks | fn_red_tag.py:94-102 | with a non-negative threshold and installed quantities, a system tagged per story marks some column |
| TagSpec.CbQtyNonNegative | fn_red_tag.py:89 | the coupling-beam quantity accumulator of non-negative installed quantities is non-negative |
| TagSpec.CbDamagePositive | fn_red_tag.py:88 | a positive coupling-beam damage accumulator has a story that added positive damage |
| TagSpec.StoriesTagMarks | fn_red_tag.py:48-114 | with a non-negative threshold and installed quantities, a tier tagged by its per-story tests marks some column |
| TagSpec.CbTagMarks | fn_red_tag.py:85-119 | with a non-negative threshold and installed quantities, a coupling-beam tag has some candidate column |
| TagSpec.TagMarksSomeColumn | fn_red_tag.py:90-129 | with non-negative thresholds and installed quantities, a tagged realization has a column in its impact row (the converse of ImpactSound) |
| Tagging.SeriesTotals | fn_red_tag.py:72-82 | `ser_dmg[i]` and `ser_qty[i]` are the filtered damage and the installed quantity of series `i` within the system |
| Tagging.SystemTotals | fn_red_tag.py:92-93 | `sys_dmg` and `sys_qty` are the system's reference damage and quantity (max over series, taken independently) |
| Tagging.EvaluateSystem | fn_red_tag.py:84-102 | a visited system either feeds the coupling-beam accumulators and candidates of its direction (system 12 over height, no per-story tag), or is tagged iff its ratio exceeds the threshold and, when tagged, marks its damaged, tier-passing columns; the other directions' accumulators are unchanged |
| Tagging.EvaluateDirection | fn_red_tag.py:53-106 | `dir_tag` is the reference direction tag; the impact grows by the direction's marks; system 12 adds its story damage and quantity to this direction's accumulators once |
| Tagging.EvaluateStory | fn_red_tag.py:48-110 | `story_tag` is the reference story tag; the impact grows by the story's marks; every direction's accumulator grows by the story's coupling-beam contribution |
| Tagging.StoryStep | fn_red_tag.py:48-110 | one pass of the story loop: `story_tag[:, s]` is written with the story's tag, every other entry of `story_tag` is kept, and the loop state (impact, candidates, accumulators) advances by one story |
| Tagging.EvaluateStories | fn_red_tag.py:41-114 | with the accumulators and candidates reset for the tier, the story loop yields the OR of the story tags, the tier's per-story impact marks, its coupling-beam candidates, and accumulators holding system 12's damage and quantity summed over all stories |
| Tagging.CheckCouplingBeams | fn_red_tag.py:116-124 | the tier tag is the story roll-up OR the coupling-beam check, which runs only when some primary system is 12; the candidates masked by the whole tier tag join the coupling-beam impact |
| Tagging.EvaluateTier | fn_red_tag.py:40-124 | `sc_tag[:, sc]` is the reference tier tag; the impact grows by the tier's per-story marks and the coupling-beam impact by the tier's candidates when it is tagged |
| Tagging.SimulateTagging | fn_red_tag.py:30-131 | every tier is evaluated; the tag is the reference OR over tiers and the impact row is the reference per-story impact merged with the coupling-beam impact |
| RedTag.GateSome | fn_red_tag.py:137-140 | the gate opens exactly when some component has a non-zero structural system |
| RedTag.HalvingKeepsRedTag | fn_red_tag.py:145-151 | with non-negative thresholds, a realization tagged at the thresholds is tagged at half of them |
| RedTag.RealizationConsistent | fn_red_tag.py:143-151 | before the override, the red tag implies the inspection tag; a marked impact column implies the red tag, and with non-negative installed quantities the red tag implies a marked impact column |
| RedTag.ApplyReplacementOverride | fn_red_tag.py:162-164 | every realization with a replacement time is red-tagged and the others keep their tag |
| RedTag.TagRealization | fn_red_tag.py:143-151 | one realization gets the engine's tag and impact row at the red-tag thresholds and the engine's tag at the inspection thresholds |
| RedTag.TagRealizations | fn_red_tag.py:143-151 | every realization gets its red tag, inspection tag and impact row from the two passes |
| RedTag.FnRedTag | fn_red_tag.py:137-166 | with the gate open, the red tag is the engine's tag at the red-tag thresholds or a replacement, the inspection tag is the engine's tag at half the thresholds, and the impact row is the engine's; with the gate closed, everything is zero except the override; the override touches only the red tag; the two outputs are distinct fresh arrays; without a replacement, red tag implies inspection tag; a marked impact column implies the red tag; without a replacement and with non-negative installed quantities, the red tag holds exactly when some impact column is marked |

## Left out

- `functionality/fn_calculate_reoccupancy.py` is not part of this model. It orchestrates functions whose source is not available.
- Vectorisation over realizations is not modelled. The numpy code evaluates all realizations at once as matrix columns. The model runs the engine once per realization, which gives the same result because realizations never interact.
- Array shapes are not modelled. The number of realizations is the length of the damage input, and the impact row is as wide as the damage-state table. The source takes both from the shape of `tenant_units[0].qnt_damaged`, which is assumed to agree.
- Outputs are booleans rather than numpy 0/1 floats.
- The numpy exceptions on empty reductions are preconditions (`WellFormed`), not modelled error paths: no stories, or an empty system list after the deletion at line 58. A visited system never has an empty series list (proved by `SeriesNonEmpty`). `SimulateTagging` requires at least one tier for the same reason.
- NaN inputs are not modelled: damaged or installed quantities and system ids are numbers. NaN arises only from 0/0 and is modelled by `Ratio`.
- Floating-point rounding is not modelled. Quantities and thresholds are exact `real`s, and the halved thresholds are exact.
- A replacement time is `Option<real>`, with `None` standing for NaN. Only whether it is present matters.
- The `structural_system` and `structural_system_alt` columns are JSON lists, so the `+` at line 57 concatenates them. Element-wise addition of numpy arrays is not modelled.
- The component table's `structural_system` truthiness is modelled as "non-zero".
- The caller's `calculate_red_tag` is accepted and ignored, as in the source, which overwrites it.
- TagSpec.TagMarksSomeColumn: the direction "tag implies a marked impact column" is proved only for non-negative installed quantities and thresholds (both hold for the wrapper's tiers and for physical inventories). With a negative installed quantity, a system whose summed damage is also negative has a positive ratio and is tagged although none of its columns is damaged, so the impact row can stay empty. The direction "a marked impact column implies the tag" holds for all inputs.
- The run-time warnings of `nanmax` over all-NaN rows are not modelled (the result, NaN, is).
