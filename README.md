# qsdsan core, modelled in Dafny

This project models the core of qsdsan, a Python library for quantitative
sustainable design of sanitation and resource recovery systems. The model
covers five parts of the library:

- **The component registry.** `Components` is an insertion-ordered
  registry of `Component` records keyed by ID. The model covers building,
  appending, extending, lookup and copying. It also covers compilation into
  per-component 0/1 classification vectors, including the
  inorganic-but-degradable check and the rollback on failure, the ID/mask
  conversions, and the category sets of a compiled registry.
- **The component record.** This is the validated attribute record of one
  component: the `i_*` content fields and `f_*` fractions with their
  defaults and checks, the enumerated classification attributes, the
  `measured_as` basis change, and the list of missing properties.
- **Sanitation streams.** Streams are modelled as per-component mass maps.
  The model covers degassing and filtering, which move mass between two
  streams, the impact-item rules of `copy_flow`, `flow_proxy` and `proxy`,
  the default-ID rule of `from_stream`, and the filtering of missing
  streams in `mix_from`.
- **Unit operations.** The model gives the mass balances and sizing of the
  electrochemical cell, the anaerobic baffled reactor (both the current and
  the legacy class), anaerobic digestion, the sludge digester and the
  septic tank.
- **Life-cycle assessment.** The model covers the lifetime and
  uptime-ratio settings of an `LCA` and the per-indicator accumulation of
  construction, transportation, stream, other and total impacts.

It also models the two registry helpers `register_with_prefix` and
`copy_attr`.

Quantities are `real`. A per-component mass vector is a `map<string,
real>`, read through `Common.At`, so that an absent key reads as zero.
Python exceptions become `Result`/`Outcome` values that carry an `Error`.
Dynamically typed Python arguments become `PyValue`. Objects whose fields
the source updates in place (the registry, a component, a stream, each
unit, the LCA, the ID registry) are classes. Their methods state the whole
new state, directly or, for the setters `__new__` calls, through the
specification functions over slot maps (`MassSet` to `INODSet`, `Run`,
`Constructed`) whose results they reach.

## Model

| member | source | states |
|---|---|---|
| Common.Ceil | qsdsan/sanunits/_anaerobic_reactors.py:186-188 | the integer stored by a ceil setter is the least integer not below the value given |
| Common.FloatOf | qsdsan/_lca.py:107-109 | `float(v)` succeeds exactly on numbers and booleans and returns their value; `None` raises TypeError and a string raises ValueError |
| Registry.Table.Put | qsdsan/_components.py:83 | storing a component under its ID keeps an existing key in place, appends a new key, and keeps the registry invariant (distinct keys, each value stored under its own ID) |
| Registry.Table.Values | qsdsan/_components.py:126-130 | the registry's components in insertion order, one per key, each carrying its key as ID |
| Registry.Table.Update | qsdsan/_components.py:148-150 | merging two valid registries yields a valid registry |
| Registry.Table.Lookup | qsdsan/_components.py:101-110 | a string key returns the component stored under it exactly when present; otherwise UndefinedComponent for that ID |
| Registry.Table.LookupAll | qsdsan/_components.py:101-110 | a list key returns the components in key order exactly when every key is present; otherwise UndefinedComponent naming a missing key |
| Registry.ContainsComponentMeaning | qsdsan/_components.py:113-117 | in a valid registry a component is contained exactly when it is stored under its own ID |
| Registry.PutAll | qsdsan/_components.py:159-164 | re-storing a sequence of components keeps the invariant and extends the key order |
| Registry.AddEntry | qsdsan/_components.py:133-145 | `append`: a non-component raises TypeError, an ID already present raises ValueError, otherwise exactly that ID is added last and every existing entry is unchanged |
| Registry.Extended | qsdsan/_components.py:148-153 | appending entries one by one keeps the registry invariant |
| Registry.Ids | qsdsan/_components.py:69-90 | the IDs of a sequence of components, in order |
| Registry.ExtendedKeeps | qsdsan/_components.py:151-153 | extending by an iterable never removes or changes an entry already present, even when it fails part-way |
| Registry.ExtendedPassIff | qsdsan/_components.py:151-153 | extending by an iterable succeeds exactly when every element is a component with an ID that is new and not repeated |
| Registry.ExtendedContents | qsdsan/_components.py:151-153 | on success the new key order is the old one followed by the new IDs, and each new ID maps to its component |
| Registry.BuildIff | qsdsan/_components.py:69-90 | building a registry succeeds exactly when every element is a component and no ID repeats, with the keys in input order |
| Registry.AsWrittenAcceptsDuplicates | qsdsan/_components.py:73-79 | the duplicate check as written never fires: two components with one ID build a one-entry registry, while the intended check raises ValueError |
| Registry.BuildTable | qsdsan/_components.py:69-90 | the loop that builds a registry computes `Build`, which applies the corrected duplicate check (a repeated ID raises ValueError, see Findings), and yields a valid registry |
| Registry.RebuildFromValues | qsdsan/_components.py:159-164 | the compile rollback, which re-stores the tuple of components, restores exactly the pre-compile registry |
| Registry.PrefixStep | qsdsan/_components.py:159-164 | re-storing the k-th component of a valid registry extends its first k entries to the first k+1 |
| Registry.UpdateMerges | qsdsan/_components.py:148-150 | extending by another registry: its entries win on a shared ID, other entries are kept, and new keys follow the old ones |
| Registry.PutAllVals | qsdsan/_components.py:159-164 | the values after re-storing are the pointwise map update |
| Registry.PutMapDistinct | qsdsan/_components.py:159-164 | with distinct IDs, each stored component is found under its ID and every other key is unchanged |
| Registry.FlagsOf | qsdsan/_components.py:600-607 | all classification vectors have one 0/1 entry per component, `inorg = 1 - org`, and readily degradable implies degradable |
| Registry.ParticleFlagsPartition | qsdsan/_components.py:600-603 | `g`, `s`, `c`, `x` are 1 exactly for the component's particle size |
| Registry.Mul | qsdsan/_components.py:610 | elementwise product of two vectors of one length |
| Registry.Add | qsdsan/_components.py:714-731 | elementwise sum of two vectors of one length |
| Registry.Sub | qsdsan/_components.py:714-731 | elementwise difference of two vectors of one length |
| Registry.SumOfBits | qsdsan/_components.py:610-611 | the sum of a 0/1 vector is positive exactly when some entry is 1 |
| Registry.MissesKeyIff | qsdsan/_components.py:591-595 | a component fails the missing-properties check exactly when one of its classification attributes is unset |
| Registry.CompileOutcomeIff | qsdsan/_components.py:586-615 | compilation passes exactly when the chemical checks pass, no component misses a key property and none is inorganic but degradable; otherwise the first failing check's error |
| Registry.Index | qsdsan/_components.py:630-634 | the position of a known ID, or UndefinedComponent for an unknown one |
| Registry.Indices | qsdsan/_components.py:637-643 | the positions of the IDs in query order when all are known; otherwise UndefinedComponent naming an unknown one |
| Registry.Select | qsdsan/_components.py:670 | the IDs whose mask entry is nonzero, never more than the registry holds |
| Registry.SelectIff | qsdsan/_components.py:670 | an ID is selected exactly when it is in the registry at a position whose mask entry is nonzero |
| Registry.IDsFromArray | qsdsan/_components.py:653-670 | a mask of the wrong length raises IndexError; otherwise the selected IDs |
| Registry.MaskOf | qsdsan/_components.py:673-696 | the mask of a query has one entry per registered component |
| Registry.ArrayFromIDs | qsdsan/_components.py:673-696 | the loop that fills the zero mask succeeds exactly when all IDs are known, and gives 1 exactly at their positions; otherwise UndefinedComponent |
| Registry.MaskRoundTrip | qsdsan/_components.py:653-696 | the IDs read back from the mask of a query are the queried IDs that are registered, in registry order |
| Registry.CategoryMask | qsdsan/_components.py:698-731 | a category vector has one entry per component |
| Registry.CategoryMaskAt | qsdsan/_components.py:698-731 | a category vector is nonzero exactly for the components in that category (substrates, biomass, inert biomass, inorganic solids) |
| Registry.Components.constructor | qsdsan/_components.py:69-90 | a new uncompiled registry over a valid table |
| Registry.Components.New | qsdsan/_components.py:69-90 | construction succeeds exactly when `Build` does (with the corrected duplicate check, see Findings), with `Build`'s error otherwise, and holds the built table |
| Registry.Components.Copy | qsdsan/_components.py:126-130 | a fresh uncompiled registry with the same entries |
| Registry.Components.Append | qsdsan/_components.py:133-145 | the registry after `append` is `AddEntry` of the old one; on failure it is unchanged |
| Registry.Components.ExtendFrom | qsdsan/_components.py:148-150 | extending by another registry is the dictionary update |
| Registry.Components.ExtendEntries | qsdsan/_components.py:151-153 | extending by an iterable gives `Extended`, keeping the entries added before a failure |
| Registry.Components.Compile | qsdsan/_components.py:156-164 | compiling a compiled registry is a no-op; otherwise the outcome of the checks, the flags and ID array on success, and an uncompiled registry with the same entries on failure |
| Registry.Components.CompileBody | qsdsan/_components.py:586-615 | the body of `_compile` returns `CompileOutcome` and leaves a valid compiled registry on success |
| Registry.Components.CategoryIDs | qsdsan/_components.py:698-731 | an ID is in a category set exactly when its component is in that category |
| ComponentModel.CheckReturnPropertyAsWritten | qsdsan/_component.py:87-98 | as written, an `f_` name with a numeric value returns the number, in range or not |
| ComponentModel.CheckNumber | qsdsan/_component.py:87-94 | a number returns its float, a falsy non-number returns None, a truthy non-number raises TypeError; with the intended range check, a fraction outside [0, 1] raises ValueError |
| ComponentModel.CheckReturnProperty | qsdsan/_component.py:87-98 | numeric names go through the number check, enumerated names through the allowed-values check, other names give None |
| ComponentModel.PropNamePrefix | qsdsan/_component.py:87-94 | every modelled property has an `i_`/`f_` name, and the `f_` ones are exactly the fractions |
| ComponentModel.FractionRangeCheckIsDead | qsdsan/_component.py:89-94 | the range check follows a return: as written `f_BOD5_COD = 1.5` is accepted, while the intended check raises ValueError |
| ComponentModel.ContentFromFormula | qsdsan/_component.py:167-179 | with a formula, an element content is 0 for an absent atom and positive for a present one |
| ComponentModel.ChargeFromFormula | qsdsan/_component.py:267-275 | the charge from a formula is 0 without a formula and otherwise has the sign of the formula's charge |
| ComponentModel.DefaultINODByFormula | qsdsan/_component.py:434-442 | the default `i_NOD` of an ammonia formula is four times that of a nitrite formula, 0 for an undegradable other formula, and non-negative for a degradable one |
| ComponentModel.MissingMeansNoneOrEmpty | qsdsan/_component.py:491-501 | a value counts as missing exactly when it is None or the empty string, never a number or boolean |
| ComponentModel.MissingNamesIff | qsdsan/_component.py:491-501 | a name is listed exactly when its value is missing |
| ComponentModel.MissingNamesAppend | qsdsan/_component.py:491-501 | the missing names of two property lists are those of each, in order |
| ComponentModel.MissingNamesOfNumbers | qsdsan/_component.py:491-501 | numeric properties are never listed |
| ComponentModel.GetMissingProperties | qsdsan/_component.py:491-501 | the accumulating loop lists exactly the missing properties, in order |
| ComponentModel.ClassificationOf | qsdsan/_component.py:372-400 | the three classification attributes of a record |
| ComponentModel.Divided | qsdsan/_component.py:350-370 | dividing the `i_*` fields keeps the set of fields |
| ComponentModel.DividedAt | qsdsan/_component.py:350-370 | each set `i_*` field is divided by the denominator and every other field is unchanged |
| ComponentModel.DividedOutside | qsdsan/_component.py:350-370 | fields outside the divided list are unchanged |
| ComponentModel.IPropsFirstOccurrence | qsdsan/_component.py:350-370 | the converted fields are listed once each |
| ComponentModel.BasisChangeRatios | qsdsan/_component.py:350-370 | a basis change keeps the ratio between any two `i_*` fields |
| ComponentModel.QuotientOfScaled | qsdsan/_component.py:350-370 | dividing two values by one nonzero denominator keeps their ratio |
| ComponentModel.Denominator | qsdsan/_component.py:350-366 | the denominator is `i_mass` for no basis, `i_COD` for COD, the element slot for an element with one, and the formula's mass fraction times `i_mass` for another atom of the formula; each is then checked as `CheckedDenominator` states, so it is never zero on success; a basis that is none of these raises AttributeError |
| ComponentModel.CheckedDenominator | qsdsan/_component.py:364-369 | a zero denominator raises ValueError, an unset one TypeError at the division, and any other is accepted as is |
| ComponentModel.Component.constructor | qsdsan/_component.py:127-140 | a component whose slots are all unset (`Unset`) and whose classification is unset, before `New` sets them |
| ComponentModel.UnsetCoversEverySlot | qsdsan/_component.py:127-132 | before `__new__` sets them, every numeric slot exists and is None (a case split over the slots, a helper fact) |
| ComponentModel.Component.New | qsdsan/_component.py:127-165 | `__new__` on a new component: it fails exactly when `Constructed` does, with the same error, and on success holds `Constructed`'s slots, the given identity, basis and classification, every element content as `ElementsAccepted` and the two checked fractions as `FractionsAccepted` describe |
| ComponentModel.Component.Populate | qsdsan/_component.py:146-164 | the body of `__new__` after the basis is stored: the outcome and new slots are those of `ConstructedFrom` the slots it starts from, and on success the classification holds the given values |
| ComponentModel.Component.SetMass | qsdsan/_component.py:146 | the `i_mass` setter as `__new__` calls it: the outcome and new slots are those of `MassSet`, and no other slot changes |
| ComponentModel.Component.SetElement | qsdsan/_component.py:148-153 | one element setter: the outcome and new slots are those of `ElementSet`, no other slot changes, and on success the slot holds what `ElementAccepted` describes |
| ComponentModel.Component.SetFractions | qsdsan/_component.py:155-157 | the `f_BOD5_COD`, `f_uBOD_COD` and `f_Vmass_Totmass` setters in order: the outcome and new slots are those of `Run` over `FractionSetters`; only those slots change, and on success the two checked fractions are the number check's values |
| ComponentModel.MassSet | qsdsan/_component.py:230-256 | the `i_mass` setter on a slot map: only `i_mass` changes; with a formula a truthy value raises AttributeError; a component measured as itself passes exactly when the value is falsy or, without a formula, 1, and then stores 1 |
| ComponentModel.ElementSet | qsdsan/_component.py:167-228 | one element setter on a slot map: only that slot changes; with a formula it passes exactly when the value is falsy, without one exactly when the number check accepts it |
| ComponentModel.ChargeSet | qsdsan/_component.py:259-275 | the `i_charge` setter on a slot map: it passes exactly when the number check does, changes only `i_charge` and leaves it set |
| ComponentModel.FractionSet | qsdsan/_component.py:277-311 | a fraction setter on a slot map: it passes exactly when the number check does, and then stores the checked value in that slot only |
| ComponentModel.FuBODSet | qsdsan/_component.py:288-300 | the `f_uBOD_COD` setter on a slot map: on success only that slot changes, it is set, and it is not below `f_BOD5_COD` |
| ComponentModel.ICODSet | qsdsan/_component.py:403-425 | the `i_COD` setter on a slot map: only `i_COD` changes; a truthy value passes exactly when the number check does and is stored; otherwise it fails exactly for an organic or listed-formula component not measured as COD and without a formula, and stores 0, 1 or the COD per mass times `i_mass` as the component is classed |
| ComponentModel.INODSet | qsdsan/_component.py:427-442 | the `i_NOD` setter on a slot map: only `i_NOD` changes, and None always passes |
| ComponentModel.Apply | qsdsan/_component.py:146-164 | one setter of `__new__` on a slot map: only its slot changes, and any error is TypeError, AttributeError or ValueError |
| ComponentModel.Run | qsdsan/_component.py:146-164 | the setters of `__new__` in order, the first failure ending the run: on success every slot exists, and an error is one a setter raises |
| ComponentModel.ElementSetters | qsdsan/_component.py:148-153 | the element setters of `__new__`, one per element slot, in the order i_C, i_N, i_P, i_K, i_Mg, i_Ca |
| ComponentModel.ConstructedFrom | qsdsan/_component.py:146-164 | the numeric setters, then, if all passed, `i_COD` and `i_NOD`, from given slots: on success every slot exists, and an error is one a setter raises |
| ComponentModel.Constructed | qsdsan/_component.py:127-165 | the slots `__new__` leaves from unset ones, or the error of its first failing setter |
| ComponentModel.ConstructedRunsAll | qsdsan/_component.py:146-164 | `__new__` is one run of all thirteen setters in source order |
| ComponentModel.RunConcat | qsdsan/_component.py:146-164 | running two lists of setters in turn is running their concatenation, a failure in the first ending it |
| ComponentModel.RunTwo | qsdsan/_component.py:163-164 | two setters run as the first, then, if it passed, the second |
| ComponentModel.RunDemands | qsdsan/_component.py:163-164 | the demand setters run as `ICODSet`, then, if it passed, `INODSet` |
| ComponentModel.RunKeeps | qsdsan/_component.py:146-164 | a slot that no setter of a successful run writes keeps its value |
| ComponentModel.RunKeepsFrom | qsdsan/_component.py:146-164 | a successful run got through any prefix, and a slot no later setter writes ends as the prefix left it |
| ComponentModel.RunSlot | qsdsan/_component.py:146-164 | in a successful run, a setter's slot that no later setter writes ends as that setter left it |
| ComponentModel.RunFailsAt | qsdsan/_component.py:146-164 | a setter that raises on every slot map makes every run that reaches it fail |
| ComponentModel.ElementPropsDistinct | qsdsan/_component.py:148-153 | the six element slots are distinct and none is `i_mass` |
| ComponentModel.ElementSetAccepted | qsdsan/_component.py:167-228 | the value one element setter stores, with `i_mass` unchanged, is what `ElementAccepted` describes |
| ComponentModel.ElementsRunAccepted | qsdsan/_component.py:148-153 | after a successful run of the element setters, from any slots, every element slot is as `ElementAccepted` describes |
| ComponentModel.NumbersRunAccepted | qsdsan/_component.py:146-157 | after a successful run of the numeric setters, from any slots, the element contents are as `ElementsAccepted` and the fractions as `FractionsAccepted` describe |
| ComponentModel.ChargeAndFractionsRunAccepted | qsdsan/_component.py:154-157 | a successful run of the `i_charge` and fraction setters keeps `ElementsAccepted` and leaves `FractionsAccepted` |
| ComponentModel.NewSettersRanked | qsdsan/_component.py:146-164 | each slot is written by exactly one of the thirteen setters of `__new__` |
| ComponentModel.NewSettersShape | qsdsan/_component.py:146-164 | the setters of `__new__` by position: `i_mass`, the six elements, `i_charge`, the three fractions, `i_COD`, `i_NOD` |
| ComponentModel.NewElementSetterAt | qsdsan/_component.py:148-153 | the element setters of `__new__` sit at positions 1 to 6 |
| ComponentModel.RankedSlot | qsdsan/_component.py:146-164 | in a successful run of setters in the order of `__new__`, a slot ends as its setter left it, from slots of lower rank as the earlier setters left them |
| ComponentModel.RunMass | qsdsan/_component.py:230-256 | the `i_mass` a successful run leaves: 1 when measured as itself, the inverse mass fraction of the measured atom or the COD mass ratio with a formula (and then no truthy value was given), the checked value otherwise |
| ComponentModel.RunCharge | qsdsan/_component.py:259-275 | the `i_charge` a successful run leaves: the checked value, or the formula's charge per mass times the final `i_mass` when that is unset or zero |
| ComponentModel.RunFractions | qsdsan/_component.py:277-300 | the fractions a successful run leaves: the checked `f_BOD5_COD` and `f_Vmass_Totmass`, and `f_uBOD_COD` as given (0 when falsy) and not below `f_BOD5_COD` |
| ComponentModel.RunCOD | qsdsan/_component.py:403-425 | the `i_COD` a successful run leaves: the checked truthy value, else 0, 1 or the COD per mass times the final `i_mass` as the component is classed |
| ComponentModel.RunNOD | qsdsan/_component.py:427-442 | the `i_NOD` a successful run leaves: the checked value, or for None the default from the final `i_N` |
| ComponentModel.RunElements | qsdsan/_component.py:148-153 | the element contents a successful run leaves are as `ElementsAccepted` describes |
| ComponentModel.ConstructedRefusesGivenMass | qsdsan/_component.py:230-256 | with a formula a truthy `i_mass`, and for a component measured as itself a truthy `i_mass` other than 1, make `__new__` fail with AttributeError |
| ComponentModel.ConstructedRefusesGivenContent | qsdsan/_component.py:167-228 | with a formula, any truthy element content makes `__new__` fail |
| ComponentModel.ConstructedMass | qsdsan/_component.py:230-256 | the `i_mass` `__new__` leaves, by basis and formula, as `RunMass` states it |
| ComponentModel.ConstructedElements | qsdsan/_component.py:148-153 | every element content `__new__` leaves is as `ElementsAccepted` describes |
| ComponentModel.ConstructedCharge | qsdsan/_component.py:259-275 | the `i_charge` `__new__` leaves: the checked value, or the formula's charge from the final `i_mass` when unset or zero |
| ComponentModel.ConstructedFractions | qsdsan/_component.py:277-311 | the fractions `__new__` leaves: the checked `f_BOD5_COD` and `f_Vmass_Totmass`, and `f_uBOD_COD` as given (0 when falsy), not below `f_BOD5_COD` |
| ComponentModel.ConstructedCOD | qsdsan/_component.py:403-425 | the `i_COD` `__new__` leaves: a truthy given value checked, else 0, 1 or the COD per mass times the final `i_mass` as the component is classed |
| ComponentModel.ConstructedNOD | qsdsan/_component.py:427-442 | the `i_NOD` `__new__` leaves: the checked given value, or for None the default by degradability and formula from the final `i_N` |
| ComponentModel.Component.SetNumbers | qsdsan/_component.py:147-157 | the numeric setters before the classification, in order: the outcome and new slots are those of `Run` over `NumberSetters`, the first failure giving its error and leaving the slots it found |
| ComponentModel.Component.SetElements | qsdsan/_component.py:148-153 | the six element setters in order: the outcome and new slots are those of `Run` over `ElementSetters`; only element slots change, and on success each holds what `ElementAccepted` describes |
| ComponentModel.Component.SetChargeAndFractions | qsdsan/_component.py:154-157 | the `i_charge` setter, then the fraction setters: the outcome and new slots are those of `Run` over `ChargeAndFractionSetters`; only those four slots change, and on success `f_BOD5_COD` and `f_Vmass_Totmass` are the number check's values |
| ComponentModel.Component.SetDemands | qsdsan/_component.py:163-164 | the `i_COD` then `i_NOD` setters: the outcome and new slots are those of `Run` over `DemandSetters`, and no other slot changes |
| ComponentModel.ElementsAcceptedKept | qsdsan/_component.py:154-164 | the setters after the element contents, which write no element slot and not `i_mass`, leave what `ElementsAccepted` describes in place |
| ComponentModel.FractionsAcceptedKept | qsdsan/_component.py:163-164 | the `i_COD` and `i_NOD` setters, which write no fraction slot, leave what `FractionsAccepted` describes in place |
| ComponentModel.Component.Get | qsdsan/_component.py:182-311 | an unset field reads as 0, except `i_mass`, which reads as 1 and is never 0 |
| ComponentModel.Component.Record | qsdsan/_component.py:372-400 | the registry's view of the record carries its ID and classification |
| ComponentModel.Component.SetElementContent | qsdsan/_component.py:167-228 | with a formula, a truthy value raises AttributeError and a falsy one stores the content from the formula; without a formula the value goes through the number check |
| ComponentModel.Component.SetIMass | qsdsan/_component.py:230-256 | with a formula a truthy value raises AttributeError; a component measured as itself ends with `i_mass = 1`, and a truthy value other than 1 raises AttributeError |
| ComponentModel.Component.SetICharge | qsdsan/_component.py:259-275 | a set value is stored; an unset one falls back to the formula's charge per mass, or 0 |
| ComponentModel.Component.SetFraction | qsdsan/_component.py:277-311 | `f_BOD5_COD` and `f_Vmass_Totmass` go through the number check as written: a number is stored as given, a falsy non-number stores None, a truthy non-number raises TypeError; no other slot changes |
| ComponentModel.Component.SetFuBOD | qsdsan/_component.py:288-300 | `f_uBOD_COD` below the current `f_BOD5_COD` raises ValueError; otherwise the number check's value is stored, not below `f_BOD5_COD`; no other slot changes |
| ComponentModel.Component.SetICOD | qsdsan/_component.py:403-425 | a truthy explicit value goes through the number check and is stored; 0, None or '' fall through to the default: an organic or listed-formula component gets 1 when measured as COD, AttributeError without a formula, and otherwise the COD per mass times `i_mass`; any other component gets 0. Its outcome and new slots are those of `ICODSet` |
| ComponentModel.Component.SetINOD | qsdsan/_component.py:427-442 | any value other than None goes through the number check and is stored; None takes the default by degradability and formula from the current `i_N`. Its outcome and new slots are those of `INODSet` |
| ComponentModel.Component.SetParticleSize | qsdsan/_component.py:372-382 | a value from the allowed set is stored; any other fails an assertion and leaves the field unchanged |
| ComponentModel.Component.SetDegradability | qsdsan/_component.py:383-393 | a value from the allowed set is stored; any other fails an assertion and leaves the field unchanged |
| ComponentModel.Component.SetOrganic | qsdsan/_component.py:394-400 | an allowed value is stored as its truth value; any other fails an assertion and leaves the field unchanged |
| ComponentModel.Component.ConvertIAttr | qsdsan/_component.py:350-370 | every `i_*` field is divided by the one denominator; a zero or unavailable denominator leaves the record unchanged and raises |
| ComponentModel.DivideIProps | qsdsan/_component.py:367-370 | the division loop divides each `i_*` slot in order; with every slot set it passes and yields the fully divided map, otherwise TypeError at the first unset slot with the slots before it divided |
| ComponentModel.Component.SetMeasuredAs | qsdsan/_component.py:321-348 | an unknown basis raises AttributeError and changes nothing; the same basis changes nothing; a new known basis converts as `ConvertIAttr` does (`Converted`): a zero denominator raises ValueError and an unset one TypeError, each leaving the slots unchanged; an unset `i_*` field raises TypeError with the fields before it already divided; otherwise every `i_*` field is divided; the basis is stored exactly on success |
| ComponentModel.Component.ClassificationValues | qsdsan/_component.py:491-501 | the classification attributes checked for missing values |
| ComponentModel.Component.NumericValues | qsdsan/_component.py:491-501 | the numeric properties are always numbers |
| ComponentModel.Component.KeyMissingOnlyClassification | qsdsan/_component.py:491-501 | only classification attributes can be missing, and `organic` is listed exactly when it is unset |
| Streams.NamedMissingIff | qsdsan/_sanstream.py:400-401 | a stream's type name contains "Missing" exactly when it is a missing stream |
| Streams.ChosenID | qsdsan/_sanstream.py:340-342 | the new ID is the given one, else the old one; a default-looking `s<digits>` ID becomes '', and two empty IDs raise IndexError |
| Streams.Plus | qsdsan/_sanstream.py:400-403 | mixing adds the masses component by component |
| Streams.MassesSum | qsdsan/_sanstream.py:400-403 | the mixture of several streams holds exactly the component IDs present in one of them |
| Streams.MassesSumAt | qsdsan/_sanstream.py:400-403 | the mixture of several streams holds, per component, the sum of their masses |
| Streams.AddSome | qsdsan/_sanstream.py:258-259 | the selected components gain the source's masses; the others are unchanged |
| Streams.ZeroSome | qsdsan/_sanstream.py:260 | the selected components become 0; the others are unchanged |
| Streams.AssignSome | qsdsan/sanunits/_anaerobic_reactors.py:552-564 | the selected components get the source's masses times a factor; the others are unchanged |
| Streams.Scaled | qsdsan/sanunits/_anaerobic_reactors.py:109 | every component's mass is multiplied by one factor |
| Streams.Stream.constructor | qsdsan/_sanstream.py:53-66 | a new stream with no price and no impact item |
| Streams.ImpactItem.constructor | qsdsan/_sanstream.py:410-414 | a stream impact item, not yet linked to a stream, as the setter links it |
| Streams.Stream.SetImpactItem | qsdsan/_sanstream.py:410-414 | the impact item is the one given, and a given item is linked back to this stream; None links nothing and leaves a previous item as it was |
| Streams.Stream.CopyFlow | qsdsan/_sanstream.py:145-170 | the masses of the listed IDs are copied from the other stream and every other mass is kept; with `remove` the copied IDs are zeroed in the other stream (in this one when both are the same stream); copying from a sanitation stream clears the impact item, from any other stream it is kept |
| Streams.Stream.FlowProxy | qsdsan/_sanstream.py:195-197 | the proxy is a new stream of the same class and masses with no impact item |
| Streams.Stream.MixFrom | qsdsan/_sanstream.py:400-403 | the mixture is the sum of the masses of the given streams that are not missing streams |
| Streams.Present | qsdsan/_sanstream.py:400 | filtering never adds streams |
| Streams.KeepKinds | qsdsan/_sanstream.py:400 | keeping by class never adds streams |
| Streams.KeepKindsIff | qsdsan/_sanstream.py:400 | a stream is kept exactly when it was given and its class passes the test |
| Streams.PresentIff | qsdsan/_sanstream.py:400 | a stream survives exactly when it was given and is not a missing stream |
| Streams.FlowsOf | qsdsan/_sanstream.py:400-403 | the mass maps of the streams, in order |
| Streams.MoveOut | qsdsan/_sanstream.py:258-260 | the selected components become 0 in the original; a distinct receiving stream gains their prior masses, so each selected component's two-stream total is conserved; all other components are unchanged in both streams |
| Streams.SelectedIDs | qsdsan/_sanstream.py:255-257 | the given IDs, or the class default when none are given |
| Streams.Degassing | qsdsan/_sanstream.py:236-260 | degassing moves the selected gas components as `MoveOut` states |
| Streams.Filtering | qsdsan/_sanstream.py:264-288 | filtering moves the selected solid components as `MoveOut` states |
| Streams.FromStream | qsdsan/_sanstream.py:330-366 | a missing stream gives a missing sanitation stream, a stream already of the class is returned itself, and any other gives a new stream with the chosen ID (IndexError when none can be chosen), the same masses, no impact item, and price 0 unless the `price` keyword is given |
| ElectroChemical.AsSequence | qsdsan/sanunits/_electrochemical_cell.py:64-65 | a single equipment is wrapped into a one-element sequence; a sequence is kept |
| ElectroChemical.ElectroChemCell.constructor | qsdsan/sanunits/_electrochemical_cell.py:62-69 | a new cell with its ratios, wrapped equipment and empty outlets |
| ElectroChemical.Apportion | qsdsan/sanunits/_electrochemical_cell.py:80-88 | the loop over a ratio table sets each listed chemical's outlet to `mixture*ratio` and subtracts it from `left`, leaving unlisted chemicals alone |
| ElectroChemical.ApportionEntry | qsdsan/sanunits/_electrochemical_cell.py:80-88 | one entry of that loop extends both accounts (remaining mass and outlet) by that entry |
| ElectroChemical.ElectroChemCell.Run | qsdsan/sanunits/_electrochemical_cell.py:74-88 | recovered and removed hold `mixture*ratio` for their chemicals, and `left` is the mixture less both |
| ElectroChemical.Conservation | qsdsan/sanunits/_electrochemical_cell.py:80-88 | recovered + removed + left equals the mixture for every chemical |
| ElectroChemical.LeftBounds | qsdsan/sanunits/_electrochemical_cell.py:80-88 | `left` is non-negative when the two ratios sum to at most 1, and equals the mixture for a chemical in neither table |
| ElectroChemical.ElectroChemCell.Cost | qsdsan/sanunits/_electrochemical_cell.py:93-97 | additional OPEX is the sum of purchase costs times `OPEX_over_CAPEX` |
| AnaerobicReactors.InletCOD | qsdsan/sanunits/_anaerobic_reactors.py:106 | the inlet COD concentration is the stream's stored value when set and nonzero, else the computed COD |
| AnaerobicReactors.CODBalance | qsdsan/sanunits/_anaerobic_reactors.py:106-109 | degraded COD plus the COD left in the treated liquid equals the inlet COD load |
| AnaerobicReactors.RouteMethane | qsdsan/sanunits/_anaerobic_reactors.py:111-117 | the produced methane goes to the biogas outlet when captured and to the fugitive outlet otherwise; the other outlet is emptied |
| AnaerobicReactors.N2OOutlet | qsdsan/sanunits/_anaerobic_reactors.py:126-129 | when emission is on, N2O is the lost nitrogen times 44/28; otherwise the outlet is emptied |
| AnaerobicReactors.TreatedMasses | qsdsan/sanunits/_anaerobic_reactors.py:108-124 | degraded components keep `1 - COD_removal` of their mass, NH3/NonNH3 lose the allocated nitrogen, everything else is unchanged |
| AnaerobicReactors.BaffledSizing | qsdsan/sanunits/_anaerobic_reactors.py:139-155 | single volume `L*W*H`, excavation `N*V`, gravel `N*V/(N_b+1)*density`, and ZeroDivisionError for `N_b = -1` |
| AnaerobicReactors.AnaerobicBaffledReactor.constructor | qsdsan/sanunits/_anaerobic_reactors.py:72-97 | a new reactor with its parameters as fields and empty outlets |
| AnaerobicReactors.AnaerobicBaffledReactor.SetNReactor | qsdsan/sanunits/_anaerobic_reactors.py:186-188 | the reactor count is the ceiling of the value given |
| AnaerobicReactors.AnaerobicBaffledReactor.SetNBaffle | qsdsan/sanunits/_anaerobic_reactors.py:218-220 | the baffle count is the ceiling of the value given |
| AnaerobicReactors.AnaerobicBaffledReactor.Run | qsdsan/sanunits/_anaerobic_reactors.py:99-129 | treated COD and degraded masses scaled by `1 - COD_removal`, methane routed, NH3/NonNH3 reduced by the allocated nitrogen, N2O from the lost nitrogen; an unset COD raises TypeError after the copy |
| AnaerobicReactors.AnaerobicBaffledReactor.Design | qsdsan/sanunits/_anaerobic_reactors.py:139-155 | the design results record the dimensions; concrete, gravel and excavation are as `BaffledSizing` states, and a division failure leaves the last two unchanged |
| AnaerobicReactors.FlowRate | qsdsan/sanunits/_anaerobic_reactors.py:381-387 | an unset flow rate falls back to the inlet volumetric flow times 24 |
| AnaerobicReactors.SingleVolume | qsdsan/sanunits/_anaerobic_reactors.py:361-367 | single volume times `(1 - headspace)(N - 1)` is `Q*tau*24`; a headspace of 1 or one reactor raises ZeroDivisionError |
| AnaerobicReactors.SingleVolumeCovers | qsdsan/sanunits/_anaerobic_reactors.py:361-367 | with a positive load, a headspace below 1 and at least two reactors, the volume is positive and `N - 1` reactors hold the total |
| AnaerobicReactors.AnaerobicDigestion.constructor | qsdsan/sanunits/_anaerobic_reactors.py:289-312 | a new digester with its parameters as fields and empty outlets |
| AnaerobicReactors.AnaerobicDigestion.SetNReactor | qsdsan/sanunits/_anaerobic_reactors.py:412-414 | the reactor count is the ceiling of the value given |
| AnaerobicReactors.AnaerobicDigestion.Run | qsdsan/sanunits/_anaerobic_reactors.py:318-349 | as the baffled reactor for COD and methane; nitrogen is removed and N2O emitted only when emission is on, and otherwise the N2O outlet is emptied |
| AnaerobicReactors.AnaerobicDigestion.Design | qsdsan/sanunits/_anaerobic_reactors.py:359-378 | records flow rate, residence time and reactor count, then the single volume and the excavation `Q*tau*24`, or the division error |
| AnaerobicReactors.GetAttr | qsdsan/sanunits/_anaerobic_reactors.py:529 | reading an attribute succeeds exactly when it has been assigned; otherwise AttributeError |
| AnaerobicReactors.SludgeDigesterInitRaises | qsdsan/sanunits/_anaerobic_reactors.py:510-536 | as written, the constructor reads `methane_fraction` before anything assigns it, so it raises AttributeError |
| AnaerobicReactors.BiogasOf | qsdsan/sanunits/_anaerobic_reactors.py:566-568 | biogas holds the methane volume as CH4 and `CH4*(1-f)/f` as CO2 |
| AnaerobicReactors.MethaneShare | qsdsan/sanunits/_anaerobic_reactors.py:566-568 | methane is the fraction `f` of the biogas volume |
| AnaerobicReactors.SludgeDigester.NewAsWritten | qsdsan/sanunits/_anaerobic_reactors.py:510-536 | as written, constructing a sludge digester raises AttributeError for every argument list, at the `methane_fraction` line |
| AnaerobicReactors.SludgeDigester.constructor | qsdsan/sanunits/_anaerobic_reactors.py:510-536 | the parameters are stored, with the methane fraction assigned, and the fixed wall, slab and pit constants |
| AnaerobicReactors.SludgeDigester.SlabThickness | qsdsan/sanunits/_anaerobic_reactors.py:658-667 | an unset slab thickness defaults to the wall thickness plus 2 inches |
| AnaerobicReactors.SludgeDigester.ExcavationVolume | qsdsan/sanunits/_anaerobic_reactors.py:617-623 | excavation is half the sum of the bottom and top areas times the depth |
| AnaerobicReactors.SludgeDigester.ExcavationAtLeastStraightPit | qsdsan/sanunits/_anaerobic_reactors.py:617-623 | with non-negative dimensions the sloped pit is at least the straight pit |
| AnaerobicReactors.SludgeDigester.MethaneVolume | qsdsan/sanunits/_anaerobic_reactors.py:558-559 | the methane volume is proportional to the total COD load: the converted COD times the methane yield less the COD factor times the biomass yield per unit of converted COD |
| AnaerobicReactors.SludgeDigester.Run | qsdsan/sanunits/_anaerobic_reactors.py:539-568 | biomass and substrates keep `1 - organics_conversion` of the inlet, other components pass through, and the biogas is that of the methane produced |
| AnaerobicReactors.Digested | qsdsan/sanunits/_anaerobic_reactors.py:552-564 | the digested stream keeps `1 - conversion` of each biomass and substrate component and all of every other |
| LegacyBaffledReactor.CeilOf | sanitation/units/_anaerobic_baffled_reactor.py:158-159 | `int(ceil(v))` for a number; TypeError otherwise |
| LegacyBaffledReactor.BaffledReactor.constructor | sanitation/units/_anaerobic_baffled_reactor.py:39-63 | a new reactor with its parameters as fields and empty outlets |
| LegacyBaffledReactor.BaffledReactor.SetFloat | sanitation/units/_anaerobic_baffled_reactor.py:133-210 | a float setter stores `float(v)` in its one field, leaving the others, or fails with `float`'s error |
| LegacyBaffledReactor.BaffledReactor.SetCount | sanitation/units/_anaerobic_baffled_reactor.py:157-191 | the reactor and baffle setters store `int(ceil(v))` in their one field, or fail |
| LegacyBaffledReactor.BaffledReactor.Run | sanitation/units/_anaerobic_baffled_reactor.py:72-98 | COD and `OtherSS` scaled by `1 - COD_removal`, CH4 from the degraded COD, and nitrogen removal and N2O only when emission is on, with the extra `N_removal` factor |
| LegacyBaffledReactor.BaffledReactor.Dimensions | sanitation/units/_anaerobic_baffled_reactor.py:101-107 | the design results hold the dimensions, with the single volume `L*W*H` |
| LegacyBaffledReactor.BaffledReactor.Design | sanitation/units/_anaerobic_baffled_reactor.py:101-113 | concrete `N*t*(2LW+2LH+(2+N_b)WH)*add`, gravel `N*V/(N_b+1)`, excavation `N*V`, or ZeroDivisionError |
| SepticTanks.UserScaleUp | qsdsan/sanunits/_septic_tank.py:182-188 | `max(0.25, ppl/baseline)` for nonzero people and 1 otherwise, so never below 0.25 |
| SepticTanks.RemainingCODAsWritten | qsdsan/sanunits/_septic_tank.py:108-109 | as written, the remaining COD is the corrected remaining COD scaled by `COD_removal` |
| SepticTanks.RemainingCODAsWrittenLosesCOD | qsdsan/sanunits/_septic_tank.py:108-109 | as written, the remaining COD with no removal is not the inlet COD load |
| SepticTanks.RemainingCOD | qsdsan/sanunits/_septic_tank.py:108-109 | degraded plus remaining COD is the inlet COD load |
| SepticTanks.MgOH2Dose | qsdsan/sanunits/_septic_tank.py:130-133 | the Mg(OH)2 dose raises ZeroDivisionError exactly for a zero Mg dose |
| SepticTanks.RecoveredPhosphorus | qsdsan/sanunits/_septic_tank.py:123-134 | the phosphorus the struvite produced carries (`production * i_P`) is `P_recovery` of the inlet's, it and the phosphorus the decayed liquid keeps add up to the inlet's, and for `P_recovery` in [0, 1] and a non-negative inlet load it lies between none and all of it |
| SepticTanks.PhosphorusBalance | qsdsan/sanunits/_septic_tank.py:123-153 | after separation, the phosphorus in liquid and sludge plus the phosphorus the struvite produced carries is the inlet's; this holds whether or not struvite is generated, so without struvite the recovered phosphorus leaves through no outlet |
| SepticTanks.StruviteBalance | qsdsan/sanunits/_septic_tank.py:127-153 | after separation, the struvite in liquid, sludge and struvite outlet is the inlet's plus the production when struvite is generated, and the inlet's alone when it is not |
| SepticTanks.SludgeWater | qsdsan/sanunits/_septic_tank.py:142 | sludge water times `1 - moisture` is the sludge's dry mass, and is non-negative for a moisture below 1 |
| SepticTanks.Quotient | qsdsan/sanunits/_septic_tank.py:142-146 | a quotient times its divisor is the dividend |
| SepticTanks.TreatedWater | qsdsan/sanunits/_septic_tank.py:143-144 | treated water is `max(0, H2O - sludge water)`, so never negative |
| SepticTanks.SolubleRatio | qsdsan/sanunits/_septic_tank.py:146 | the soluble ratio is the treated water's share of the inlet water, in [0, 1] for positive water |
| SepticTanks.Allocation | qsdsan/sanunits/_septic_tank.py:146-153 | water is split as stated, every other treated component keeps `ratio` of its mass, and the sludge gains exactly what the treated liquid loses |
| SepticTanks.AllocationConserves | qsdsan/sanunits/_septic_tank.py:146-153 | per non-water component, treated plus sludge after allocation equals treated plus sludge before |
| SepticTanks.CODSplitSums | qsdsan/sanunits/_septic_tank.py:156-157 | the treated and sludge COD masses sum to the remaining COD, split as `ratio` and `1 - ratio` |
| SepticTanks.Decayed | qsdsan/sanunits/_septic_tank.py:115-125 | P scaled by `1 - P_recovery`, NH3/NonNH3 reduced by the allocated nitrogen, all else unchanged |
| SepticTanks.Settle | qsdsan/sanunits/_septic_tank.py:141 | Ca, Mg and OtherSS move entirely from the treated liquid into the sludge |
| SepticTanks.SettledEndInSludge | qsdsan/sanunits/_septic_tank.py:141-153 | after separation a settled component is absent from the treated liquid and all in the sludge |
| SepticTanks.SeparatedConserves | qsdsan/sanunits/_septic_tank.py:141-153 | separation conserves every non-settled, non-water component across the two outlets |
| SepticTanks.SeparatedWater | qsdsan/sanunits/_septic_tank.py:142-153 | after separation the sludge holds the sludge water and the treated liquid the rest, never negative |
| SepticTanks.Separated | qsdsan/sanunits/_septic_tank.py:139-157 | the separation step; the COD loads behind the two outlet concentrations sum to the remaining COD |
| SepticTanks.StruviteOutlets | qsdsan/sanunits/_septic_tank.py:127-138 | struvite goes to the sludge exactly when it belongs in the sludge, else to the struvite outlet; without struvite both are empty |
| SepticTanks.StruviteRoutedOnce | qsdsan/sanunits/_septic_tank.py:127-138 | struvite is never in both outlets, and the amount is the one produced |
| SepticTanks.Rescaled | qsdsan/sanunits/_septic_tank.py:176-179 | every cost entry is multiplied by the price ratio, with the same keys |
| SepticTanks.SepticTank.constructor | qsdsan/sanunits/_septic_tank.py:78-95 | a new tank with its parameters as fields and empty outlets |
| SepticTanks.SepticTank.Separate | qsdsan/sanunits/_septic_tank.py:141-157 | the outlets become `Separated` of the previous liquid and sludge |
| SepticTanks.SepticTank.Solids | qsdsan/sanunits/_septic_tank.py:127-157 | the struvite step as `Dose` states; after a failure the liquid and its COD are untouched, otherwise the outlets become `Separated` of the liquid and the struvite step's sludge, with the remaining COD of the corrected `RemainingCOD` (see Findings) |
| SepticTanks.SepticTank.Digest | qsdsan/sanunits/_septic_tank.py:104-125 | the treated liquid is the inlet decayed as `Decayed` states, with the inlet COD concentration |
| SepticTanks.SepticTank.Emit | qsdsan/sanunits/_septic_tank.py:108-121 | CH4 from the degraded COD and N2O from the lost nitrogen |
| SepticTanks.SepticTank.Dose | qsdsan/sanunits/_septic_tank.py:127-138 | a zero Mg dose raises ZeroDivisionError with empty outlets; otherwise the outlets are routed and the Mg(OH)2 dose is set, or 0 without struvite |
| SepticTanks.SepticTank.Treat | qsdsan/sanunits/_septic_tank.py:104-157 | the decay, dosing and separation steps in order: ZeroDivisionError exactly for a zero Mg dose with struvite generated, with the decayed liquid and emptied struvite outlets; otherwise the struvite outlets and Mg(OH)2 dose, and liquid, sludge and COD concentrations as `Separated` of the decayed liquid with the corrected `RemainingCOD` (see Findings) |
| SepticTanks.SepticTank.Run | qsdsan/sanunits/_septic_tank.py:100-157 | the whole `_run`: CH4 from the degraded COD and N2O from the lost nitrogen, and the liquid, sludge, struvite and COD outlets as `Treat` states, failing exactly on a zero Mg dose with struvite generated; the remaining COD is the corrected `RemainingCOD` (see Findings) |
| SepticTanks.SepticTank.Design | qsdsan/sanunits/_septic_tank.py:160-168 | FRP and pump quantities are the per-tank quantities times the user scale-up |
| SepticTanks.SepticTank.Cost | qsdsan/sanunits/_septic_tank.py:170-179 | without the front end all purchase costs are cleared; otherwise the tank and pump costs are set from the scaled user number and each cost is rescaled by the price ratio |
| LifeCycle.Zeros | qsdsan/_lca.py:179 | the accumulator starts at 0 for every indicator |
| LifeCycle.AcceptedConcat | qsdsan/_lca.py:185-188 | the acceptance checks on two entry lists hold exactly when they hold on each |
| LifeCycle.AcceptedSplit | qsdsan/_lca.py:185-188 | acceptance of a list splits into its head and tail |
| LifeCycle.AddAllSums | qsdsan/_lca.py:185-188 | accumulation succeeds exactly when every entry names a known indicator and has a value, and then adds each indicator's total |
| LifeCycle.AddAllConcat | qsdsan/_lca.py:185-188 | accumulating two lists is accumulating the second into the result of the first |
| LifeCycle.TotalConcat | qsdsan/_lca.py:185-188 | the total over two lists is the sum of the totals |
| LifeCycle.Accumulate | qsdsan/_lca.py:185-188 | the accumulation loop computes `AddAll` |
| LifeCycle.TimeRatio | qsdsan/_lca.py:174-178 | the time ratio is 1 with no time, else time over the lifetime in hours, with ZeroDivisionError for a zero lifetime in hours (a zero lifetime or a zero uptime ratio) |
| LifeCycle.Hours | qsdsan/_lca.py:198-201 | the time defaults to the lifetime in hours |
| LifeCycle.Factor | qsdsan/_lca.py:181-184 | the factor is the LCA lifetime over the unit lifetime, or 1 when the unit has none |
| LifeCycle.TripShare | qsdsan/_lca.py:203-207 | a trip's share times its interval is `n*time`; a zero interval raises ZeroDivisionError |
| LifeCycle.Clamp | qsdsan/_lca.py:235-245 | direct emissions keep `max(CF, 0)`, offsets `min(CF, 0)`, and any other kind the raw CF |
| LifeCycle.ScaleAmount | qsdsan/_lca.py:185-188 | scaling an entry scales its contribution |
| LifeCycle.ScaleEntriesConcat | qsdsan/_lca.py:185-188 | scaling distributes over concatenation |
| LifeCycle.TotalScales | qsdsan/_lca.py:185-188 | the total of scaled entries is the scaled total |
| LifeCycle.ImpactEntriesScale | qsdsan/_lca.py:185-188 | one activity's entries are proportional to the time ratio |
| LifeCycle.ConstructionEntriesScale | qsdsan/_lca.py:185-188 | a unit's construction entries are proportional to the time ratio |
| LifeCycle.UnitsConstructionEntriesScale | qsdsan/_lca.py:185-188 | all units' construction entries are proportional to the time ratio |
| LifeCycle.ConstructionScalesWithRatio | qsdsan/_lca.py:167-189 | every construction impact is proportional to the time ratio |
| LifeCycle.TripEntriesScale | qsdsan/_lca.py:203-207 | one trip's entries are proportional to the time |
| LifeCycle.TransportationEntriesScale | qsdsan/_lca.py:203-207 | a unit's transportation entries are proportional to the time |
| LifeCycle.UnitsTransportationEntriesScale | qsdsan/_lca.py:203-207 | all units' transportation entries are proportional to the time |
| LifeCycle.TransportationScalesWithTime | qsdsan/_lca.py:191-208 | every transportation impact is proportional to the time |
| LifeCycle.ClampsAdd | qsdsan/_lca.py:235-245 | the direct-emission and offset parts of a factor add up to the whole |
| LifeCycle.FactorKindsAdd | qsdsan/_lca.py:235-245 | per indicator, one stream item's direct-emission and offset totals add up to its total over all kinds |
| LifeCycle.StreamKindsAdd | qsdsan/_lca.py:211-246 | per indicator, stream impacts of kind direct_emission plus those of kind offset equal those of kind all |
| LifeCycle.StreamEntriesConcat | qsdsan/_lca.py:233-245 | the stream entries of two item lists are those of each |
| LifeCycle.ExcludedStreamAddsNothing | qsdsan/_lca.py:234 | the excluded stream contributes no entry |
| LifeCycle.IndicatorsOf | qsdsan/_lca.py:463-488 | the indicators are never empty on success, and an empty union raises ValueError |
| LifeCycle.ImpactEntriesAccepted | qsdsan/_lca.py:185-188 | construction entries always have a value, and name known indicators when the activity's do |
| LifeCycle.ConstructionEntriesAccepted | qsdsan/_lca.py:185-188 | as above, for a unit's activities |
| LifeCycle.UnitsConstructionAccepted | qsdsan/_lca.py:185-188 | as above, for all units |
| LifeCycle.TripEntriesAccepted | qsdsan/_lca.py:203-207 | a trip's entries have values exactly when it has no impacts or a nonzero interval |
| LifeCycle.TransportationEntriesAccepted | qsdsan/_lca.py:203-207 | a unit's transportation entries have values exactly when every trip with impacts has a nonzero interval |
| LifeCycle.UnitsTransportationAccepted | qsdsan/_lca.py:203-207 | as above, for all units |
| LifeCycle.FactorEntriesAccepted | qsdsan/_lca.py:235-245 | stream factor entries always have a value |
| LifeCycle.StreamEntriesAccepted | qsdsan/_lca.py:227-245 | stream amounts all evaluate exactly when no unlinked item with factors is reached while a stream is excluded; otherwise they fail only with AttributeError; they name only the items' indicators |
| LifeCycle.UnlinkedEntriesAccepted | qsdsan/_lca.py:230-245 | an unlinked item's amounts all fail with AttributeError, so they evaluate exactly when it has no factors |
| LifeCycle.UnlinkedTotal | qsdsan/_lca.py:230-245 | an unlinked item contributes nothing to any total |
| LifeCycle.LinkedSplit | qsdsan/_lca.py:227-245 | no unlinked item with factors is reached exactly when the first item is not one and none of the rest is |
| LifeCycle.QuantityEntriesAccepted | qsdsan/_lca.py:253-258 | other-item entries always have a value |
| LifeCycle.OtherEntriesAccepted | qsdsan/_lca.py:253-258 | as above, for all other items |
| LifeCycle.TotalIsSumOfParts | qsdsan/_lca.py:261-272 | per indicator the total is construction plus transportation plus stream plus other impacts, failing with the first part's error |
| LifeCycle.AddPartsMeaning | qsdsan/_lca.py:266-271 | adding the parts succeeds exactly when they name known indicators, and then sums them; otherwise KeyError |
| LifeCycle.AddPartsFails | qsdsan/_lca.py:266-271 | an earlier error is passed on |
| LifeCycle.ConstructionImpactsMeaning | qsdsan/_lca.py:167-189 | construction impacts: ZeroDivisionError for a zero lifetime in hours with a time given, KeyError for an unknown indicator, otherwise per indicator the sum of `impact*ratio*factor` |
| LifeCycle.TransportationImpactsMeaning | qsdsan/_lca.py:191-208 | transportation impacts are per indicator the sum of `impact*time/interval`, or KeyError or ZeroDivisionError |
| LifeCycle.AddAllErrors | qsdsan/_lca.py:203-207 | accumulating amounts that evaluate or fail with one error fails only with KeyError or that error, and only with that error when every indicator is known |
| LifeCycle.TransportationErrors | qsdsan/_lca.py:203-207 | accumulating all units' trips fails only with KeyError or ZeroDivisionError, and only with ZeroDivisionError when every indicator is known |
| LifeCycle.FailsOnlyWithConcat | qsdsan/_lca.py:203-207 | amounts failing only with one error stay so under concatenation |
| LifeCycle.UnitsTripAmounts | qsdsan/_lca.py:203-207 | all units' trip entries fail only by division |
| LifeCycle.TripsAmounts | qsdsan/_lca.py:203-207 | a unit's trip entries fail only by division |
| LifeCycle.OneTripAmounts | qsdsan/_lca.py:203-207 | one trip's entries fail only by division |
| LifeCycle.StreamImpactsMeaning | qsdsan/_lca.py:211-246 | stream impacts: ValueError for an unknown kind once a factor is visited; otherwise success exactly when every indicator is known and no unlinked item with factors is reached while a stream is excluded, then per indicator the sum of the clamped `CF*time*F_mass`; on failure KeyError for an unknown indicator (checked first) or AttributeError for an unlinked item |
| LifeCycle.OtherImpactsMeaning | qsdsan/_lca.py:248-259 | other impacts are per indicator the sum of `CF*quantity`, or KeyError |
| LifeCycle.TotalOfOwnInventories | qsdsan/_lca.py:551-553 | for the LCA's own inventories the total succeeds exactly when there are indicators, no unlinked item with factors is reached under an exclusion and every trip with impacts has a nonzero interval; it raises ValueError, AttributeError or ZeroDivisionError for these in that order, and otherwise sums the four parts |
| LifeCycle.LCA.constructor | qsdsan/_lca.py:57-77 | an assessment holding a lifetime and an uptime ratio already accepted by `New`, and its inventories |
| LifeCycle.LCA.New | qsdsan/_lca.py:57-65 | `__init__`: fails with `float`'s error for a bad lifetime, then with ValueError for an uptime ratio outside [0, 1]; otherwise a new assessment with the lifetime as `_update_lifetime` sets it, the ratio and the inventories |
| LifeCycle.LCA.UpdateLifetime | qsdsan/_lca.py:107-112 | for unit '' or 'yr' the lifetime is `float(value)`; for another unit the converted value; a failing `float` leaves it unchanged |
| LifeCycle.LCA.SetUptimeRatio | qsdsan/_lca.py:456-461 | a ratio in [0, 1] is stored; any other raises ValueError and leaves the prior value |
| LifeCycle.LCA.LifetimeHr | qsdsan/_lca.py:447-450 | lifetime in hours is between 0 and `lifetime*8760`, equals it for full uptime, and is 0 exactly for a zero lifetime or ratio |
| LifeCycle.LCA.ConstructionImpacts | qsdsan/_lca.py:167-189 | the nested loop computes `ConstructionImpactsOf` |
| LifeCycle.LCA.TransportationImpacts | qsdsan/_lca.py:191-208 | the nested loop computes `TransportationImpactsOf` |
| LifeCycle.LCA.StreamImpacts | qsdsan/_lca.py:211-246 | the loop computes `StreamImpactsOf` |
| LifeCycle.AddStream | qsdsan/_lca.py:227-245 | the item loop yields ValueError for an unknown kind as soon as some entry exists, otherwise `AddAll` of all entries, which fails with AttributeError at an unlinked item with factors under an exclusion |
| LifeCycle.AddItem | qsdsan/_lca.py:234-245 | an excluded item adds nothing; an unknown kind raises ValueError exactly when the item has factors; an unlinked item with factors fails with AttributeError after the indicator check; otherwise its factors are added |
| LifeCycle.LCA.OtherImpacts | qsdsan/_lca.py:248-259 | the loop computes `OtherImpactsOf` |
| LifeCycle.LCA.TotalImpacts | qsdsan/_lca.py:261-272 | the total computes `TotalImpactsOf` of the four parts over the LCA's inventories |
| LifeCycle.AddConstruction | qsdsan/_lca.py:185-188 | the loop over a unit's activities computes `AddAll` of their entries |
| LifeCycle.AddTransportation | qsdsan/_lca.py:203-207 | the loop over a unit's trips computes `AddAll` of their entries |
| LifeCycle.AddEach | qsdsan/_lca.py:266-271 | the loop adding one part computes `AddMap` |
| Misc.CopyValue | qsdsan/utils/misc.py:56-59 | a value with a `copy` method is replaced by a copy and any other value is shared |
| Misc.CopiedMeaning | qsdsan/utils/misc.py:47-61 | the intended copy succeeds exactly when every copied slot is set on the original, and then each slot not skipped is shared (if in `same`) or copied; otherwise AttributeError |
| Misc.ExpectedStep | qsdsan/utils/misc.py:47-61 | one slot of the intended copy |
| Misc.AsWrittenAgreesWithoutShared | qsdsan/utils/misc.py:47-61 | when no copied slot is in `same`, the code as written does the intended copy |
| Misc.AsWrittenStopsAtShared | qsdsan/utils/misc.py:52-54 | as written, a slot in `same` returns at once, so later slots are never copied |
| Misc.Slotted.constructor | qsdsan/utils/misc.py:47 | an object with its slots and attributes |
| Misc.CopyAttrAsWritten | qsdsan/utils/misc.py:47-61 | the slot loop as written computes `CopiedAsWritten` |
| Misc.CopyAttr | qsdsan/utils/misc.py:47-61 | the corrected slot loop computes `Copied` |
| Misc.FullIDInjective | qsdsan/utils/misc.py:81-87 | composing a prefix with an ID is injective |
| Misc.Registry.constructor | qsdsan/utils/misc.py:86-88 | an empty registry |
| Misc.TicketBook.constructor | qsdsan/utils/misc.py:80-85 | a ticket book at 0 |
| Misc.RegisterWithPrefix | qsdsan/utils/misc.py:77-88 | an empty ID takes tickets until the composed ID is fresh and registers it; another ID registers the composed ID without tickets; a None ID with a prefix raises TypeError |

## Left out

- The process models (`qsdsan/processes`): they only configure the stoichiometry compiler, whose source is not part of this model.
- Chemistry lookups (molecular weights, formula charge, COD stoichiometry, mass fractions) are parameters of the operations that need them (`atoms`, `chargePerMass`, `codPerMass`, `codMassRatio`).
- `default_compile`, `load_default`, `load_from_file`, `from_chemicals`, `append_combustion_components`, `Component.copy`/`from_chemical` and `refresh_constants`: these are chemistry database plumbing.
- The compiled-registry identity cache and pickling: these are persistence only.
- Registry entries are component values, not shared objects: a component changed after registration is not seen through the registry.
- Streams.Stream.CopyFlow takes the copied IDs as a list; the default of all components (`IDs=...`), the `exclude` selection and the multi-phase flows of the generic stream class are not modelled.
- Streams.Stream.FlowProxy: it returns a stream with a copy of the masses, not one that shares the flow of the original, so later changes to either are not reflected in the other.
- First-order decay, `allocate_N_removal` and the WasteStream aggregates (COD, TN, F_vol, F_mass) are inputs (`nLoss`, `allocate`, the `Waste` fields): their code is not part of this model.
- ElectroChemical.ElectroChemCell.Run: the mixture of the two inlets is their componentwise sum, standing for `mix_from`.
- Cylinder geometry, heat duty and heat loss, and unit conversions of the digesters' design are floating-point numerics and foreign calls. The converted lifetime of `_update_lifetime` for other units is a parameter (`converted`).
- AnaerobicReactors.SludgeDigester.Run: the substrate COD load is an input, and a zero `1 + b*SRT` or methane fraction, which gives a non-finite value in the source, is excluded by its precondition.
- SepticTanks.SepticTank.Treat and SepticTanks.SepticTank.Run exclude a zero inlet water mass, a sludge moisture of 1, zero outlet volumetric flows and a zero struvite P content, which give non-finite values in the source.
- SepticTanks.SepticTank.Solids and SepticTanks.SepticTank.Separate carry the same exclusions, for the same reason.
- Unit costs other than the septic tank's rescaling and the cell's OPEX rule read prices from CSV tables and are not part of this model.
- Parameter loading from CSV tables in every unit constructor: parameters are explicit constructor arguments.
- Pandas table building, Excel reports, `show` and `__repr__` are display and I/O.
- The electrochemical cell module's demonstration code uses undefined names and is not part of this model.
- `sanitation/_sanunit.py`, the housing reclaimer, `time_printer`, `setup.py`, the demo system and the tests are plumbing, display or scripts.
- Registry.BuildTable and Registry.Components.New apply the corrected duplicate check of the first Findings row: a repeated ID raises ValueError, while as written the later component replaces the earlier one (`AsWrittenAcceptsDuplicates`).
- ComponentModel.Component.SetFraction and ComponentModel.Component.SetFuBOD follow the code as written and do not promise a stored fraction in [0, 1]: the range test is dead code (second Findings row). The intended check is `CheckNumber` with `fraction = true`.
- SepticTanks.SepticTank.Solids, SepticTanks.SepticTank.Treat and SepticTanks.SepticTank.Run use the corrected `RemainingCOD` of the third Findings row. As written, the remaining COD is `RemainingCODAsWritten`, the corrected value times `COD_removal`.
- Streams.FromStream models only the `price` keyword. Not modelled: other keyword attributes; the default `sN` ID that the stream constructor gives an empty ID (the model keeps ''); the removal of the old stream from the ID registry; the rewiring of its source and sink units.
- Common.At reads 0 for any component ID absent from a mass map (`Masses`), so streams accept any ID, whereas thermosteam's `imass[ID]` raises for an ID outside the stream's components.
- SepticTanks.SepticTank.Cost takes the scaled user number `scaled` as a parameter. It is not tied to `user_scale_up ** exponent_scale`, because real powers are floating point.
- SepticTanks.SludgeWater and SepticTanks.Separated sum the sludge's dry mass over a caller-given `ids` list. Nothing ties `ids` to the sludge's keys, whereas the source takes `sludge.F_mass` over all components.
- Misc.RegisterWithPrefix models `registry.register` and `registry.register_safely` of the thermosteam registry, which is not part of this model, as plain insertion of the composed ID into `registry.data`. No ID validation is modelled, and no check, warning or replacement for an already taken ID in `register_safely`. A None ID with an empty prefix is stored under the key None as given.
- LifeCycle.TimeRatio and LifeCycle.Hours take the time already in hours. The `time_unit` conversion and the TypeError or ValueError of `float(time)` are not modelled. LifeCycle.LCA.ConstructionImpacts, LifeCycle.LCA.TransportationImpacts, LifeCycle.LCA.StreamImpacts and LifeCycle.LCA.TotalImpacts inherit this, so `get_total_impacts` passes no `time_unit`.
- String-to-number parsing in `float()`: a string argument is taken to fail.
- Dictionary iteration order: the modelled results do not depend on it.
- The LCA's system and stream discovery, `add_other_item`, `refresh_other_items`, `get_normalized_impacts`, `get_units_impacts` and `get_impact_table`: they read the system graph or build tables, and the inventories are constructor arguments here.

## Findings

| source | as written | input that shows it | evidently intended | confidence | as-written member | corrected member |
|---|---|---|---|---|---|---|
| qsdsan/_components.py:73-79 | the duplicate test looks up the ID in a set of already-seen IDs that is never added to, so it never fires | two components with the same ID | the second occurrence of an ID raises ValueError | not executed | Registry.AsWrittenAcceptsDuplicates | Registry.BuildIff |
| qsdsan/_component.py:89-94 | the [0, 1] check on `f_` values comes after an unconditional return | `f_BOD5_COD = 1.5` | a fraction outside [0, 1] raises ValueError | not executed | ComponentModel.FractionRangeCheckIsDead | ComponentModel.CheckNumber |
| qsdsan/sanunits/_septic_tank.py:108-109 | the remaining COD is computed as the degraded COD times `1 - COD_removal`, not from the inlet COD load | inlet COD 1000 mg/L, 1 m3/h, no removal | degraded plus remaining COD is the inlet COD load | not executed | SepticTanks.RemainingCODAsWrittenLosesCOD | SepticTanks.RemainingCOD |
| qsdsan/sanunits/_anaerobic_reactors.py:529 | the constructor reads `methane_fraction` before any statement assigns it | any construction of a sludge digester | the methane fraction is stored as a parameter | not executed | AnaerobicReactors.SludgeDigester.NewAsWritten | AnaerobicReactors.SludgeDigester.constructor |
| qsdsan/utils/misc.py:52-54 | a slot in `same` is assigned and the function returns, skipping every later slot | slots `a`, `b` with `a` in `same` | every slot not skipped is copied or shared | not executed | Misc.AsWrittenStopsAtShared | Misc.CopiedMeaning |
