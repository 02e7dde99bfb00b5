# Water-treatment decision core, modelled in Dafny

This project models the rule engine and the state-keeping core of a water-treatment
design and reuse web application:

- **Water classification.** A water-quality sample (pH, TDS, turbidity, BOD, COD, total nitrogen, temperature and a heavy-metals flag) is classified into one of five water types by a priority cascade.
- **Rule-based recommendations.** The sample drives the chemical and equipment recommendations, the dose formulas, and the reuse purposes whose limits the final effluent meets.
- **Simulator.** A three-stage treatment simulator carries turbidity, BOD and total nitrogen through percentage removals.
- **Cost calculator.** It prices the simulator's doses against doses typed in by hand.
- **Display logic.** The process-flow diagram picks which treatment trains to show. The microbial card turns a lab result into a status badge.
- **State.** The in-memory store keeps listings, a hash-chained ledger and scheduled bio checks. The marketplace page keeps a wallet, listings and a transaction history.

One Dafny module models each source file; `Common` holds the shared pieces:
- `Option`;
- `Math.round` as `Round(x) = ⌊x + 1/2⌋`;
- ASCII case mapping and substring search;
- a generic rule table, `Rule<T>`/`Fired`: the entries of the rules that fire, in order.

Numbers are Dafny `real`s. The model follows each file's own form:
- **Functions:** the pure code.
- **Methods with loops and invariants:** the code that builds arrays by `push` or accumulates in a loop. Each method is proved equal to a specification function.
- **Classes:** the stores and pages whose fields the handlers replace. They carry `modifies` clauses and whole-state postconditions.

Three consequences of the code are worth stating outright:
- **A moderately loaded sample.** The sample pH 7, TDS 1000, turbidity 3, BOD 10, COD 50, TN 8, 25 °C is TYPE_3. BOD, COD and TN give the Type 3 vote three points (`WaterClassification.ModerateLoadExample`).
- **Cost efficiency.** Efficiency is 0 whenever the current cost is not positive.
- **The chemical list.** The list never holds more than seven entries, because Polymer (turbidity < 10) never comes with a coagulant (turbidity > 20).

## Model

| member | source | states |
|---|---|---|
| WaterClassification.DefFor | frontend/src/utils/waterClassification.js:4-126 | the catalogue entry of type k carries id k |
| WaterClassification.CatalogueWellFormed | frontend/src/utils/waterClassification.js:4-126 | TYPE_k is keyed by its own code, has id k, and its severity is the k-th step of very_low..very_high |
| WaterClassification.Type4Checks | frontend/src/utils/waterClassification.js:168-178 | the six "high" checks of the sewage-like type, in source order |
| WaterClassification.Type3Checks | frontend/src/utils/waterClassification.js:180-190 | the six "moderately elevated" band checks of the industrial type, in source order |
| WaterClassification.IsType1 | frontend/src/utils/waterClassification.js:130-141 | a potable sample is never red-alert and wins neither the Type 3 nor the Type 4 vote, so the cascade reaches the Type 1 check |
| WaterClassification.IsType2 | frontend/src/utils/waterClassification.js:143-154 | a domestic sample is never red-alert and wins neither the Type 3 nor the Type 4 vote |
| WaterClassification.IsType5 | frontend/src/utils/waterClassification.js:156-166 | apart from a temperature above 60 °C, every red-alert extreme also casts a Type 4 "high" vote |
| WaterClassification.Type4Vote | frontend/src/utils/waterClassification.js:168-178 | a Type 4 majority always includes one of the BOD, COD, turbidity or TDS checks; nitrogen and temperature alone never suffice |
| WaterClassification.Type3Vote | frontend/src/utils/waterClassification.js:180-190 | a Type 3 majority always includes one of the TDS, turbidity, BOD or COD bands; nitrogen and temperature alone never suffice |
| WaterClassification.CountSix | frontend/src/utils/waterClassification.js:170-177 | the score of a six-check table is the sum of one point per check that holds |
| WaterClassification.IsType4 | frontend/src/utils/waterClassification.js:168-178 | the score-counting loop answers true exactly when at least three of the six checks hold |
| WaterClassification.IsType3 | frontend/src/utils/waterClassification.js:180-190 | the score-counting loop answers true exactly when at least three of the six band checks hold |
| WaterClassification.ClassifyWaterType | frontend/src/utils/waterClassification.js:197-205 | Type 5 wins whenever it holds; any result is a catalogue entry whose predicate holds; null exactly when no predicate holds |
| WaterClassification.FirstHolding | frontend/src/utils/waterClassification.js:199-204 | the first type in a priority list whose predicate holds, none exactly when none holds |
| WaterClassification.ClassifyIsFirstMatch | frontend/src/utils/waterClassification.js:197-205 | the cascade returns the first type holding in the order 5, 4, 3, 1, 2 |
| WaterClassification.Type1WithinType2 | frontend/src/utils/waterClassification.js:130-154 | every potable sample is inside the domestic bands, so TYPE_2 is only returned for samples that are not potable |
| WaterClassification.HighBodAloneIsType5 | frontend/src/utils/waterClassification.js:156-166 | BOD above 80 alone makes the sample TYPE_5 |
| WaterClassification.BoundaryPotableExample | frontend/src/utils/waterClassification.js:130-141 | a sample just inside every potable band is TYPE_1 |
| WaterClassification.PotableBandsButHighBodExample | frontend/src/utils/waterClassification.js:199 | potable bands with BOD 90 are caught as TYPE_5 first |
| WaterClassification.ModerateLoadExample | frontend/src/utils/waterClassification.js:180-190 | BOD 10, COD 50, TN 8 win three industrial votes: TYPE_3 |
| ChemicalLogic.ChemicalRules | frontend/src/utils/chemicalLogic.js:7-41 | the ten rules of the selector, in source order |
| ChemicalLogic.SelectedUpToIsFired | frontend/src/utils/chemicalLogic.js:4-43 | building push by push gives the entries of the firing rules among the first k |
| ChemicalLogic.SelectedIsTable | frontend/src/utils/chemicalLogic.js:4-43 | the selection is exactly the entries of the rules that fire |
| ChemicalLogic.ChemicalSelectionLogic | frontend/src/utils/chemicalLogic.js:1-44 | the list the method pushes equals the selection of the rule table |
| ChemicalLogic.SelectedShape | frontend/src/utils/chemicalLogic.js:7-41 | the list is the first eight rules' entries followed by exactly one disinfectant, and holds between 1 and 7 entries |
| ChemicalLogic.CountByRule | frontend/src/utils/chemicalLogic.js:7-41 | the count of a chemical is the sum over the rules that fire and carry it |
| ChemicalLogic.SelectedMember | frontend/src/utils/chemicalLogic.js:7-41 | an entry is selected exactly when the one rule carrying it fires |
| ChemicalLogic.ExactlyOneDisinfectant | frontend/src/utils/chemicalLogic.js:34-41 | UV is selected iff turbidity < 1, Chlorine iff turbidity ≥ 1, and never both |
| ChemicalLogic.NoDisinfectantBefore | frontend/src/utils/chemicalLogic.js:7-31 | none of the first eight rules names a disinfectant |
| ChemicalLogic.UvCount | frontend/src/utils/chemicalLogic.js:34-37 | UV appears once when turbidity < 1, otherwise not at all |
| ChemicalLogic.ChlorineCount | frontend/src/utils/chemicalLogic.js:38-41 | Chlorine appears once when turbidity ≥ 1, otherwise not at all |
| ChemicalLogic.AtMostOneCoagulant | frontend/src/utils/chemicalLogic.js:7-8 | PAC for turbidity above 100, Alum for (20, 100], never both |
| ChemicalLogic.PacListedTwice | frontend/src/utils/chemicalLogic.js:7-10 | high turbidity and low pH together list PAC twice (no deduplication) |
| ChemicalLogic.DapImpliesUrea | frontend/src/utils/chemicalLogic.js:23-31 | DAP is only recommended together with Urea |
| ChemicalLogic.UvImpliesPolymer | frontend/src/utils/chemicalLogic.js:8-14 | UV implies Polymer, and Polymer never comes with Alum |
| ChemicalLogic.SelectedInRuleOrder | frontend/src/utils/chemicalLogic.js:7-41 | entries appear in the order of their rules |
| EquipmentLogic.EquipmentSelectionLogic | frontend/src/utils/equipmentLogic.js:1-38 | the three pushed lists equal the entries of the firing rules of each stage |
| EquipmentLogic.PrimaryStartsWithScreen | frontend/src/utils/equipmentLogic.js:11-13 | the primary stage starts with the bar screen above 100 NTU and the coarse screen otherwise |
| EquipmentLogic.TertiaryEndsWithCarbon | frontend/src/utils/equipmentLogic.js:35 | the tertiary stage always ends with the activated carbon filter |
| EquipmentLogic.OneMembraneAtMost | frontend/src/utils/equipmentLogic.js:29-30 | RO exactly above 5000 TDS, nano-filtration exactly in (1500, 5000], never both |
| EquipmentLogic.StageSizes | frontend/src/utils/equipmentLogic.js:11-35 | primary has 1–3 units, secondary at most 2, tertiary 1–3 |
| EquipmentLogic.SecondaryByLoad | frontend/src/utils/equipmentLogic.js:22-26 | BOD above 80 selects both secondary units; BOD ≤ 30 with COD ≤ 400 selects none |
| EquipmentLogic.FlashMixerImpliesOxidation | frontend/src/utils/equipmentLogic.js:18-19 | the flash mixer (COD > 300) always comes with advanced oxidation (COD > 250) |
| EquipmentLogic.IgnoresTemperatureAndPh | frontend/src/utils/equipmentLogic.js:2 | samples agreeing on TDS, turbidity, BOD, COD and heavy metals get the same plan |
| DoseCalculator.CalculateDoses | frontend/src/utils/doseCalculator.js:1-12 | polymer is 1 iff turbidity < 10 (else 0); antiscalant 4 iff TDS > 1500 (else 0); no PAC at or below 100 NTU; no ozone at or below 250 COD; non-negative inputs give non-negative doses |
| DoseCalculator.EachDoseReadsOneInput | frontend/src/utils/doseCalculator.js:4-11 | alum, PAC and polymer depend only on turbidity, chlorine on BOD, antiscalant on TDS, ozone on COD |
| DoseCalculator.DosesMonotone | frontend/src/utils/doseCalculator.js:5-8 | more turbidity never lowers alum; more BOD never lowers chlorine |
| DoseCalculator.ModerateTurbidityExample | frontend/src/utils/doseCalculator.js:5-10 | 50 NTU with nothing else needs 15 mg/L alum and no other dose |
| Common.Round | frontend/src/utils/doseCalculator.js:5-10 | Math.round: the integer within half a unit, halves rounded up |
| ReusePurposeClassifier.FailuresOf | frontend/src/utils/reusePurposeClassifier.js:80-84 | a failure is recorded exactly when the measured value exceeds its limit, and it records that measured value; some failure is present exactly when the limits are not met |
| ReusePurposeClassifier.RejectAll | frontend/src/utils/reusePurposeClassifier.js:75-85 | one rejection per purpose, in order |
| ReusePurposeClassifier.ClassifyReusePurposes | frontend/src/utils/reusePurposeClassifier.js:6-90 | the loop's two lists are the allowed and the rejected purposes of the ten-entry table, in table order |
| ReusePurposeClassifier.PartitionSizes | frontend/src/utils/reusePurposeClassifier.js:63-87 | every purpose lands in exactly one list |
| ReusePurposeClassifier.AllowedMember | frontend/src/utils/reusePurposeClassifier.js:64-74 | a purpose is allowed iff it is in the table and every value is at or below its limit |
| ReusePurposeClassifier.RejectionsExplained | frontend/src/utils/reusePurposeClassifier.js:75-85 | every rejection names a table purpose the water misses and carries at least one failure |
| ReusePurposeClassifier.PurposesLimitsNonDecreasing | frontend/src/utils/reusePurposeClassifier.js:7-58 | the table's limits never decrease from one purpose to the next |
| ReusePurposeClassifier.AllowedIsSuffix | frontend/src/utils/reusePurposeClassifier.js:63-87 | with non-decreasing limits, the allowed purposes are a suffix of the table and the rejected ones the matching prefix |
| ReusePurposeClassifier.AllMet | frontend/src/utils/reusePurposeClassifier.js:63-87 | when every purpose is met, all are allowed and none is rejected |
| ReusePurposeClassifier.NoneMetAtAll | frontend/src/utils/reusePurposeClassifier.js:63-87 | when no purpose is met, none is allowed and each is rejected |
| ReusePurposeClassifier.TableSplitsIntoPrefixAndSuffix | frontend/src/utils/reusePurposeClassifier.js:6-90 | for the real table, the allowed purposes are its last entries and the rejected ones its first |
| ReusePurposeClassifier.CleanEffluentExample | frontend/src/utils/reusePurposeClassifier.js:7-58 | 0.8 NTU, 2 BOD, 4 TN are fit for all ten purposes |
| ReusePurposeClassifier.PoorEffluentExample | frontend/src/utils/reusePurposeClassifier.js:7-84 | 15 NTU, 25 BOD, 20 TN are fit for none, and every rejection records all three failures |
| MockApi.ChainExtends | frontend/src/services/mockApi.js:73-78 | an appended entry keeps the chain linked iff it points back to the last hash |
| MockApi.PrefixLinked | frontend/src/services/mockApi.js:73-78 | every prefix of a linked ledger is linked |
| MockApi.FindListing | frontend/src/services/mockApi.js:88 | the index of the first listing with the id; none exactly when no listing has it |
| MockApi.FindSnapshot | frontend/src/services/mockApi.js:117 | the index of the first snapshot with the id; none exactly when no snapshot has it |
| MockApi.SellerOr | frontend/src/services/mockApi.js:85 | a missing or empty seller falls back to "seller"; any other seller is kept |
| MockApi.DecimalStringInjective | frontend/src/services/mockApi.js:108 | different clock readings print differently |
| MockApi.BioIdsDistinct | frontend/src/services/mockApi.js:108 | bio checks scheduled at different milliseconds get different ids |
| MockApi.Store.constructor | frontend/src/services/mockApi.js:60-61 | the store starts empty |
| MockApi.Store.AppendLedger | frontend/src/services/mockApi.js:73-78 | exactly one entry is appended, pointing back to the previous last hash; the chain stays linked |
| MockApi.Store.ListListings | frontend/src/services/mockApi.js:80-82 | returns the listings and changes nothing |
| MockApi.Store.CreateListing | frontend/src/services/mockApi.js:83-86 | stores the item unsold and logs one "listing" entry by the seller or "seller" |
| MockApi.Store.BuyListing | frontend/src/services/mockApi.js:87-94 | an unknown id changes nothing; otherwise only the first matching listing becomes sold to the buyer at the sale's clock reading, and one "purchase" entry stamped by a separate clock reading is logged |
| MockApi.Store.GetLedger | frontend/src/services/mockApi.js:95-97 | returns the ledger and changes nothing |
| MockApi.Store.SaveSimulation | frontend/src/services/mockApi.js:100-102 | logs one "simulation" entry by "engineer" |
| MockApi.Store.ScheduleBioCheck | frontend/src/services/mockApi.js:106-112 | appends and returns a result-less snapshot due inDays (default 7) days after one clock reading, with an id from a second reading, for the target (default "Secondary"), and logs one "bio_schedule" entry |
| MockApi.Store.ListBioSnapshots | frontend/src/services/mockApi.js:113-115 | returns the snapshots and changes nothing |
| MockApi.Store.UploadBioResult | frontend/src/services/mockApi.js:116-121 | an unknown id changes nothing; otherwise only the first matching snapshot gets the result, and one "bio_result" entry is logged |
| Marketplace.WithoutId | frontend/src/pages/MarketplacePage.jsx:85 | keeps exactly the listings whose id differs |
| Marketplace.WithoutIdRemovesOne | frontend/src/pages/MarketplacePage.jsx:85 | with distinct ids, buying listing k removes exactly it and keeps the others in order |
| Marketplace.WithoutIdKeepsDistinct | frontend/src/pages/MarketplacePage.jsx:85 | filtering keeps listing ids distinct |
| Marketplace.MaxId | frontend/src/pages/MarketplacePage.jsx:101 | the largest id, or 0 for no listings |
| Marketplace.NextId | frontend/src/pages/MarketplacePage.jsx:101 | a posted listing's id is positive and above every existing id |
| Marketplace.PrependTransaction | frontend/src/pages/MarketplacePage.jsx:73-82 | numbering a new transaction n + 1 keeps ids distinct within 1..n+1 |
| Marketplace.PrependFreshListing | frontend/src/pages/MarketplacePage.jsx:109 | prepending a listing with a fresh id keeps ids distinct |
| Marketplace.MarketplacePage.constructor | frontend/src/pages/MarketplacePage.jsx:7-54 | the sample wallet, listings and transactions, an empty form and a closed modal |
| Marketplace.MarketplacePage.HandleBuyWater | frontend/src/pages/MarketplacePage.jsx:57-86 | too few coins changes nothing; otherwise pays quantity × price, credits the water, logs a "Bought" transaction first and drops the listing; coins never go negative through a purchase |
| Marketplace.MarketplacePage.HandlePostWater | frontend/src/pages/MarketplacePage.jsx:89-133 | an empty field changes nothing; otherwise prepends the listing with a fresh id and a "Sold" transaction, credits coins and reused water, resets the form and closes the modal |
| CostEfficiency.PriceForKey | frontend/src/components/CostEfficiencyCalculator.jsx:16-25 | the price is one of the table's prices; any key mentioning alum costs 12; the PAC price applies exactly to pac keys without alum or coagulant |
| CostEfficiency.FirstMatchPrice | frontend/src/components/CostEfficiencyCalculator.jsx:16-25 | the price of the first step of an ordered keyword table that the key mentions; the fallback 50 when no step matches |
| CostEfficiency.PriceIsFirstMatch | frontend/src/components/CostEfficiencyCalculator.jsx:7-25 | the if-chain equals the first match over the steps alum/coagulant, pac, polymer, chlorine, antiscalant, ozone, with the fallback 50 |
| CostEfficiency.CoagulantCostsAlum | frontend/src/components/CostEfficiencyCalculator.jsx:18 | a key mentioning coagulant costs the alum price |
| CostEfficiency.UnmatchedKeyCostsFallback | frontend/src/components/CostEfficiencyCalculator.jsx:24 | a key containing none of the seven keywords costs 50 |
| CostEfficiency.PriceIgnoresCase | frontend/src/components/CostEfficiencyCalculator.jsx:17 | the lookup ignores letter case |
| CostEfficiency.AlumBeforePac | frontend/src/components/CostEfficiencyCalculator.jsx:18-19 | a key naming both alum and PAC is priced as alum |
| CostEfficiency.UnderscoresToSpaces | frontend/src/components/CostEfficiencyCalculator.jsx:33 | every underscore becomes a space, nothing else changes |
| CostEfficiency.RemoveDose | frontend/src/components/CostEfficiencyCalculator.jsx:34 | the result is never longer than the text; text without "dose" in any letter case is unchanged; text with an occurrence gets strictly shorter |
| CostEfficiency.HasDoseIsContains | frontend/src/components/CostEfficiencyCalculator.jsx:34 | the occurrence test used by the removal agrees with a case-insensitive search for "dose" in the text |
| CostEfficiency.RemoveDoseKeepsCharacters | frontend/src/components/CostEfficiencyCalculator.jsx:34 | every character of the result is a character of the text |
| CostEfficiency.RemoveDoseAfter | frontend/src/components/CostEfficiencyCalculator.jsx:34 | a prefix with no "d" or "D" is kept, ahead of whatever the rest of the text becomes |
| CostEfficiency.RemoveDoseExample | frontend/src/components/CostEfficiencyCalculator.jsx:34 | "alumDose" becomes "alum" |
| CostEfficiency.RemoveDoseDoesNotRescan | frontend/src/components/CostEfficiencyCalculator.jsx:34 | "ddoseose" becomes "dose": the text is scanned once, and the "dose" that a removal brings together stays |
| CostEfficiency.LeadingBlanks | frontend/src/components/CostEfficiencyCalculator.jsx:35 | counts the blank characters at the start of the text: all of them are blank and the next one, if any, is not |
| CostEfficiency.TrailingBlanks | frontend/src/components/CostEfficiencyCalculator.jsx:35 | counts the blank characters at the end of the text: all of them are blank and the one before them, if any, is not |
| CostEfficiency.Trim | frontend/src/components/CostEfficiencyCalculator.jsx:35 | the result is a slice of the text with only blank characters cut off at the two ends, and neither of its ends is blank; text without blank ends is kept; all-blank text becomes empty |
| CostEfficiency.CapitalizeWords | frontend/src/components/CostEfficiencyCalculator.jsx:36 | the length, which positions hold word characters and every character's lower-case form are kept; no word start is left lower-case; every other position is unchanged |
| CostEfficiency.PrettifyKey | frontend/src/components/CostEfficiencyCalculator.jsx:28-37 | any key mentioning pac is labelled "PAC"; other labels are no longer than the key |
| CostEfficiency.NoPacKey | frontend/src/components/CostEfficiencyCalculator.jsx:29-30 | a key in which no "p" (in any case) is followed by an "a" does not take the PAC branch |
| CostEfficiency.CapitalizeOneWord | frontend/src/components/CostEfficiencyCalculator.jsx:36 | a single word gets its first character upper-cased and nothing else changed |
| CostEfficiency.AlumDoseLabel | frontend/src/components/CostEfficiencyCalculator.jsx:27-37 | "alumDose" is labelled "Alum" |
| CostEfficiency.PolymerDoseLabel | frontend/src/components/CostEfficiencyCalculator.jsx:27-37 | "polymer_dose" is labelled "Polymer": the underscore becomes a space, "dose" is dropped and trimming removes the space |
| CostEfficiency.CamelDoseLabel | frontend/src/components/CostEfficiencyCalculator.jsx:27-37 | a lower-case word without "d" and without "pa", followed by "Dose", is labelled as the word with its first letter upper-cased |
| CostEfficiency.SnakeDoseLabel | frontend/src/components/CostEfficiencyCalculator.jsx:27-37 | the same word followed by "_dose" gets the same label |
| CostEfficiency.LabelShape | frontend/src/components/CostEfficiencyCalculator.jsx:32-36 | a label never starts or ends with blank space and never starts with a lower-case letter |
| CostEfficiency.BuildRows | frontend/src/components/CostEfficiencyCalculator.jsx:56-75 | no dose object gives no rows; otherwise one row per entry, numbered from 1, keyed, labelled and priced by the key, with no manual dose; the system dose is the entry's number, and a non-numeric dose counts as 0 |
| CostEfficiency.WithManual | frontend/src/components/CostEfficiencyCalculator.jsx:77-83 | only the manual dose of rows carrying the key changes |
| CostEfficiency.MassFactor | frontend/src/components/CostEfficiencyCalculator.jsx:53 | the factor is non-negative and 0 exactly when the flow is missing or not positive |
| CostEfficiency.TotalsOf | frontend/src/components/CostEfficiencyCalculator.jsx:85-123 | the costs are the manual and system cost sums (all zero for a zero mass factor); savings are their difference only once a manual dose above 0 is entered; efficiency is savings over current cost in percent, 0 without a manual dose or a positive current cost |
| CostEfficiency.ComputeTotals | frontend/src/components/CostEfficiencyCalculator.jsx:85-123 | the loop's totals are the cost sums of the rows; a zero mass factor gives all zeros; no manual dose above 0 gives zero savings and efficiency |
| CostEfficiency.SystemCostNonNegative | frontend/src/components/CostEfficiencyCalculator.jsx:96-109 | non-negative doses give a non-negative optimised cost |
| CostEfficiency.EfficiencyBounded | frontend/src/components/CostEfficiencyCalculator.jsx:114-120 | efficiency never exceeds 100 %, and a positive saving shows a positive efficiency |
| CostEfficiency.BuiltRowsPricesPositive | frontend/src/components/CostEfficiencyCalculator.jsx:70 | every row's price is positive |
| CostEfficiency.Calculator.OnDosesChanged | frontend/src/components/CostEfficiencyCalculator.jsx:56-75 | the rows are rebuilt from the dose object |
| CostEfficiency.Calculator.HandleManualChange | frontend/src/components/CostEfficiencyCalculator.jsx:77-83 | the row count is kept and rows with another key are unchanged |
| TreatmentSimulator.LoadAfter | frontend/src/components/TreatmentSimulator.jsx:45-51 | the unrounded load after k stages is the influent scaled by the product of the stages' kept fractions (1 − removal/100) |
| TreatmentSimulator.Capitalize | frontend/src/components/TreatmentSimulator.jsx:53 | the length and every character's lower-case form are kept, everything after the first character is unchanged, and the first character is not lower-case |
| TreatmentSimulator.RowLabelsInOrder | frontend/src/components/TreatmentSimulator.jsx:29-53 | the rows are labelled Influent, Primary, Secondary, Tertiary |
| TreatmentSimulator.Simulate | frontend/src/components/TreatmentSimulator.jsx:28-61 | exactly four rows; row k is the rounded load after the first k stages, each stage keeping (1 − removal/100) of the unrounded previous value |
| TreatmentSimulator.ExpectedRowsAt | frontend/src/components/TreatmentSimulator.jsx:28-61 | the first n rows of the table number n, and row k is labelled as row k and rounds the load after k stages |
| TreatmentSimulator.Preview | frontend/src/components/TreatmentSimulator.jsx:63-66 | the preview is the rounded tertiary effluent |
| TreatmentSimulator.StageNonIncreasing | frontend/src/components/TreatmentSimulator.jsx:46-51 | a stage with removals in 0..100 never raises a non-negative value or makes it negative |
| TreatmentSimulator.LoadsNonIncreasing | frontend/src/components/TreatmentSimulator.jsx:45-58 | with slider-range removals and non-negative influent, neither the unrounded nor the rounded values rise from stage to stage |
| TreatmentSimulator.ZeroEfficiencyKeepsLoad | frontend/src/components/TreatmentSimulator.jsx:48-50 | 0 % removal everywhere leaves the influent unchanged |
| TreatmentSimulator.FullRemovalStaysRemoved | frontend/src/components/TreatmentSimulator.jsx:48 | 100 % turbidity removal in a stage leaves zero turbidity in every later row |
| TreatmentSimulator.FullBodRemovalStaysRemoved | frontend/src/components/TreatmentSimulator.jsx:49 | 100 % BOD removal in a stage leaves zero BOD in every later row |
| TreatmentSimulator.FullTnRemovalStaysRemoved | frontend/src/components/TreatmentSimulator.jsx:50 | 100 % nitrogen removal in a stage leaves zero TN in every later row |
| TreatmentSimulator.StageZeroAndFull | frontend/src/components/TreatmentSimulator.jsx:48-50 | per stage and per parameter, 0 % removal keeps the value and 100 % removal sets it to 0 |
| TreatmentSimulator.DefaultTurbidityExample | frontend/src/components/TreatmentSimulator.jsx:19-23 | the initial efficiencies take 120 NTU to 3.84 NTU |
| TreatmentSimulator.PayloadOf | frontend/src/components/TreatmentSimulator.jsx:86-94 | pH, TDS and turbidity pass through, BOD goes to bod and COD to cod; temperature defaults to 25; the heavy-metals flag is present only when it is set to true |
| TreatmentSimulator.PayloadOmitsUnsentFields | frontend/src/components/TreatmentSimulator.jsx:86-94 | total nitrogen, flow, volume and reuse purpose do not reach the payload |
| ProcessFlowDiagram.CatalogueWellFormed | frontend/src/components/ProcessFlowDiagram.jsx:5-82 | entry k has id k + 1 and every train starts with "Screening" |
| ProcessFlowDiagram.FirstDigitRun | frontend/src/components/ProcessFlowDiagram.jsx:90 | none exactly when the id has no digit; otherwise a non-empty run of digits |
| ProcessFlowDiagram.DigitPrefix | frontend/src/components/ProcessFlowDiagram.jsx:90 | the longest leading run of digits |
| ProcessFlowDiagram.DigitsValue | frontend/src/components/ProcessFlowDiagram.jsx:91 | parseInt of a digit run: 0 for no digits, the digit itself for one, and below 10 to the number of digits |
| ProcessFlowDiagram.DigitsValueAppend | frontend/src/components/ProcessFlowDiagram.jsx:91 | appending a digit multiplies the value by ten and adds the digit |
| ProcessFlowDiagram.WithId | frontend/src/components/ProcessFlowDiagram.jsx:94 | keeps exactly the entries with the id |
| ProcessFlowDiagram.TypeNumber | frontend/src/components/ProcessFlowDiagram.jsx:90-91 | there is no type number exactly when the id has no digit |
| ProcessFlowDiagram.Displayed | frontend/src/components/ProcessFlowDiagram.jsx:85-97 | the display is the whole catalogue or exactly one of its trains |
| ProcessFlowDiagram.ShowingAllTypes | frontend/src/components/ProcessFlowDiagram.jsx:99-100 | all types are shown exactly when the whole catalogue is displayed |
| ProcessFlowDiagram.WithIdIsSubsequence | frontend/src/components/ProcessFlowDiagram.jsx:94 | the filter keeps a sub-sequence |
| ProcessFlowDiagram.WithIdUnique | frontend/src/components/ProcessFlowDiagram.jsx:94 | filtering for an id only one entry carries leaves that entry |
| ProcessFlowDiagram.DisplayedIsSubsequence | frontend/src/components/ProcessFlowDiagram.jsx:85-97 | the display is always a sub-sequence of the catalogue |
| ProcessFlowDiagram.SelectedNumberShowsOne | frontend/src/components/ProcessFlowDiagram.jsx:90-95 | a type number k in 1..5 shows exactly entry k, so not all types |
| ProcessFlowDiagram.UnmatchedShowsAll | frontend/src/components/ProcessFlowDiagram.jsx:86-96 | no selection, a falsy id, no digits or a number outside 1..5 shows the whole catalogue |
| ProcessFlowDiagram.ShowingAllIffWholeCatalogue | frontend/src/components/ProcessFlowDiagram.jsx:99-100 | all types are shown iff the display is the catalogue; otherwise exactly one is shown |
| ProcessFlowDiagram.TwoDigitTypeShowsAll | frontend/src/components/ProcessFlowDiagram.jsx:90-96 | "TYPE_12" shows every train |
| ProcessFlowDiagram.TypeThreeShowsOne | frontend/src/components/ProcessFlowDiagram.jsx:90-95 | "TYPE_3" shows only the recycle-grade train |
| MicrobialCard.StatusOf | frontend/src/components/MicrobialCard.jsx:14-15 | alert iff no result; critical iff E. coli > 20 or virus > 3; normal iff both are at or below their limits |
| MicrobialCard.CriticalIsUpwardClosed | frontend/src/components/MicrobialCard.jsx:15 | raising either count never moves a result from critical to normal |
| MicrobialCard.BoundaryIsNormal | frontend/src/components/MicrobialCard.jsx:15 | E. coli 20 and virus 3 are normal |
| MicrobialCard.BadgeFor | frontend/src/components/MicrobialCard.jsx:3-11 | the badge is one of the table's three badges, and the Normal one for a level outside the table; the badge is empty exactly for a name inherited from Object.prototype |
| MicrobialCard.BadgeShowsStatus | frontend/src/components/MicrobialCard.jsx:3-21 | each status has its own, non-empty badge labelled with its capitalised name |
| MicrobialCard.UnknownLevelShowsNormal | frontend/src/components/MicrobialCard.jsx:9 | a level that is neither a table key nor an inherited Object.prototype name shows the green "Normal" badge |
| MicrobialCard.InheritedNameShowsEmptyBadge | frontend/src/components/MicrobialCard.jsx:9 | a level such as "toString" picks up an inherited member and renders an empty badge, not the Normal one |

## Left out

- Floating point: numbers are exact reals, so IEEE-754 rounding, NaN and infinities are not modelled. `Math.round` is ⌊x + 1/2⌋.
- Parsing: `parseFloat`, `Number(...)` and text inputs are modelled by their parsed result. An `Option<real>` is None when the text does not parse or is empty.
- Formatting: `toFixed`, `toLocaleString` and ISO date strings are not modelled. The ledger notes keep the values their template strings interpolate instead of the formatted text.
- `shaSimple` is not modelled. It mixes `Math.random` and the clock into the hash, so each hash is an opaque parameter.
- Clock readings: `Date.now()` and the ISO time strings are parameters, one per reading the code takes.
- The `_listings`/`_bio` aliasing is not modelled. `listListings` and `listBioSnapshots` return copies of the array that still share element objects with the store, and this sharing is not captured.
- Extra fields that `createListing` spreads from its argument are not modelled.
- Marketplace.MarketplacePage.HandlePostWater: non-empty form text that does not parse as a number is not modelled. It would pass the guard and post NaN values.
- Display timestamps of marketplace listings and the `alert(...)` pop-ups are not modelled.
- `getMockTimeseries`, `getMockAlerts`, `getMockSensors`, `getMockModelInsights` and `exportCsv` are not modelled: they are random data generators and DOM output.
- Case mapping is modelled for ASCII only. `toLowerCase`/`toUpperCase` on other characters is not modelled. The keywords searched for and the `\w` class are ASCII.
- Dose-object entry order: the order of `Object.entries` is taken as the given sequence of entries.
- Heavy-metals shape: the simulator sends the flag wrapped as `{present: ...}`. The rule engine takes a plain boolean, and converting between the two shapes is glue code outside this model.
- The recommendation service call (`fetch`), its error messages and the `onSimulate` callback are not modelled. They are network I/O; only the payload they send is modelled.
- Presentational JSX, charts, animations and styling are not modelled.
