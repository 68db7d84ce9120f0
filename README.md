# Small-craft designer: the rules, the wizard and the CSV round trip

This project models the core of a Traveller small-craft designer (a
React/TypeScript application) in Dafny and proves properties of the model.
The core has three parts:

- **The rules tables and calculators of `src/data/constants.ts`.**
  - Tech levels and hull classes.
  - The 24 drive models sA-sZ: their specifications, the performance table by hull bracket, and the fuel burn of power plants and maneuver drives, including the reaction-drive burn test.
  - Ship weapons: availability by hull size, weapon limits, required gunners, and energy-weapon capacity and count.
  - Cockpits, cabins, airlocks and the ship's locker.
  - Hull codes and prices.
  - The three armor types.
- **The application shell of `src/App.tsx`.**
  - The blank design, and the total mass and cost breakdown.
  - Per-panel validity and the overweight test.
  - The panel order, with Next, Previous and Back.
  - The design update handlers. These are modelled as a `Wizard` class whose two fields (current panel and design) the methods update.
- **The two panels and the CSV exchange.**
  - The armor and drive panels' handlers (`ArmorPanel.tsx`, `DrivesPanel.tsx`). The drive panel's selection state is the `DriveSelection` class.
  - The CSV export of `SummaryPanel.tsx`.
  - The CSV import of `src/services/csvImportService.ts`.

Numbers are modelled as follows:
- Masses in tons, prices in credits and MCr, and hull tonnage are modelled as `real`.
- Whole counts (ratings, quantities, crew) are `int`.
- How JavaScript turns a number into text (`String(n)`, `toFixed`) is a parameter of the export (`CsvExport.Formats`).

Loops that update variables are methods with loop invariants, each proved against a specification function. Examples:
- `calculateTotalFuelRequirement`
- `calculateRequiredGunners`
- `getAvailableShipWeapons`
- `parseCSVLine`
- `parseCSVRows`
- the export's row-writing loops

The main results:
- **CSV line round trip.** `parseCSVLine` reads back every value `escapeCSV` writes, trimmed (`CsvExport.EscapeRoundTrip`). Every written row reads back as its four trimmed cells (`CsvExport.RowLineFields`).
- **CSV group round trip.** A group of rows written with the category on its first row only is read back by `parseCSVRows` with the category carried to every row (`CsvExport.GroupReadsBack`).
- **CSV header round trip.** The Name and Description lines the export writes are the ones `extractHeaderInfo` reads back (`CsvExport.HeaderReadsBack`). The Hull line reads back as the tonnage and price it shows (`CsvExport.HullLineReadsBack`).
- **Fittings quantity.** A quantity written as `xN` reads back as N (`CsvImport.FittingQuantityRoundTrip`).
- **Fuel and gunners.** The fuel requirement and the gunner count do not depend on the order of the parts (`DriveRules.FuelRequirementPermutation`, `WeaponRules.GunnersPermutation`).
- **Reaction drives.** The reaction-drive burn test is equivalent to a performance below 36, so it never removes a model from the table (`DriveRules.ReactionValidIff`, `DriveRules.AvailableForTypeIsAvailable`).
- **Armor.** A rating change stores the requested rating clamped to 1 .. the type's maximum (`ArmorHandlers.RatingChangeClamps`).
- **Wizard.** Next moves exactly one panel forward exactly when the panel is valid and the design is not overweight. Previous undoes a Next that moved (`App.NextStep`, `App.NextPreviousInverse`).

Where the application's own sources disagree with each other, the model follows these choices:
- `createNewDesign` in `src/App.tsx` builds a staff record with `navigator` and a numeric `engineer`, and a cargo record with only `amount`. The shared types in `src/types/ship.ts`, and the summary and import code, use `gunner`, boolean `engineer`/`comms`/`sensors`/`ecm`, and `cargoBay`/`shipsLocker`/`missileReloads`/`modularCutterBay`.
  - The model's `Staff` follows the shared type.
  - The model's `Cargo` holds both `amount`, which the mass total reads, and the itemised fields, which the export reads.
- The panel type includes a cargo panel that is not in the panel order. There `indexOf` gives -1, so the wizard can neither advance nor go back from it (`App.CargoPanelIsStuck`).
- Hull codes are written in lower case (`s1` .. `s10`). The import looks for the hull detail row with a pattern that needs a capital `S`. So a hull row exported without a description is read back as an ordinary `Hull` row instead of being skipped (`CsvExport.HullCodeRowNotSkipped`).

## Model

| member | source | states |
|---|---|---|
| DriveRules.ModelIndex | src/data/constants.ts:45-49 | every drive model has a position in `DRIVE_MODELS` holding that model |
| DriveRules.ModelIndexOfTable | src/data/constants.ts:45-49 | the position of the i-th model of `DRIVE_MODELS` is i: the table lists each model once |
| DriveRules.ParseModel | src/data/constants.ts:45-49 | a string read as a drive model is exactly that model's name |
| DriveRules.ParseModelName | src/data/constants.ts:45-49 | reading a model's name gives back the model (round trip) |
| DriveRules.ModelNameInjective | src/data/constants.ts:45-49 | two models with the same name are the same model |
| DriveRules.SpecTable | src/data/constants.ts:62-167 | each drive type has one specification per model |
| DriveRules.GetDriveSpec | src/data/constants.ts:170-172 | `getDriveSpec` returns the table entry of the type and model, with positive tonnage and cost |
| DriveRules.SpecIncreasing | src/data/constants.ts:62-167 | within a drive type, a later model is strictly heavier and dearer |
| DriveRules.Bracket | src/data/constants.ts:215-217 | the lookup bracket is the multiple of 10 with tonnage in (b-10, b] |
| DriveRules.PerformanceInBracket | src/data/constants.ts:215-221 | a tonnage in (10(k-1), 10k], 1 <= k <= 10, reads the k-th column of the model's `DRIVE_PERFORMANCE` row |
| DriveRules.PerformanceOutOfRange | src/data/constants.ts:215-221 | a tonnage of 0 or below, or above 100, has no performance (null) |
| DriveRules.PerformanceAtMost16 | src/data/constants.ts:187-221 | no table performance exceeds 16 |
| DriveRules.AvailableDriveModelsMembers | src/data/constants.ts:224-226 | a model is offered for a tonnage exactly when it has a performance there |
| DriveRules.AvailableDriveModelsOrdered | src/data/constants.ts:224-226 | the models offered keep `DRIVE_MODELS` order |
| DriveRules.FusionFuelByIndex | src/data/constants.ts:265-291 | the fusion table rises by half a ton every four models, from 1 ton at sA to 3.5 at sZ |
| DriveRules.ChemicalFuelByIndex | src/data/constants.ts:293-319 | the chemical table is 5 tons per model step, from 5 tons at sA to 120 at sZ |
| DriveRules.PowerPlantRateByModel | src/data/constants.ts:265-333 | a plant's two-week burn is the closed form of its type's table at the model's position; a maneuver drive type has none |
| DriveRules.PowerPlantFuelByModel | src/data/constants.ts:322-333 | the fuel for a period is the two-week burn times weeks/2, and zero for a maneuver drive type |
| DriveRules.PowerPlantFuelAdditive | src/data/constants.ts:322-333 | fuel for two periods is the sum of the fuel for each, and not negative for a non-negative period |
| DriveRules.PowerPlantFuelMonotone | src/data/constants.ts:265-333 | a later model of the same plant type never burns less over the same period |
| DriveRules.ChemicalBurnsMore | src/data/constants.ts:265-333 | a chemical plant burns strictly more than a fusion plant of the same model over any positive period |
| DriveRules.ManeuverFuelLinear | src/data/constants.ts:336-348 | a maneuver drive's burn is additive in the hours flown |
| DriveRules.ReactionValidIff | src/data/constants.ts:229-238 | a reaction drive is valid exactly when the model has a performance for the hull and it is below 36 |
| DriveRules.ReactionBurnTest | src/data/constants.ts:229-238 | for positive tonnage, one hour at performance p burns under 90% of the hull exactly when p < 36 |
| DriveRules.ReactionDriveAlwaysValid | src/data/constants.ts:229-238 | with table performances (at most 16), validity is just having a performance |
| DriveRules.AvailableDriveModelsForType | src/data/constants.ts:241-253 | the models for a type are among the models for the tonnage, and all of them for a non-reaction type |
| DriveRules.AvailableForTypeIsAvailable | src/data/constants.ts:241-253 | the reaction filter removes nothing: every type is offered every available model |
| DriveRules.CalculateTotalFuelRequirement | src/data/constants.ts:351-388 | the loop's sums equal the per-drive specification, and total is power plant plus maneuver |
| DriveRules.FuelRequirementPermutation | src/data/constants.ts:351-388 | the fuel requirement does not depend on the order of the drives |
| DriveRules.FuelRequirementIgnoresInert | src/data/constants.ts:364-378 | a drive without a drive type, or a maneuver drive without a (non-zero) performance, adds nothing |
| DriveRules.FuelRequirementIgnoresFuelless | src/data/constants.ts:351-388 | a jump drive or a gravitic maneuver drive adds no fuel |
| HullRules.TechLevelNumber | src/data/constants.ts:5-14 | every tech level letter stands for a number 10 .. 17 |
| HullRules.TechLevelLetter | src/data/constants.ts:5-14 | each tech level's letter is the one at its number's place in A .. H |
| HullRules.ParseTechLevel | src/data/constants.ts:5-14 | a string is a tech level exactly when it is one of the letters A .. H |
| HullRules.TechLevelOrderIsLetterOrder | src/data/constants.ts:35-37 | `isTechLevelAtLeast` compares tech levels as their letters compare |
| HullRules.TechLevelAtLeastOrder | src/data/constants.ts:35-37 | `isTechLevelAtLeast` is a total order: reflexive, total, transitive, antisymmetric |
| HullRules.HullClass | src/data/constants.ts:717-729 | every tonnage falls in hull class 1 .. 10 |
| HullRules.HullClassIsClampedBracket | src/data/constants.ts:717-729 | the class is ceil(tonnage/10) clamped into 1 .. 10 |
| HullRules.HullClassMonotone | src/data/constants.ts:717-729 | a heavier hull is never of a lower class |
| HullRules.HullCode | src/data/constants.ts:717-729 | `getHullCode` is "s" followed by the hull class in decimal |
| HullRules.HullCodeAbove100 | src/data/constants.ts:727-728 | a hull over 100 tons is coded s10 and priced 2 MCr |
| HullRules.HullCostByClass | src/data/constants.ts:731-744 | the price is 1 MCr for class 1 and 1 + k/10 MCr for class k >= 2 |
| HullRules.HullCostMonotone | src/data/constants.ts:731-744 | a heavier hull never costs less, and every hull costs 1 .. 2 MCr |
| HullRules.McrToCredits | src/data/constants.ts:747-749 | the credits are the MCr figure times a million |
| HullRules.HundredTonHullPrice | src/data/constants.ts:731-749 | a 100-ton hull is priced at 2,000,000 credits |
| ArmorRules.Definition | src/data/constants.ts:760-782 | every armor type has positive protection and cost figures |
| ArmorRules.MaxArmor | src/data/constants.ts:760-782 | the maximum is the tech level capped at 9 for titanium steel and at 13 for crystaliron, and the tech level itself for bonded superdense |
| ArmorRules.MaxArmorOrdered | src/data/constants.ts:760-782 | titanium steel <= crystaliron <= bonded superdense in maximum rating |
| ArmorRules.ArmorMass | src/data/constants.ts:785-797 | armor always weighs at least one ton |
| ArmorRules.ArmorMassShare | src/data/constants.ts:785-797 | the armor mass is the larger of 1 ton and the hull share tonnage x rating x 5 / (100 x protection per 5%) |
| ArmorRules.ArmorMassMonotone | src/data/constants.ts:785-797 | a higher rating never weighs less |
| ArmorRules.ArmorCostLinear | src/data/constants.ts:800-808 | armor cost is linear in the rating |
| ArmorRules.TitaniumOn40Tons | src/data/constants.ts:785-797 | two points of titanium steel on a 40-ton hull weigh 2 tons |
| ArmorRules.AvailableArmorTypesMembers | src/data/constants.ts:811-816 | a type is offered exactly when the string is a tech level whose number reaches the type's minimum |
| ArmorRules.AvailableArmorTypesMonotone | src/data/constants.ts:811-816 | a higher tech level offers every type a lower one does |
| ArmorRules.AvailableArmorTypesStartWithTitanium | src/data/constants.ts:811-816 | every tech level offers titanium steel then crystaliron first |
| ArmorRules.AvailableArmorTypesAtD | src/data/constants.ts:811-816 | TL D (13) offers titanium steel and crystaliron only |
| FittingRules.CockpitMass | src/data/constants.ts:633-652 | a cockpit weighs 1.5 tons and a control cabin 3 tons per crew position |
| FittingRules.ControlCabinDoubleCockpit | src/data/constants.ts:633-652 | a control cabin weighs twice a cockpit for the same crew |
| FittingRules.CockpitCostUnits | src/data/constants.ts:654-658 | a hull of more than 20(n-1) and at most 20n tons pays n x 100,000 credits for its cockpit |
| FittingRules.CockpitCostMonotone | src/data/constants.ts:654-658 | a larger hull never pays less for its cockpit |
| FittingRules.Passengers | src/data/constants.ts:660-663 | the passengers are half the crew rounded down: 2p <= crew < 2p + 2 |
| FittingRules.CabinCost | src/data/constants.ts:665-678 | at 1.5 tons a passenger and 50,000 credits a ton, a cabin costs 75,000 credits per passenger |
| FittingRules.CabinCostPerPassenger | src/data/constants.ts:665-678 | a cabin costs 75,000 credits per passenger, additively |
| FittingRules.AirlockCostPerTon | src/data/constants.ts:680-693 | airlock cost is 200,000 credits per ton of airlock |
| FittingRules.ShipsLockerCostLinear | src/data/constants.ts:703-710 | the ship's locker costs 0.2 MCr per ton, additively |
| WeaponRules.LookupShipWeapon | src/data/constants.ts:411-469 | a string names a ship weapon exactly when it is one of the `SHIP_WEAPONS` keys |
| WeaponRules.LookupKeyName | src/data/constants.ts:411-469 | looking up a weapon's key gives back the weapon (round trip) |
| WeaponRules.GetAvailableShipWeapons | src/data/constants.ts:472-482 | the result holds exactly the mountable weapons, each with its table entry |
| WeaponRules.MountableUnlessSmallBarbette | src/data/constants.ts:411-482 | the only weapon a hull cannot mount is the particle beam barbette under 40 tons |
| WeaponRules.WeaponLimitsByHullClass | src/data/constants.ts:529-548 | the limits are the table row of the hull class; the anti-personnel limit equals the class |
| WeaponRules.WeaponLimitsMonotone | src/data/constants.ts:529-548 | a heavier hull never allows fewer weapons; ship weapons stay within 1 .. 5 |
| WeaponRules.CalculateRequiredGunners | src/data/constants.ts:488-521 | the loop's count equals the specification: one per barbette, one for torpedoes, one per laser family present |
| WeaponRules.GunnersAtMostShipWeapons | src/data/constants.ts:488-521 | never more gunners than ship weapons |
| WeaponRules.GunnersPermutation | src/data/constants.ts:488-521 | the gunner count does not depend on the order of the weapons |
| WeaponRules.GunnersIgnoreQuantity | src/data/constants.ts:488-521 | only types and categories matter: quantities, names and ids do not |
| WeaponRules.GunnersAddBarbette | src/data/constants.ts:498-500 | each added barbette needs one more gunner |
| WeaponRules.GunnersSecondPulseLaser | src/data/constants.ts:506-518 | a second pulse laser turret needs no extra gunner |
| WeaponRules.GunnersIgnoreNonShip | src/data/constants.ts:493 | a weapon outside the ship category needs no gunner |
| WeaponRules.GunnersExample | src/data/constants.ts:485-521 | a single and a double pulse laser with a torpedo need two gunners |
| WeaponRules.CapacityByIndex | src/data/constants.ts:551-565 | a power plant powers at most three energy weapons |
| WeaponRules.EnergyWeaponCapacity | src/data/constants.ts:551-565 | no model, or a string that is not a model, gives 0; a model gives its band's capacity |
| WeaponRules.CapacityMonotone | src/data/constants.ts:551-565 | a later power plant model never powers fewer energy weapons |
| WeaponRules.CalculateTotalEnergyWeaponCapacity | src/data/constants.ts:569-582 | the loop's total is the sum of the power plants' capacities |
| WeaponRules.TotalCapacityFacts | src/data/constants.ts:569-582 | non-power-plant drives add nothing, and the order of the drives does not matter |
| WeaponRules.IsEnergyWeaponMatchesTable | src/data/constants.ts:585-591 | a ship weapon key is an energy weapon exactly when its table entry counts energy weapons |
| WeaponRules.CalculateEnergyWeaponCount | src/data/constants.ts:598-611 | the loop's count is the sum of the ship weapons' energy-weapon counts |
| WeaponRules.EnergyOfBounds | src/data/constants.ts:598-611 | each weapon counts 0 .. 3, and only ship-category energy weapons count |
| App.NewDesignIsEmpty | src/App.tsx:21-122 | a new design weighs nothing and costs nothing |
| App.CostBreakdownParts | src/App.tsx:52-122 | the total is the sum of the five parts; without armor the armor part is 0; armor adds its mass |
| App.FuelAndCargoAreFree | src/App.tsx:52-122 | fuel and cargo add mass but no cost |
| App.TotalsIgnoreOrder | src/App.tsx:52-122 | mass and cost do not depend on the order of drives, fittings or weapons |
| App.AddDriveTotals | src/App.tsx:52-122 | adding a drive adds its mass and cost times its quantity |
| App.IndexOf | src/App.tsx:171-180 | `indexOf` finds the panel's place in the order, or -1 for a panel outside it |
| App.NextStep | src/App.tsx:182-189 | Next moves exactly one panel forward exactly when the panel can advance and is not the last |
| App.PreviousStep | src/App.tsx:191-196 | Previous moves one panel back except from the first panel (and the cargo panel) |
| App.NextPreviousInverse | src/App.tsx:182-196 | Previous undoes a Next that moved; Next undoes a Previous where the panel gone back to can advance |
| App.CargoPanelIsStuck | src/App.tsx:171-196 | neither Next nor Previous leaves the cargo panel |
| App.NoDesignNoAdvance | src/App.tsx:130-189 | without a design no panel is valid, nothing is overweight, the mass is 0, and Next stays put |
| App.NewDesignStaysOnHull | src/App.tsx:130-189 | a new design cannot leave the hull panel before the hull is filled in |
| App.OverweightNeverAdvances | src/App.tsx:160-189 | an overweight design never advances |
| App.UpdatesAndMass | src/App.tsx:204-244 | a staff update keeps the mass; an armor update swaps the old armor's mass and cost for the new |
| App.UpdatesCommute | src/App.tsx:204-244 | updating the hull twice is updating it once, and updates of different parts commute |
| App.Wizard.constructor | src/App.tsx:15-18 | the wizard starts on the select panel with no design |
| App.Wizard.Next | src/App.tsx:182-189 | the panel becomes the next one by `NextPanel`; the design is unchanged |
| App.Wizard.Previous | src/App.tsx:191-196 | the panel becomes the previous one by `PreviousPanel`; the design is unchanged |
| App.Wizard.BackToSelect | src/App.tsx:198-201 | back to the select panel, with the design dropped |
| App.Wizard.SelectCraft | src/App.tsx:263-268 | a chosen craft becomes the design and opens the hull panel; no craft changes nothing |
| App.Wizard.CreateNew | src/App.tsx:270-273 | a new design on the hull panel |
| App.Wizard.UpdateHull | src/App.tsx:204-208 | the hull of the design, if any, is replaced; the panel is unchanged |
| App.Wizard.UpdateArmor | src/App.tsx:210-214 | the armor of the design, if any, is replaced; the panel is unchanged |
| App.Wizard.UpdateDrives | src/App.tsx:216-220 | the drives of the design, if any, are replaced; the panel is unchanged |
| App.Wizard.UpdateFuel | src/App.tsx:222-226 | the fuel of the design, if any, is replaced; the panel is unchanged |
| App.Wizard.UpdateFittings | src/App.tsx:228-232 | the fittings of the design, if any, are replaced; the panel is unchanged |
| App.Wizard.UpdateWeapons | src/App.tsx:234-238 | the weapons of the design, if any, are replaced; the panel is unchanged |
| App.Wizard.UpdateStaff | src/App.tsx:240-244 | the staff of the design, if any, are replaced; the panel is unchanged |
| App.WizardWalk | src/App.tsx:182-196 | a new design cannot advance from the hull panel, and Previous then returns to the select panel keeping the design |
| ArmorHandlers.TechLevelNumberOf | src/components/ArmorPanel.tsx:19 | the hull's tech level number is 10 .. 17, or 0 exactly when the string is no tech level |
| ArmorHandlers.DerivedArmor | src/components/ArmorPanel.tsx:29-34 | the record's mass and cost are the armor rules for its own type, rating and hull |
| ArmorHandlers.FirstArmorTypeIsTitanium | src/components/ArmorPanel.tsx:23-25 | the first type found is titanium steel from TL 7 on, none below |
| ArmorHandlers.Toggle | src/components/ArmorPanel.tsx:21-40 | turning armor on yields a consistent one-point armor |
| ArmorHandlers.ToggleOutcome | src/components/ArmorPanel.tsx:21-40 | on with a tech level gives one point of titanium steel, an offered type; off or no tech level removes the armor; the handler always updates |
| ArmorHandlers.TypeChange | src/components/ArmorPanel.tsx:42-55 | no armor gives no update; otherwise a consistent armor of the new type |
| ArmorHandlers.TypeChangeRating | src/components/ArmorPanel.tsx:42-55 | the rating is kept when the new type allows it and lowered to the new maximum otherwise |
| ArmorHandlers.RatingChange | src/components/ArmorPanel.tsx:57-70 | no armor gives no update; otherwise a consistent armor of the same type |
| ArmorHandlers.RatingChangeClamps | src/components/ArmorPanel.tsx:57-70 | the stored rating is the requested one clamped into 1 .. maximum, 1 winning when the maximum is below 1 |
| ArmorHandlers.RatingChangeIdempotent | src/components/ArmorPanel.tsx:57-70 | setting the same rating twice is setting it once |
| ArmorHandlers.RatingChangeWithinTable | src/components/ArmorPanel.tsx:57-70 | on a hull with a tech level the stored rating is within 1 .. the type's maximum |
| DriveHandlers.NewDrive | src/components/DrivesPanel.tsx:29-41 | a new drive carries the chosen category, type and model, rating 1, quantity 1, and its specification's mass and cost |
| DriveHandlers.AddDrive | src/components/DrivesPanel.tsx:29-42 | the new drive is appended and the others are kept in order |
| DriveHandlers.RemoveDrive | src/components/DrivesPanel.tsx:44-46 | no kept drive has the id, and every drive with another id is kept (their order and repetitions: `RemoveDriveSplits`) |
| DriveHandlers.RemoveDriveCount | src/components/DrivesPanel.tsx:44-46 | exactly the drives with the id are removed |
| DriveHandlers.RemoveDriveSplits | src/components/DrivesPanel.tsx:44-46 | removal goes drive by drive: a drive with the id is dropped and any other stays in its place, so the kept drives keep their order and repetitions |
| DriveHandlers.RemoveThenAdd | src/components/DrivesPanel.tsx:29-46 | removing a just-added drive's id undoes the add |
| DriveHandlers.ApplyUpdateConsistent | src/components/DrivesPanel.tsx:48-66 | a model or type change re-derives mass and cost from the table for the new type and model; an update naming neither keeps a consistent drive consistent; the update fails exactly when it names a type or model and the effective type is missing or the effective model unknown |
| DriveHandlers.ApplyUpdateFields | src/components/DrivesPanel.tsx:48-66 | every field the update sets is taken and the others kept, except mass and cost when re-derived |
| DriveHandlers.UpdateDrive | src/components/DrivesPanel.tsx:48-66 | same length; drives with another id unchanged; the drive with the id updated; failure exactly when an updated drive fails |
| DriveHandlers.UpdateUnknownId | src/components/DrivesPanel.tsx:48-66 | updating an id no drive has changes nothing |
| DriveHandlers.TypeSelectKeepsConsistent | src/components/DrivesPanel.tsx:155-167 | choosing a drive type on a drive with a valid model yields a drive consistent with its specification |
| DriveHandlers.ModelSelectKeepsConsistent | src/components/DrivesPanel.tsx:171-181 | choosing a model on a drive with a type yields a drive consistent with its specification |
| DriveHandlers.FuelChangeGetSet | src/components/DrivesPanel.tsx:68-70 | the changed field reads the new value, the other fields are kept, a second change overrides the first, and writing a field's own value changes nothing |
| DriveHandlers.AvailableDriveTypes | src/components/DrivesPanel.tsx:73-78 | each category offers two drive types |
| DriveHandlers.AvailableDriveTypesPartition | src/components/DrivesPanel.tsx:73-78 | every drive type belongs to exactly one of maneuver and power plant; maneuver types burn no plant fuel |
| DriveHandlers.DriveSelection.constructor | src/components/DrivesPanel.tsx:25-27 | the selection starts at gravitic, sA, maneuver, and is valid |
| DriveHandlers.DriveSelection.ChangeCategory | src/components/DrivesPanel.tsx:90-96 | the category is set and the type reset to the category's first, so the selection stays valid |
| DriveHandlers.DriveSelection.ChangeType | src/components/DrivesPanel.tsx:105-108 | the type is set, nothing else changes, and the selection stays valid |
| DriveHandlers.DriveSelection.ChangeModel | src/components/DrivesPanel.tsx:119-122 | the model is set and nothing else changes |
| DriveHandlers.DriveSelection.AddSelected | src/components/DrivesPanel.tsx:29-42 | adds the selected drive, whose type belongs to its category |
| CsvImport.ParseCsvLine | src/services/csvImportService.ts:99-130 | the loop's values are the fields of the line by the scanning specification |
| CsvImport.ScanStep | src/services/csvImportService.ts:107-123 | the four cases of one character: doubled quote inside quotes, a quote toggling, a comma outside quotes, any other character |
| CsvImport.FieldCount | src/services/csvImportService.ts:99-130 | a line has one more field than it has commas outside quotes |
| CsvImport.FieldsTrimmed | src/services/csvImportService.ts:99-130 | every field is trimmed |
| CsvImport.ScanPlain | src/services/csvImportService.ts:99-130 | text without quotes or commas is copied into the current field |
| CsvImport.ScanQuoted | src/services/csvImportService.ts:99-130 | a quoted span with doubled quotes reads back as the undoubled text |
| CsvImport.ParseCsvRows | src/services/csvImportService.ts:135-178 | the rows are those of the non-blank lines of the split content |
| CsvImport.ScanRows | src/services/csvImportService.ts:142-177 | the loop over lines yields the rows of the specification |
| CsvImport.BlankLinesIgnored | src/services/csvImportService.ts:136 | a blank line anywhere changes nothing |
| CsvImport.HeaderGate | src/services/csvImportService.ts:146-151 | every line up to and including the first Category header is dropped |
| CsvImport.NoHeaderNoRows | src/services/csvImportService.ts:146-151 | without a header line there are no rows |
| CsvImport.RowsShape | src/services/csvImportService.ts:135-178 | at most one row per line, every row well formed, and no row without a category once one is set |
| CsvImport.RowsOfLinesShape | src/services/csvImportService.ts:135-178 | every row of a whole text is well formed |
| CsvImport.CategoryCarriesForward | src/services/csvImportService.ts:159-174 | a row with a blank category takes the one above, with missing tons and cost read as "0" |
| CsvImport.CategoryStarts | src/services/csvImportService.ts:159-174 | a row with its own category starts it for the rows below |
| CsvImport.StripCsvExtension | src/services/csvImportService.ts:28 | the name is the file name, or the file name without its last four characters |
| CsvImport.StripCsvExtensionCuts | src/services/csvImportService.ts:28 | a name followed by ".csv" in any mix of cases gives back the name |
| CsvImport.StripCsvExtensionKeeps | src/services/csvImportService.ts:28 | a file name with no point four characters from its end, or shorter than four, is kept unchanged |
| CsvImport.LabelledValue | src/services/csvImportService.ts:37-38 | a labelled value is what follows a case-insensitive label, and is not empty |
| CsvImport.HeaderValue | src/services/csvImportService.ts:34-70 | a header value is found only on a trimmed line starting with the label |
| CsvImport.HullNumbers | src/services/csvImportService.ts:72-82 | the hull numbers are found only on a line starting with "hull," and are not negative |
| CsvImport.DecimalOfNumeral | src/services/csvImportService.ts:72-82 | the pattern's `\d+(?:\.\d+)?` reads a numeral as its value, stopping at the first character that cannot continue it |
| CsvImport.AfterTonsWritten | src/services/csvImportService.ts:72-82 | " tons," followed by anything reads as the units and their comma, leaving what follows |
| CsvImport.HullNumbersOfLine | src/services/csvImportService.ts:72-82 | "Hull,<a> tons,<b> MCr" with numerals a and b reads as the values of a and b |
| CsvImport.HullNumbersOfWholeNumbers | src/services/csvImportService.ts:72-82 | "Hull,<n> tons,<m> MCr" with whole numbers written in decimal reads as n and m |
| CsvImport.ExtractHeaderInfo | src/services/csvImportService.ts:25-94 | the hull tonnage and cost read are never negative |
| CsvImport.LabelsDisjoint | src/services/csvImportService.ts:34-82 | no line is both a Name and a Description line, nor either and a Hull line |
| CsvImport.NoHeaderLines | src/services/csvImportService.ts:25-94 | without header lines the name is the file's and the whole content is handed on |
| CsvImport.AllHeaderLines | src/services/csvImportService.ts:25-94 | Name, Description and Hull lines in order are all read and the rest handed on |
| CsvImport.NameLineFirst | src/services/csvImportService.ts:34-70 | after a Name line, the line below is the one looked at for a description |
| CsvImport.DescriptionBeforeNameIgnored | src/services/csvImportService.ts:34-85 | the header lines are looked for in order: a Name line after the description is left in the content |
| CsvImport.ParseFloatOfNumeral | src/services/csvImportService.ts:305-306 | the decimal text of a whole number reads back as that number |
| CsvImport.FittingQuantityRoundTrip | src/services/csvImportService.ts:297-299 | an item ending in " xN" reads as quantity N and its trimmed name |
| CsvImport.FittingWithoutQuantity | src/services/csvImportService.ts:297-299 | an item not ending in a digit has quantity 1 and is its own (trimmed) name |
| CsvImport.FittingOfRow | src/services/csvImportService.ts:297-308 | every imported fitting is of type "other" with the parsed name and non-negative quantity, mass and cost |
| CsvImport.ImportFittings | src/services/csvImportService.ts:295-310 | the fittings are those of the Fittings rows, in order |
| CsvImport.NumberFittings | src/services/csvImportService.ts:296-309 | the loop numbers the fitting rows from 0 |
| CsvImport.SeqOfFittings | src/services/csvImportService.ts:295-310 | there is one fitting per Fittings row |
| CsvImport.ImportedHull | src/services/csvImportService.ts:196-204 | a positive tonnage gets its hull code, otherwise none; the name, tonnage and cost come from the header; tech level A |
| CsvImport.ImportFromCsv | src/services/csvImportService.ts:185-310 | the design takes the header's name, description and hull, and the fittings of the rows; armor, drives and weapons are empty, and fuel, cargo and staff are the skeleton's zero values and single pilot |
| CsvExport.EscapeCsv | src/components/SummaryPanel.tsx:24-30 | a value without comma, quote or newline is written as it is; any other is quoted and its inner text undoubles to the value |
| CsvExport.ScanEscaped | src/components/SummaryPanel.tsx:24-30 | an escaped value before a comma or the line's end is read as one field holding the value |
| CsvExport.EscapeRoundTrip | src/components/SummaryPanel.tsx:24-30 | `parseCSVLine` reads back an escaped value as that value trimmed |
| CsvExport.RowLineFields | src/components/SummaryPanel.tsx:55-57 | a written row reads back as its four trimmed cells |
| CsvExport.Labelled | src/components/SummaryPanel.tsx:68-97 | a group has one row per entry, the heading on the first only |
| CsvExport.AddGroup | src/components/SummaryPanel.tsx:68-75 | the loop with its `first` flag writes the lines of the labelled group |
| CsvExport.HullCodeRowNotSkipped | src/services/csvImportService.ts:165-167 | a hull row written from the lower-case hull code is not the hull detail row the import skips |
| CsvExport.ExportCsv | src/components/SummaryPanel.tsx:20-170 | the text is the header lines and the body rows joined with newlines |
| CsvExport.WriteDesignRows | src/components/SummaryPanel.tsx:60-109 | the hull, armor, drive, fuel, fitting and weapon rows are written in that order |
| CsvExport.WriteManifestRows | src/components/SummaryPanel.tsx:112-167 | the cargo, staff, crew total and totals rows are written in that order |
| CsvExport.AddRow | src/components/SummaryPanel.tsx:55-57 | one row appends its line |
| CsvExport.AddTotals | src/components/SummaryPanel.tsx:164-167 | the four totals rows are appended |
| CsvExport.WeaponRowsUnarmed | src/components/SummaryPanel.tsx:100-109 | no weapons gives the single Unarmed row; otherwise one row per weapon, none of them Unarmed |
| CsvExport.CargoListing | src/components/SummaryPanel.tsx:112-126 | the cargo costs total the locker's 0.2 MCr per ton; every listed item has tons; the cutter bay comes last |
| CsvExport.TotalCrewListed | src/components/SummaryPanel.tsx:139-154 | the total crew is the sum of the listed staff counts, pilots first |
| CsvExport.FittingTextReadsBack | src/components/SummaryPanel.tsx:81-97 | an "xN" suffix reads back as quantity N; a fitting of quantity 1 reads back as quantity 1 and its name |
| CsvExport.GroupReadsBack | src/components/SummaryPanel.tsx:68-97 | a written group is read back row by row with the heading carried to every row |
| CsvExport.HeaderValuesWritten | src/components/SummaryPanel.tsx:37-46 | the first lines of the export are the Name line and, with a description, the Description line |
| CsvExport.HeaderReadsBack | src/components/SummaryPanel.tsx:37-46 | the import reads back the exported name, and the description when one was written |
| CsvExport.HullLineReadsBack | src/components/SummaryPanel.tsx:46 | the import reads the exported Hull line back as the tonnage and the MCr price it shows, when both are written as plain numerals |

## Left out

- Rendering (JSX), styling, the browser download (`Blob`, links) and `window.print` are left out: they are output, not logic.
- Saving to IndexedDB, `src/services/database.ts`, `src/services/initialDataService.ts` and the scripts under `scripts/` are left out: they are storage and I/O.
- `HullPanel`, `FittingsPanel`, `WeaponsPanel`, `CargoPanel`, `StaffPanel` and `SelectSmallCraftPanel` are not part of this model. They only call the calculators modelled here.
- Floating point is left out: masses and prices are exact reals, so rounding in sums and products such as `0.025 * performance` is not modelled.
- Number formatting (`String(n)`, `toFixed(1)`, `toFixed(2)`, `toLocaleString`) is a parameter (`CsvExport.Formats`): its output is not modelled.
- Because the Hull line of the export carries the total cost and not the hull cost, a whole-design round trip does not hold. It is not claimed; only the name, the description, the groups of rows and the fittings quantity are proved to read back.
- The import's regular-expression parsing of armor, drives, fuel, weapons, cargo and staff rows (src/services/csvImportService.ts:230-386) is left out. `CsvImport.ImportFromCsv` reads the header, the hull and the fittings; the other parts stay as the skeleton has them.
- CsvImport.ParseFloatOrZero: reads unsigned decimals only (no sign, no exponent, no `Infinity`). Those are never written by the export for the quantities read.
- CsvImport.ParseCsvRows: values that hold a newline break the line-level reading, as they do in the source (`split('\n')` comes before quote handling). The round-trip lemmas require single-line values.
- DriveRules.CalculateTotalFuelRequirement: a drive's model is a `DriveModel` value, while the source takes any string (src/data/constants.ts:351-356). An unknown model string, which gives NaN fuel there, cannot be written in the model.
- ArmorHandlers.RatingChange: the armor type is an `ArmorType` value, so an unknown type key, where `ARMOR_TYPES[key]` is undefined and the source throws (src/components/ArmorPanel.tsx:57-70), cannot be written in the model.
- ArmorHandlers.TypeChange: the new type is an `ArmorType` value for the same reason, so the throw on an unknown key (src/components/ArmorPanel.tsx:42-55) is not modelled.
- CsvImport.ImportFromCsv: the imported cargo record has no `amount` in the source (undefined); the model stores 0.
- `Date.now()` ids are a parameter (`id`) of `DriveHandlers.AddDrive`.
- DriveHandlers.UpdateDrive: where the source would throw (a drive without a drive type, or an unknown model, when the specification is looked up), the model returns `None`.
- DriveHandlers.DriveSelection.ChangeCategory: requires a maneuver or power-plant category, as the select offers only those two. Jump drives exist in the types but have no drive types.
- Electronics fittings' text uses only `dieModifier`: the other electronics fields do not reach the logic modelled.
- The sum of `cargo.amount` in the mass total and the itemised cargo fields in the export are kept side by side, as the two source files read different fields.
- `getDriveDisplayName`, `formatPerformanceRating` and the other display helpers are modelled only as far as the export's text uses them.
