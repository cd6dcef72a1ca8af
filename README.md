# EcoWatt solar calculators — a Dafny model

EcoWatt is a set of browser calculators for small off-grid and hybrid solar
installations, with a project store that keeps each calculator's data for a
client. This project models their decision logic.

- **Load audit.** A table of appliances adds up to a peak power and a daily energy. The audit recommends an inverter and hands its figures to the other pages.
- **Battery calculator.** Computes the runtime of a given battery, or selects a battery capacity for a target time from per-chemistry market sizes.
- **Cable calculator.** Sizes the fuse and the conductor of a two-wire DC run. The thermal limit is read off an ampacity table and the voltage-drop limit comes from the resistive drop. It reports the losses.
- **Winter Voc check.** Computes the open-circuit voltage of a panel string in the cold, for the site's minimum temperature and for −25 °C. It compares both with the inverter's input limit.
- **Project manager.** Keeps a list of saved projects and an active project. Modules write their data into named slots of the active project. Saving upserts the active project by id.

All arithmetic is exact (`real`), not IEEE-754 doubles. `Math.ceil`,
`Math.floor` and `Math.round` are written with `.Floor`; `Math.round` is
`floor(x + 0.5)`. JavaScript's truncating `%` is written out as `JsRem`.
`parseFloat(x) || d` appears as `OrDefault(f, d)` on a `Field`, an optional
real in which `None` stands for NaN or an empty field. The clock, the URL
flag and the `confirm`/`prompt` answers are parameters.

Files, one module each:

- `js_numbers.dfy`: JavaScript number idioms.
- `handoff.dfy`: the `ecowatt_project` hand-off record and its twelve-hour freshness.
- `cable.dfy`, `battery.dfy`, `load_audit.dfy`, `winter_voc.dfy`, `project_manager.dfy`: one per calculator and the store.
- `session.dfy`: how the pages work together.

Pure calculations are functions, each with lemmas that state what its result
means. The pages' mutable state is modelled as classes: the cable page's
input mode, the battery page's tab and fields, the audit table's rows and the
store's database and active project. Their methods are proved against those
functions. The loops of the source are methods with invariants: the thermal
scan, the audit sums, the save and restore loops, and the `findIndex` in the
save of the store.

Three behaviours of the code that the model keeps:

- **Fuse fallback.** The fuse falls back to rounding up to ten only when the load current exceeds 250 A. From 200 A to 250 A it stays at 250 A, below 125% of the current (`FuseRatingCapped`). 3000 W at 12 V overflows with a 250 A fuse (`TwelveVoltThreeKilowatts`).
- **Thermal scan order.** The thermal scan visits the ampacity tables in JavaScript own-key order (section 10.1.11.1 of ECMA-262). That order is 4 … 95 and then 1.5 and 2.5, so the scan never picks 1.5 mm² (`ThermalSkipsThinEntries`).
- **Cable import.** The cable page's import does not check the record's version tag (`ImportIgnoresVersion`).

## Model

| member | source | states |
|---|---|---|
| JsNumbers.CeilToTenSpec | cable-calc.js:103 | `Math.ceil(x/10)*10` is at or above x, less than ten above it, and a multiple of ten |
| JsNumbers.CeilToTenMonotone | battery-calc.js:160 | rounding up to ten never lowers a larger requirement below a smaller one |
| JsNumbers.FirstAtLeastIsLeast | cable-calc.js:98 | on an ascending list, the entry `find(v => v >= x)` returns is the least entry at or above x, and a larger threshold never finds an earlier or smaller entry |
| JsNumbers.AdjacentMakesAscending | cable-calc.js:26 | a list whose neighbours rise is strictly ascending; this is how the fuse, cable and capacity catalogues are shown sorted |
| CableCalc.Resistivity | cable-calc.js:5-8 | both resistivities are positive |
| CableCalc.AmpacityTableFacts | cable-calc.js:15-23 | the visiting order of each ampacity table: 4 … 95 mm² first with rising currents, 95 mm² carrying the most, and the non-integer keys last with less current than the first entry |
| CableCalc.FuseSizesFacts | cable-calc.js:26 | the fuse catalogue is strictly ascending, from 6 A to 250 A |
| CableCalc.CableSizesFacts | cable-calc.js:11 | the cable catalogue is strictly ascending, from 1.5 mm² to 95 mm² |
| CableCalc.LoadCurrent | cable-calc.js:88-93 | a positive load gives a positive current |
| CableCalc.LoadCurrentSpec | cable-calc.js:88-93 | in watts mode current × voltage is the power; in amps mode it is the figure typed in; a missing load is no current |
| CableCalc.StandardFuseIsLeast | cable-calc.js:97-100 | the rating is the least catalogue fuse at or above the target, or 250 A when the target is beyond the catalogue |
| CableCalc.FuseRatingStandard | cable-calc.js:97-100 | up to 200 A of load, the fuse is the least catalogue rating at or above 125% of the current |
| CableCalc.FuseRatingCapped | cable-calc.js:99-103 | between 200 A and 250 A the fuse is exactly 250 A, which is below 125% of the current |
| CableCalc.FuseRatingRounded | cable-calc.js:101-103 | above 250 A the fuse is 125% of the current rounded up to a multiple of ten |
| CableCalc.ThermalIndex | cable-calc.js:107-118 | the scan stops at the first entry, in visiting order, whose current reaches the fuse; every entry before it carries less |
| CableCalc.ThermalSize | cable-calc.js:107-118 | the thermal size lies between 4 mm² and 95 mm² |
| CableCalc.ThermalSizeSpec | cable-calc.js:107-118 | the thermal size is a catalogue size of at least 4 mm²; when some entry carries the fuse current, the chosen entry does; otherwise the size is clamped to 95 mm² |
| CableCalc.ThermalScan | cable-calc.js:107-118 | the `for…of`/`break` scan with the fallback to 95 computes ThermalSize |
| CableCalc.ThermalSkipsThinEntries | cable-calc.js:111 | a 16 A fuse gets 4 mm² in copper, although the 1.5 mm² entry carries 19 A |
| CableCalc.DropCrossSectionSpec | cable-calc.js:122-126 | the raw section is the one whose two-way resistance drops exactly the allowed share of the voltage |
| CableCalc.DropSize | cable-calc.js:127-130 | the drop size lies between 1.5 mm² and 95 mm² |
| CableCalc.DropSizeSpec | cable-calc.js:127-130 | the drop size is the least catalogue size at or above the raw section, or 95 mm² beyond the catalogue |
| CableCalc.Calculate | cable-calc.js:79-85 | the placeholder exactly when the load or the distance is missing, zero or negative |
| CableCalc.Reconcile | cable-calc.js:95-149 | with a positive current and distance the result is never the placeholder |
| CableCalc.SizedRun | cable-calc.js:133-163 | the final size is the larger of the two sizes; the drop is the limit exactly when strictly larger (ties go to the thermal size); the loss is positive; a positive saving is reported exactly when the thermal size is thinner, otherwise the ten-hour loss in kWh |
| CableCalc.SizedStructure | cable-calc.js:95-149 | the fuse is the rating for the load current; overflow exactly when the raw drop section passes 95 mm² or 125% of the current passes 330 A; a sized run's final size is a catalogue size, the larger of the two, with the limit named as above |
| CableCalc.LossComparisonSpec | cable-calc.js:153-163 | the loss at the final size is positive; the saving against the thinner thermal size is positive; otherwise the figure is the loss over ten hours in kWh |
| CableCalc.LossOrder | cable-calc.js:153-158 | the resistive loss I²·2Lρ/S is positive and falls strictly as the section grows |
| CableCalc.CopperCoversFuse | cable-calc.js:107-118 | a sized copper run never rests on a clamped thermal size: the chosen entry carries the fuse current |
| CableCalc.FuseWithinCopperTable | cable-calc.js:143 | below the overflow guard the fuse never passes 330 A |
| CableCalc.AluminiumSilentClamp | cable-calc.js:116-118 | 170 A in aluminium gets a 250 A fuse that no aluminium entry carries; the thermal size is clamped to 95 mm² and the run is still reported as sized |
| CableCalc.TwelveVoltThreeKilowatts | cable-calc.js:97-149 | 3000 W at 12 V over 10 m in copper overflows with a 250 A fuse |
| CableCalc.FortyEightVoltTwentyAmps | cable-calc.js:71-185 | 20 A at 48 V over 30 m at 2%: 25 A fuse, 4 mm² thermal, 21.875 mm² raw, 25 mm² final limited by the drop, 16.8 W lost, 88.2 W saved |
| CableCalc.StandardFuseMonotone | cable-calc.js:98 | a larger target never gets a smaller catalogue fuse |
| CableCalc.FuseRatingMonotone | cable-calc.js:97-103 | a larger current never gets a smaller fuse, across both fallbacks |
| CableCalc.ThermalSizeMonotone | cable-calc.js:107-118 | a larger fuse never gets a thinner thermal size |
| CableCalc.DropSizeMonotone | cable-calc.js:127-130 | a larger raw section never gets a thinner drop size |
| CableCalc.DropCrossSectionMonotone | cable-calc.js:122-126 | a larger current never needs a thinner raw section |
| CableCalc.MonotoneInLoad | cable-calc.js:71-149 | raising the load never lowers the current, the fuse or the final size, and never turns an overflow back into a size |
| CableCalc.ImportedPower | cable-calc.js:194-217 | a power is imported exactly when the record is at most twelve hours old and its peak is positive; it is the peak rounded to whole watts |
| CableCalc.ImportIgnoresVersion | cable-calc.js:198-207 | the import does not depend on the version tag |
| CableCalc.Displayed | cable-calc.js:79-184 | the outputs after a run: a size exactly for a sized run, "> 95" exactly for an overflow, a fuse unless the result is the placeholder; the loss line is rewritten only for a sized run |
| CableCalc.CablePage.constructor | cable-calc.js:47 | the page starts in watts mode with the given fields |
| CableCalc.CablePage.Recalculate | cable-calc.js:71-185 | `calculate` on the page's fields, with the outputs refreshed |
| CableCalc.CablePage.Toggle | cable-calc.js:52-67 | the toggle switches only the input mode and recalculates |
| CableCalc.CablePage.ImportFromProject | cable-calc.js:194-236 | a fresh positive peak switches to watts, writes the rounded power and recalculates; otherwise the page is unchanged |
| CableCalc.CablePage.SavePayload | cable-calc.js:241-256 | the save request carries the cable, fuse and loss as displayed |
| BatteryCalc.Standards | battery-calc.js:155 | an unknown chemistry has an empty list |
| BatteryCalc.StandardsAscending | battery-calc.js:17-22 | every chemistry's capacity list is strictly ascending |
| BatteryCalc.SplitMinutesExact | battery-calc.js:129-131 | for a non-negative total, hours × 60 + minutes is the total with 0 ≤ minutes < 60, and the hours are the floor |
| BatteryCalc.NegativeMinutesSplit | battery-calc.js:130-131 | with JavaScript's `%`, −1 minute splits into −1 h and −1 min, which do not add back up |
| BatteryCalc.Calculate | battery-calc.js:103-166 | "enter a load" exactly when the load is not positive; "--" exactly when the capacity (runtime tab) or the target time (capacity tab) is not positive; runtime figures only in the runtime tab, capacity figures only in the capacity tab |
| BatteryCalc.RuntimeMeaning | battery-calc.js:117-131 | usable energy is V·C·DoD·η, the runtime times the load is that energy, and the hours and minutes shown add up to the whole minutes of a non-negative runtime |
| BatteryCalc.RequiredSpec | battery-calc.js:146-151 | the requirement, taken back through voltage, DoD and efficiency, is the energy over the target time plus 15% |
| BatteryCalc.RecommendedSpec | battery-calc.js:157-161 | the recommendation covers the requirement; it is the least listed size that qualifies, otherwise the requirement rounded up to ten, less than ten above it |
| BatteryCalc.RecommendedForChemistry | battery-calc.js:155-161 | every chemistry's recommendation covers the requirement; an unknown chemistry always takes the rounding |
| BatteryCalc.CapacityMeaning | battery-calc.js:138-163 | the capacity figures: the requirement as RequiredSpec states, the headline as its ceiling, and the recommendation from the chemistry's list |
| BatteryCalc.RecommendedCoversTarget | battery-calc.js:115-163 | with positive voltage, DoD and efficiency, a battery of the recommended capacity, in the runtime tab with the same load, runs at least the target time |
| BatteryCalc.CoverageArithmetic | battery-calc.js:124-151 | a capacity at or above the requirement stores at least the energy the target time needs |
| BatteryCalc.DefaultsActAsValues | battery-calc.js:104-107 | an empty or zero voltage, DoD or efficiency behaves exactly like the typed-in default |
| BatteryCalc.AuditEnergyToImport | battery-calc.js:172-192 | energy is imported exactly when the version is "1.0", the record is at most twelve hours old, the page came from the audit and the energy is positive |
| BatteryCalc.AuditLoad | battery-calc.js:204-205 | the load written is the day's energy over 24 h, rounded to whole watts, within half a watt |
| BatteryCalc.BatteryPage.constructor | battery-calc.js:245 | the page starts in the runtime tab, with the chemistry's DoD written into its field |
| BatteryCalc.BatteryPage.UpdateDoDFromType | battery-calc.js:92-97 | a known chemistry writes its preset DoD; an unknown one leaves the field alone |
| BatteryCalc.BatteryPage.SelectChemistry | battery-calc.js:83-86 | changing the chemistry updates the DoD and recalculates |
| BatteryCalc.BatteryPage.CloseExpert | battery-calc.js:72-81 | closing the expert panel restores the preset DoD and an efficiency of 0.9, then recalculates |
| BatteryCalc.BatteryPage.SelectTab | battery-calc.js:54-70 | a tab click changes only the mode and recalculates in it |
| BatteryCalc.BatteryPage.ApplyAuditData | battery-calc.js:199-238 | the capacity tab, a 24 h target and the rounded daily average in the load field, then a recalculation |
| BatteryCalc.BatteryPage.CheckImport | battery-calc.js:172-197 | when the gate lets the record through, the audit data is applied; otherwise the page is unchanged |
| LoadAudit.NewRow | load-audit.js:51-58 | without data a blank 0 W row with one unit for one hour; with data its name and power; quantity and time are never zero |
| LoadAudit.NewRowDefaults | load-audit.js:57-58 | a falsy quantity becomes 1; a truthy `hours` wins over `time`, which wins over 1 |
| LoadAudit.SumsAppend | load-audit.js:88-101 | the totals split over any division of the table |
| LoadAudit.SumsNonNegative | load-audit.js:88-101 | with no negative cell, both totals are non-negative, and no peak means no energy |
| LoadAudit.InverterKwSpec | load-audit.js:113-114 | the inverter size is a multiple of 0.5 kW, at least 0.5 kW and at least the recommendation; exactly 0.5 kW up to 500 W, less than 0.5 kW above the recommendation beyond that |
| LoadAudit.InverterKwLeast | load-audit.js:113-114 | no smaller half-kilowatt step of at least 0.5 kW covers the recommendation |
| LoadAudit.SimFactor | load-audit.js:105 | the simultaneity factor is the typed value, or 0.7 when the field is blank, unreadable or zero; never zero |
| LoadAudit.Summarize | load-audit.js:103-121 | the simultaneous peak is the raw peak times the simultaneity factor, the recommended power is that plus 20%, the kW figure is its rounding, and the energy in kWh is the energy over a thousand |
| LoadAudit.Packet | load-audit.js:174-186 | the transfer record carries version "1.0", the click's time, the unrounded daily energy and the unrounded recommended power |
| LoadAudit.SaveRow | load-audit.js:204-209 | a saved row keeps the name, with unreadable cells saved as 0 |
| LoadAudit.SavedRows | load-audit.js:203-210 | one saved row per table row, in order |
| LoadAudit.RestoredRows | load-audit.js:246-250 | one restored row per saved row, in order, each built by `addRow` |
| LoadAudit.SaveRestoreRoundTrip | load-audit.js:203-250 | save then restore gives back the rows in order, each normalised (a zero quantity or time becomes 1) |
| LoadAudit.NormalisedStable | load-audit.js:57-58 | a second save and restore changes nothing more; rows with non-zero cells keep their figures |
| LoadAudit.PresetRowFigures | load-audit.js:51-58 | a preset row contributes its catalogue power and power × hours |
| LoadAudit.PresetsFacts | load-audit.js:3-17 | every preset has a positive power and positive hours |
| LoadAudit.AuditTable.constructor | load-audit.js:46-47 | the page starts with the lighting and router rows |
| LoadAudit.AuditTable.AddRow | load-audit.js:51-82 | `addRow` appends one row at the bottom |
| LoadAudit.AuditTable.AddPreset | load-audit.js:129-134 | adding a preset appends its row and raises the totals by its power and its daily energy |
| LoadAudit.AuditTable.RemoveRow | load-audit.js:71-74 | removing a row keeps the others in order and lowers the totals by that row's figures |
| LoadAudit.AuditTable.Calculate | load-audit.js:83-124 | two passes, the totals loop and then the cell loop, give each row's rounded energy cell and the summary of the table's totals |
| LoadAudit.AuditTable.Totals | load-audit.js:88-101 | the accumulation loop computes the sums of power × quantity and of power × quantity × time |
| LoadAudit.AuditTable.Transfer | load-audit.js:156-193 | the transfer button builds the record from the table's totals |
| LoadAudit.AuditTable.Save | load-audit.js:200-222 | the save collects every row in order and the raw simultaneity text |
| LoadAudit.AuditTable.Restore | load-audit.js:231-255 | a saved slot with rows replaces the whole table and a non-empty factor replaces the field; anything else leaves the page alone |
| WinterVoc.ReplaceCommas | winter-voc.js:26 | every comma becomes a dot and nothing else changes |
| WinterVoc.Strip | winter-voc.js:26 | only digits, dots and minus signs remain |
| WinterVoc.StripAppend | winter-voc.js:26 | the filter works part by part: filtering a concatenation filters each part and joins the results |
| WinterVoc.StripChar | winter-voc.js:26 | a single character survives exactly when it is a digit, a dot or a minus sign; with StripAppend this fixes the filtered text of every input |
| WinterVoc.ReplaceCommasAppend | winter-voc.js:26 | the comma replacement also works part by part |
| WinterVoc.NoiseIgnored | winter-voc.js:24-29 | text with no digit, dot, minus sign or comma (a unit, a space, a letter) typed anywhere in a field does not change what it reads as |
| WinterVoc.NormalizeSpec | winter-voc.js:26 | a normalised string has no comma and only digits, dots and minus signs, and normalising again changes nothing |
| WinterVoc.ParseInput | winter-voc.js:24-29 | 0 for an empty field or text with no number at its start, otherwise the number the normalised text starts with |
| WinterVoc.ParseInputNormalised | winter-voc.js:24-29 | a field reads the same as its own normal form |
| WinterVoc.ParseInputNatText | winter-voc.js:24-29 | a whole number, with or without a minus sign, reads back as itself |
| WinterVoc.DigitsParse | winter-voc.js:27 | a run of digits, with or without a leading minus sign, reads as its value |
| WinterVoc.DecimalParse | winter-voc.js:24-29 | digits around a dot or a comma, with or without a leading minus sign and with at least one digit, read as the integer digits plus the fraction digits over ten to their count, negated after a minus sign |
| WinterVoc.VoltageWithUnit | winter-voc.js:24-29 | "49,5 V" reads as 49.5 |
| WinterVoc.CommaIsDecimalSeparator | winter-voc.js:26 | "1,5" reads as 1.5 |
| WinterVoc.DoubleMinusReadsZero | winter-voc.js:27-28 | "--5" has no number at its start and reads as 0 |
| WinterVoc.SecondDotEndsNumber | winter-voc.js:27 | only the numeric prefix counts: "1.2.3" reads as 1.2 |
| WinterVoc.EffectiveCoef | winter-voc.js:40 | the coefficient used is never positive and has the magnitude typed in |
| WinterVoc.Derate | winter-voc.js:43-52 | the temperature difference is taken to 25 °C, and the string voltage is the panel voltage times the panel count |
| WinterVoc.ColdRaisesVoltage | winter-voc.js:43-45 | at or below 25 °C the growth is non-negative, and a non-negative Voc only rises |
| WinterVoc.ColderIsHigher | winter-voc.js:43-45 | a colder site never gives a lower panel voltage |
| WinterVoc.Classify | winter-voc.js:74-105 | hidden exactly when either voltage is not positive; danger, with the excess, exactly when over the maximum; warning exactly when the margin is under 5%; otherwise ok with the margin in volts and percent |
| WinterVoc.WarningBand | winter-voc.js:90-97 | a visible, not exceeded string is a warning exactly when above 95% of the maximum |
| WinterVoc.Calculate | winter-voc.js:31-71 | the user block is `Derate` of the parsed Voc, coefficient, minimum temperature and panel count, the IEC block is `Derate` of the same fields at −25 °C (so a −50 K difference), and both status boxes classify their string voltage against the same parsed maximum |
| WinterVoc.IecBlock | winter-voc.js:49-51 | the IEC growth is half the coefficient's magnitude, non-negative, and a non-negative Voc only rises |
| WinterVoc.IecIsUserAtMinus25 | winter-voc.js:3 | for a site at −25 °C both blocks and both statuses agree |
| WinterVoc.MinusTwentyFiveReads | winter-voc.js:24-29 | "-25" reads as the IEC temperature |
| ProjectManager.CreateTemplate | project-manager.js:26-38 | id and date are the clock; the given name, or "Без названия" when it is empty; exactly the four module slots, all empty |
| ProjectManager.ActiveOrTemplate | project-manager.js:19-23 | the stored active project, or a template named "Новый проект" when none is stored |
| ProjectManager.FindId | project-manager.js:48 | `findIndex` on the id: no earlier project carries the id, and a hit does |
| ProjectManager.FindIdPresent | project-manager.js:48-50 | the search stops inside the list exactly when some project carries the id |
| ProjectManager.UpsertSpec | project-manager.js:47-54 | with the id present, the first project carrying it is replaced in place and the others are unchanged; with it absent, the project is appended |
| ProjectManager.LookupAfterUpsert | project-manager.js:41-57 | after the save, looking the id up finds the saved project, and saving it again changes nothing |
| ProjectManager.RemoveIdMembers | project-manager.js:85 | the filter keeps exactly the projects with another id |
| ProjectManager.RemoveIdAppend | project-manager.js:85 | the filter splits over a concatenation, so the survivors keep their order |
| ProjectManager.RemoveIdAbsent | project-manager.js:85 | deleting an id nobody carries changes nothing |
| ProjectManager.ProjectStore.constructor | project-manager.js:13-23 | a store holding the given database and active project |
| ProjectManager.ProjectStore.GetActiveProject | project-manager.js:19-23 | with nothing stored, a fresh template named "Новый проект" with the four slots |
| ProjectManager.ProjectStore.SaveActiveToDB | project-manager.js:41-60 | the active project (or a template), stamped with the clock, is upserted into the database and kept as the active project |
| ProjectManager.ProjectStore.LoadProject | project-manager.js:63-71 | true exactly when some project carries the id, and then the first such project becomes active; otherwise nothing changes |
| ProjectManager.ProjectStore.UpdateModuleData | project-manager.js:74-79 | the module's slot of the active project (or a template) takes the data |
| ProjectManager.ProjectStore.DeleteProject | project-manager.js:82-88 | once confirmed, every project with the id is dropped; unconfirmed, nothing changes |
| ProjectManager.ProjectStore.NewProject | project-manager.js:110-118 | a non-empty name starts a new active project from the template; a cancelled or empty prompt changes nothing |
| ProjectManager.UpdateTouchesOneSlot | project-manager.js:76 | a slot update touches that slot alone; id, name, date and every other slot stay |
| ProjectManager.AuditSlot | load-audit.js:232-236 | the audit page finds saved rows exactly when the active project's audit slot holds saved audit data |
| Session.AuditFeedsBattery | load-audit.js:179-186 | a fresh audit record gives the battery page its daily energy when positive; after twelve hours it gives nothing |
| Session.AuditFeedsCable | cable-calc.js:201-217 | a fresh audit record gives the cable page the recommended inverter power rounded to whole watts when positive |
| Session.AuditSlotRoundTrip | load-audit.js:213-250 | the audit saved into a project's slot comes back from it, and restoring it rebuilds every row normalised |
| Session.SaveAndReopenAudit | load-audit.js:200-255 | saving the audit into the active project and opening the page again restores the saved table, row by row normalised, whenever it had a row |

## Left out

- The DOM is not modelled. That covers reading and writing fields, listeners, tab and panel visibility, badges, alert boxes, the floating menu and the info bar (project-manager.js:93-167). Rendered texts (`toFixed`, labels) are out too; results are the numeric values and the result constructors.
- `localStorage`, `JSON.parse`/`stringify` and the `try`/`catch` around parsing are not modelled. Imports are decisions over an already parsed record. A missing record is `None`; a record without an `audit` object, which throws and is caught, is not modelled.
- `Date.now`, `new Date()`, `window.location`, `alert`, `confirm` and `prompt` are not modelled; the clock, the `source=audit` flag and the answers are parameters. `createTemplate` reads the clock twice; the model uses one reading for the id and the date.
- The `setTimeout(…, 100)` between the save event and the database write is not modelled, because it is timing, not logic. `Session.SaveAndReopenAudit` assumes the module wrote its slot first.
- IEEE-754 doubles are not modelled: rounding errors, NaN propagation and `Infinity`. Arithmetic is exact.
- CableCalc.Calculate: assumes a positive system voltage and drop budget. The page reads both with a bare `parseFloat`, like the other fields; zero, negative or unreadable values are not modelled. A zero divides by zero in JavaScript (Infinity/NaN). A negative voltage gives a negative current and a 6 A fuse.
- BatteryCalc.RuntimeMeaning: states the exact hours-and-minutes split only for a non-negative runtime, because JavaScript's `%` breaks it for a negative one (negative expert values typed in); NegativeMinutesSplit exhibits that case.
- `parseFloat` on the raw fields of the cable, battery and audit pages is not modelled as string parsing; those fields are already parsed numbers with their `|| default` rules. Browser sanitising of `type=number` inputs is also left out.
- WinterVoc.ParseFloat: models `parseFloat` only on normalised text (digits, dots, minus signs). Exponents, a leading `+` and `Infinity` cannot survive the normalisation.
- The battery page's save payload (its raw fields and result texts) is not modelled; its slot is `OtherData`. The sub-labels each tab leaves stale on an early return are not modelled either: the runtime tab's when the capacity is missing (battery-calc.js:119-122), and the capacity tab's when the target time is missing (battery-calc.js:140-142).
- The audit save's rendered summary strings are not modelled; only the rows and the raw simultaneity text are kept. The cable page saves its raw field texts beside the triple; only the cable, fuse and loss triple is modelled.
- Editing a cell of an audit row is not modelled as an operation. A row's cells are the fields of an `AuditRow`, and every method reads them as they are.
- An audit row name is written into an `innerHTML` template; a name containing `"` would not survive the restore. Names are modelled as surviving unchanged.
- Project ids are `int`. `loadProject` and `deleteProject` compare with `==`, which also matches an id given as a string; `saveActiveToDB` compares with `===`. The model compares ints throughout.
- Lookups of the chemistry tables by a key such as `"__proto__"` or `"constructor"` would find inherited properties in JavaScript. The model treats such keys as unknown chemistries.
