# Building records client — a Dafny model

This project models the browser client of a building-records application, in Dafny. The client is a
React application that edits buildings ("bâtiments"). Each building has:

- levels ("niveaux");
- per level, its rooms ("pièces"), walls ("murs") and partitions ("cloisons");
- singleton elements: terrain, foundations, roof, frame, and the electrical, heating, plumbing and
  ventilation systems.

The model covers these parts:

- **Query keys** (`query_keys.dfy`). The hierarchical cache keys, where marking a prefix stale makes every
  key that extends it stale.
- **The creation wizard.** Six steps (`wizard_form.dfy`, `wizard.dfy`). Fields are written through
  the antd inputs' length limits and numeric clamps, and each step has its validation rules. The step
  machine is `Next`/`Prev` plus the final submission.
- **The submission** (`wizard_plan.dfy`, `wizard_plan_properties.dfy`). It is a sequence of awaited
  server calls:
  - create the building;
  - terrain, foundations, one call per generated level, roof;
  - the four systems;
  - a final read-back.

  The model states exactly which calls are made for a given form record. It also covers which
  prefix of them happened when the server rejects one, and where the chain throws because a form
  group is undefined.
- **The eight singleton element forms** (`singleton_editor.dfy`, `element_forms.dfy`). Each one offers:
  - an empty prompt, a details view and an edit form;
  - pre-filling from the stored element;
  - its field rules;
  - set and delete calls that mark the building's detail stale.
- **The four collection managers** (`collection_manager.dfy`, `collection_forms.dfy`). Each is a
  modal add/edit form with its rules, plus delete behind a confirmation. Levels can also be duplicated,
  and a new level gets the next free level number by default.
- **The building list** (`batiment_list.dfy`):
  - filters and pagination, and the list query they select;
  - quick creation with a trimmed-name guard;
  - deletion behind a confirmation, and duplication under a "(copie)" name;
  - navigation to a building's page.
- **The validation drawer** (`validation_panel.dfy`). The summary line, the count tags, the issue list
  and the severity colours.
- **The UI store** (`ui_store.dfy`) and **the sidebar's selected entry** (`sidebar.dfy`).

The modelling choices are:

- **Server calls are values.** A server call is a value appended to a `sent` log. Whether it succeeds
  is a parameter (`succeeds`, or `failAt` for the wizard's chain of awaits). Cache invalidations are a
  list of key prefixes, and navigations a list of paths.
- **Absent values are `None`.** A missing form value (`undefined` or `null`) is `None`. A form group the
  store has never seen (`data.terrain` undefined) is also `None`. Numbers are `real`.
- **Components are classes.** Components whose state hooks change are classes with `modifies`
  clauses. Configuration that never changes (the item-specific parts of a manager or a form) is held
  in `const` fields.

## Model

| member | source | states |
|---|---|---|
| Common.LimitText | src/features/batiments/components/wizard/Step1Generale.tsx:24 | an input with `maxLength` keeps at most that many characters, always a prefix of what was typed, and all of it when it fits |
| Common.ClampNumber | src/features/batiments/components/wizard/Step2Dimensions.tsx:62-73 | an InputNumber's committed value lies within its min/max and equals the typed value when that already lies within them |
| Common.EnterNumber | src/features/batiments/components/wizard/Step2Dimensions.tsx:62-93 | a cleared InputNumber stays empty; a value that is given lies within the bounds, and a value already within them is kept as typed |
| Common.NatToString | src/features/batiments/components/ValidationPanel.tsx:104 | a count is rendered as a non-empty run of decimal digits, two or more from 10 on |
| Common.NatToStringInjective | src/features/batiments/components/ValidationPanel.tsx:104 | distinct counts render as distinct texts |
| QueryKeys.EveryKeyUnderAll | src/api/query-keys.ts:3-13 | every building key (lists, list, no-pagination, details, detail, validation) extends `['batiments']` |
| QueryKeys.ListExtendsLists | src/api/query-keys.ts:6-8 | a filtered, paginated list key extends `lists()`, so invalidating `lists()` refreshes every page and filter |
| QueryKeys.DetailCoversValidation | src/api/query-keys.ts:10-12 | the validation key is the detail key plus `'validation'`; invalidating a detail refreshes its validation report, and `details()` covers every detail |
| QueryKeys.ListsSparesOthers | src/api/query-keys.ts:6-12 | invalidating `lists()` refreshes neither the no-pagination key nor any detail or validation key |
| QueryKeys.DetailSparesOthers | src/api/query-keys.ts:7-12 | invalidating one building's detail refreshes no other building's detail or validation, and no list |
| QueryKeys.DetailInjective | src/api/query-keys.ts:11-12 | detail keys, and validation keys, of two buildings are equal exactly when the ids are |
| QueryKeys.NestedKeys | src/api/query-keys.ts:14-24 | level and room detail keys extend their collections; `lists()` reaches a level key only for a building whose id is `"list"`, and a building's detail never reaches its level keys |
| WizardForm.StepOf | src/features/batiments/components/wizard/BatimentWizard.tsx:26-58 | every field belongs to one of the six steps |
| WizardForm.WriteKeepsOtherSteps | src/features/batiments/components/wizard/BatimentWizard.tsx:401-402 | an input on the mounted step leaves the verdict of every other step's rules unchanged |
| WizardForm.WriteKeepsGroups | src/features/batiments/components/wizard/BatimentWizard.tsx:401-402 | an input never makes a present form group undefined, and an input on the systems step makes the systems group present |
| WizardForm.WriteRespectsInputBounds | src/features/batiments/components/wizard/Step2Dimensions.tsx:62-93 | the name and address length limits and the clamps on level count (1..50), ceiling height (2..10) and foundation depth (0.1..20) are preserved by every input |
| WizardForm.GeneraleRules | src/features/batiments/components/wizard/Step1Generale.tsx:17-64 | step 1 passes exactly when the name is non-empty and type and shape are chosen; the address does not matter |
| WizardForm.StepRules | src/features/batiments/components/wizard/Step2Dimensions.tsx:14-113 | total height, terrain altitude, roof shape and roof area never decide steps 2, 3 and 5; a step whose group is undefined fails |
| WizardForm.DimensionsEnteredPass | src/features/batiments/components/wizard/Step2Dimensions.tsx:14-93 | the rules and the inputs' bounds agree: once length, width, level count and ceiling height are typed into their inputs, step 2 passes exactly when none of them was left empty |
| WizardForm.TerrainEnteredPass | src/features/batiments/components/wizard/Step3Terrain.tsx:12-33 | with the soil type chosen, step 3 passes exactly when a surface was typed, whatever its value |
| WizardForm.FondationsEnteredPass | src/features/batiments/components/wizard/Step4Fondations.tsx:12-38 | with the foundation type chosen, step 4 passes exactly when a depth was typed, whatever its value |
| WizardForm.ToitureEnteredPass | src/features/batiments/components/wizard/Step5Toiture.tsx:14-60 | with the roof type chosen, step 5 passes exactly when a pitch was typed, whatever its value |
| WizardPlan.Phase | src/features/batiments/components/wizard/BatimentWizard.tsx:87-190 | every call belongs to one of the ten blocks of the submission |
| WizardPlan.OfPhase | src/features/batiments/components/wizard/BatimentWizard.tsx:87-190 | the calls of one block, a sub-sequence of the whole |
| WizardPlan.LoopCount | src/features/batiments/components/wizard/BatimentWizard.tsx:124-133 | the level loop runs once for each natural number below the entered level count |
| WizardPlan.Stop | src/features/batiments/components/wizard/BatimentWizard.tsx:107-178 | the first block whose guard reads an undefined group (terrain, foundations, dimensions, roof, systems), every earlier group being present; or the end |
| WizardPlan.Await | src/features/batiments/components/wizard/BatimentWizard.tsx:97-189 | an awaited call is made, and succeeds unless it is the one the server rejects |
| WizardPlan.RejectionAfterPrefix | src/features/batiments/components/wizard/BatimentWizard.tsx:196-201 | when the server rejects a call, exactly the calls up to it were made and the submission fails there |
| WizardPlan.TypeErrorAfter | src/features/batiments/components/wizard/BatimentWizard.tsx:107-178 | reaching a guard on an undefined group ends the submission with a TypeError after exactly the calls before it |
| WizardPlan.TerrainBlock | src/features/batiments/components/wizard/BatimentWizard.tsx:107-113 | the terrain block extends the calls made so far by its segment, or reports the rejection |
| WizardPlan.FondationsBlock | src/features/batiments/components/wizard/BatimentWizard.tsx:116-121 | the same for the foundations block |
| WizardPlan.NiveauxBlock | src/features/batiments/components/wizard/BatimentWizard.tsx:124-133 | the same for the level loop, one awaited call per level |
| WizardPlan.LevelLoop | src/features/batiments/components/wizard/BatimentWizard.tsx:125-132 | the counting loop issues the call for each natural below the count, in order of index, and after a rejection has issued exactly a prefix of them ending with the rejected one |
| WizardPlan.ToitureBlock | src/features/batiments/components/wizard/BatimentWizard.tsx:136-143 | the same for the roof block |
| WizardPlan.ElectriqueBlock | src/features/batiments/components/wizard/BatimentWizard.tsx:146-160 | the same for the electrical block |
| WizardPlan.ChauffageBlock | src/features/batiments/components/wizard/BatimentWizard.tsx:162-170 | the same for the heating block |
| WizardPlan.VentilationBlock | src/features/batiments/components/wizard/BatimentWizard.tsx:172-176 | the same for the ventilation block |
| WizardPlan.PlomberieBlock | src/features/batiments/components/wizard/BatimentWizard.tsx:178-185 | the same for the plumbing block |
| WizardPlan.Mutate | src/features/batiments/components/wizard/BatimentWizard.tsx:87-201 | the submission makes exactly the planned calls up to the first rejection, and its outcome is the created id or the failure that stopped it |
| WizardPlan.MutateGround | src/features/batiments/components/wizard/BatimentWizard.tsx:103-121 | from the created building on, the calls made and the outcome are those of the whole plan under the same rejection |
| WizardPlan.MutateStructure | src/features/batiments/components/wizard/BatimentWizard.tsx:124-143 | the same from the level loop on |
| WizardPlan.MutateSystems | src/features/batiments/components/wizard/BatimentWizard.tsx:146-170 | the same from the electrical system on |
| WizardPlan.MutateTail | src/features/batiments/components/wizard/BatimentWizard.tsx:172-189 | the same from the ventilation on, ending with the read of the complete building |
| WizardPlanProperties.PlanPhase | src/features/batiments/components/wizard/BatimentWizard.tsx:87-190 | the calls of each block in the plan are that block's segment when the chain reaches it, and none otherwise |
| WizardPlanProperties.SegmentsShape | src/features/batiments/components/wizard/BatimentWizard.tsx:97-190 | the blocks run in order; the first call creates the building from name, type and address; every later call targets the created id |
| WizardPlanProperties.NoCallWithoutEssentials | src/features/batiments/components/wizard/BatimentWizard.tsx:92-94 | without name, type and shape nothing is sent and the submission fails |
| WizardPlanProperties.CreateFirstThenSameId | src/features/batiments/components/wizard/BatimentWizard.tsx:97-190 | with the essentials, create comes first, all later calls go to the new building, and blocks never interleave |
| WizardPlanProperties.TerrainCallIff | src/features/batiments/components/wizard/BatimentWizard.tsx:107-113 | the terrain is set exactly when the surface is non-zero and the soil type chosen, with exactly those values and the altitude |
| WizardPlanProperties.FondationsCallIff | src/features/batiments/components/wizard/BatimentWizard.tsx:116-121 | the foundations are set exactly when the type is chosen and the depth non-zero |
| WizardPlanProperties.LevelCallsForCount | src/features/batiments/components/wizard/BatimentWizard.tsx:124-133 | a zero or empty level count adds no level; otherwise one level per natural number below the count, with the ceiling height or 2.5 |
| WizardPlanProperties.LevelCallsSpelledOut | src/features/batiments/components/wizard/BatimentWizard.tsx:125-132 | level i is named "RDC" for 0 and "Étage i" otherwise, has number i, altitude i × height and that ceiling height |
| WizardPlanProperties.LevelNamesDistinct | src/features/batiments/components/wizard/BatimentWizard.tsx:127 | generated level names are pairwise distinct |
| WizardPlanProperties.ToitureCallIff | src/features/batiments/components/wizard/BatimentWizard.tsx:136-143 | the roof is set exactly when a type and a pitch are given (a zero pitch included) |
| WizardPlanProperties.ElectriqueCallIff | src/features/batiments/components/wizard/BatimentWizard.tsx:146-160 | the electrical system is set exactly when the subscribed power or the type is truthy, with a board of type, power 0 and 0 circuits only when the type is given |
| WizardPlanProperties.ChauffageCallIff | src/features/batiments/components/wizard/BatimentWizard.tsx:162-170 | heating is set exactly when its type is given, the energy defaulting to ELECTRICITE and a falsy power to 0 |
| WizardPlanProperties.VentilationCallIff | src/features/batiments/components/wizard/BatimentWizard.tsx:172-176 | ventilation is set exactly when its type is given |
| WizardPlanProperties.PlomberieCallIff | src/features/batiments/components/wizard/BatimentWizard.tsx:178-185 | plumbing is set exactly when the hot-water production type is given, a falsy capacity defaulting to 0 |
| WizardPlanProperties.ReadBackLast | src/features/batiments/components/wizard/BatimentWizard.tsx:188-189 | the building is read back once, last, exactly when the chain runs to the end |
| WizardPlanProperties.RejectionKeepsEarlierCalls | src/features/batiments/components/wizard/BatimentWizard.tsx:196-201 | a rejection leaves a prefix of the plan ending at the rejected call; without one the whole plan is made |
| WizardPlanProperties.DimensionsStepFixesLevels | src/features/batiments/components/wizard/Step2Dimensions.tsx:62-93 | after a passing dimensions step at least one level is created, each with the entered ceiling height |
| WizardPlanProperties.ElementStepsSetElements | src/features/batiments/components/wizard/Step3Terrain.tsx:12-34 | a passing terrain, foundations or roof step always leads to its set call |
| WizardPlanProperties.ValidRecordCompletes | src/features/batiments/components/wizard/BatimentWizard.tsx:217-248 | a record on which steps 1–5 pass and whose systems group exists runs to the read-back, with one terrain, foundations and roof call and at least one level |
| Wizard.FirstMissing | src/features/batiments/components/wizard/BatimentWizard.tsx:227-241 | the first of name, type, shape that is missing, checked in that order; none exactly when the essentials are there |
| Wizard.BatimentPathInjective | src/features/batiments/components/wizard/BatimentWizard.tsx:250-255 | distinct buildings have distinct pages |
| Wizard.BatimentWizard.constructor | src/features/batiments/components/wizard/BatimentWizard.tsx:64-85 | the wizard opens on step 0 with the default record, nothing created, nothing sent |
| Wizard.BatimentWizard.Input | src/features/batiments/components/wizard/BatimentWizard.tsx:401-402 | editing a field of the mounted step writes that field and nothing else |
| Wizard.BatimentWizard.Next | src/features/batiments/components/wizard/BatimentWizard.tsx:204-211 | "Suivant" advances exactly when the current step's rules pass, and changes nothing else |
| Wizard.BatimentWizard.Prev | src/features/batiments/components/wizard/BatimentWizard.tsx:213-215 | "Précédent" goes back one step (it is disabled on step 0), data kept |
| Wizard.BatimentWizard.HandleSubmit | src/features/batiments/components/wizard/BatimentWizard.tsx:217-248 | a missing essential is refused with nothing sent (a branch the wizard's invariant makes unreachable, since step 1 has passed); otherwise exactly the planned calls up to the first failure are sent, and success records the id and invalidates `lists()` |
| Wizard.BatimentWizard.ViewBatiment | src/features/batiments/components/wizard/BatimentWizard.tsx:250-255 | with a created building, "Voir le bâtiment" navigates to its page and invokes `onClose` once, changing nothing else; without one it does nothing |
| Wizard.BatimentWizard.CreateAnother | src/features/batiments/components/wizard/BatimentWizard.tsx:257-261 | corrected: "Créer un autre" returns to step 0 with the default record, groups present |
| Wizard.BatimentWizard.CreateAnotherAsWritten | src/features/batiments/components/wizard/BatimentWizard.tsx:257-261 | as written: `resetFields()` leaves every group undefined, which breaks the wizard's invariant |
| Wizard.EarlyInputsLeaveSystemesAbsent | src/features/batiments/components/wizard/BatimentWizard.tsx:146-147 | inputs on steps 1–5 never create the systems group |
| Wizard.NoSystemesThrowsAfterRoof | src/features/batiments/components/wizard/BatimentWizard.tsx:146-147 | a record that passes steps 1–5 but has no systems group makes create, terrain, foundations, levels and roof, then throws |
| Wizard.ResetAsWrittenThrows | src/features/batiments/components/wizard/BatimentWizard.tsx:257-261 | after the as-written reset, refilling steps 1–5 and submitting makes six calls and then fails with a TypeError |
| Wizard.ResetCorrectedCompletes | src/features/batiments/components/wizard/BatimentWizard.tsx:72-85 | after the corrected reset the same inputs lead to a completed submission |
| SingletonEditor.EditOfferedOutsideForm | src/features/batiments/components/TerrainForm.tsx:83-162 | "Ajouter" or "Modifier" is offered exactly outside the form, never both; save and cancel exactly in the form; "Supprimer" exactly on the details of a present element of a form that offers deletion |
| SingletonEditor.Editor.constructor | src/features/batiments/components/TerrainForm.tsx:28-29 | a form starts out of edit mode with a blank form store and nothing sent |
| SingletonEditor.Editor.Edit | src/features/batiments/components/TerrainForm.tsx:58-63 | edit mode starts with the form pre-filled from the element, if any |
| SingletonEditor.Editor.Input | src/features/batiments/components/TerrainForm.tsx:164-234 | while editing, the form store holds what the inputs commit for the typed values: each `InputNumber` corrects a value outside its min/max to the bound |
| SingletonEditor.Editor.Cancel | src/features/batiments/components/TerrainForm.tsx:65-68 | "Annuler" leaves edit mode and resets the form |
| SingletonEditor.Editor.Save | src/features/batiments/components/TerrainForm.tsx:32-77 | a set call is sent exactly when the rules pass; success invalidates the detail and leaves edit mode, an error stays in it |
| SingletonEditor.Editor.Delete | src/features/batiments/components/TerrainForm.tsx:45-81 | "Supprimer" sends the delete at once; success invalidates the detail and resets the form |
| ElementForms.TerrainPrefill | src/features/batiments/components/TerrainForm.tsx:58-63 | without a terrain the form is kept; with one the surface is taken from it and a blank form becomes exactly the terrain's fields |
| ElementForms.TerrainRulesExactly | src/features/batiments/components/TerrainForm.tsx:165-234 | the rule and the input agree: the form passes exactly when the soil type is chosen and a surface is given that the input keeps as typed; bearing capacity, water-table depth and parcel numbers never decide |
| ElementForms.TerrainPrefillIdempotent | src/features/batiments/components/TerrainForm.tsx:58-63 | pre-filling twice from the same terrain is pre-filling once |
| ElementForms.TerrainPrefillKeepsStale | src/features/batiments/components/TerrainForm.tsx:58-63 | merging the terrain object keeps the earlier soil type and bearing capacity when the terrain lacks them, and a terrain carrying every property replaces the form with exactly its fields |
| ElementForms.TerrainEnteredPasses | src/features/batiments/components/TerrainForm.tsx:165-235 | with surface, bearing capacity and water-table depth entered through inputs with minimum 0, the form fails only for a missing surface or soil type |
| ElementForms.NewTerrainEditor | src/features/batiments/components/TerrainForm.tsx:28-144 | the terrain form is the generic form with its prefill, rules and blank form, and offers deletion |
| ElementForms.FondationsPrefillPasses | src/features/batiments/components/FondationsForm.tsx:153-183 | pre-filled foundations pass the rules exactly when their depth is ≥ 0 |
| ElementForms.FondationsPrefillReplaces | src/features/batiments/components/FondationsForm.tsx:58-63 | existing foundations overwrite the whole form, whatever it held; "Ajouter" without foundations keeps it |
| ElementForms.FondationsEnteredPasses | src/features/batiments/components/FondationsForm.tsx:153-183 | with the depth entered through an input with minimum 0, the form fails only for a missing type or depth |
| ElementForms.NewFondationsEditor | src/features/batiments/components/FondationsForm.tsx:28-132 | the foundations form, which offers deletion |
| ElementForms.ToiturePrefillPasses | src/features/batiments/components/ToitureForm.tsx:104-150 | a pre-filled roof passes exactly when its pitch is within 0..90 |
| ElementForms.ToiturePrefillReplaces | src/features/batiments/components/ToitureForm.tsx:53-63 | a roof overwrites the whole form, whatever it held; "Ajouter" without a roof keeps it |
| ElementForms.ToitureEnteredPasses | src/features/batiments/components/ToitureForm.tsx:104-163 | with the pitch entered through an input bounded to 0..90 and the total area to minimum 0, the form fails only for a missing type or pitch |
| ElementForms.NewToitureEditor | src/features/batiments/components/ToitureForm.tsx:41-100 | the roof form, without deletion |
| ElementForms.CharpentePrefillPasses | src/features/batiments/components/CharpenteForm.tsx:103-107 | a pre-filled frame always passes |
| ElementForms.CharpentePrefillReplaces | src/features/batiments/components/CharpenteForm.tsx:51-59 | a frame overwrites the whole form, whatever it held; "Ajouter" without a frame keeps it |
| ElementForms.NewCharpenteEditor | src/features/batiments/components/CharpenteForm.tsx:39-99 | the frame form, without deletion |
| ElementForms.ElectriqueWithoutBoardFails | src/features/batiments/components/SystemeElectriqueForm.tsx:114-186 | an electrical system without a board cannot be saved again without filling the board |
| ElementForms.ElectriquePrefillPasses | src/features/batiments/components/SystemeElectriqueForm.tsx:59-73 | a system with a board pre-fills a form that passes exactly when the subscribed power and the board power are ≥ 0 and the board has at least 1 circuit |
| ElementForms.ElectriquePrefillReplaces | src/features/batiments/components/SystemeElectriqueForm.tsx:59-73 | an electrical system overwrites the whole form, whatever it held; a missing board clears the board fields |
| ElementForms.ElectriqueEnteredPasses | src/features/batiments/components/SystemeElectriqueForm.tsx:114-186 | with subscribed and board power entered through inputs with minimum 0 and the circuit count with minimum 1, the form fails only for a missing field |
| ElementForms.NewElectriqueEditor | src/features/batiments/components/SystemeElectriqueForm.tsx:46-110 | the electrical form, without deletion |
| ElementForms.ChauffageWithoutGenerator | src/features/batiments/components/SystemeChauffageForm.tsx:106-111 | a heating system without a generator shows the empty prompt and pre-fills nothing |
| ElementForms.ChauffagePrefillPasses | src/features/batiments/components/SystemeChauffageForm.tsx:62-74 | a system with a generator overwrites the whole form, and the result passes exactly when the power is ≥ 0 and the efficiency, if known, within 0..100 |
| ElementForms.ChauffageEnteredPasses | src/features/batiments/components/SystemeChauffageForm.tsx:150-182 | with the power entered through an input with minimum 0 and the efficiency bounded to 0..100, the form fails only for a missing type, energy or power |
| ElementForms.NewChauffageEditor | src/features/batiments/components/SystemeChauffageForm.tsx:49-111 | the heating form, without deletion |
| ElementForms.PlomberiePrefillPasses | src/features/batiments/components/SystemePlomberieForm.tsx:58-69 | a system with a hot-water production overwrites the whole form, and the result passes exactly when the capacity is ≥ 0 |
| ElementForms.PlomberieWithoutProduction | src/features/batiments/components/SystemePlomberieForm.tsx:101-106 | a plumbing system without a hot-water production shows the empty prompt and pre-fills nothing |
| ElementForms.PlomberieEnteredPasses | src/features/batiments/components/SystemePlomberieForm.tsx:130-160 | with capacity and power entered through inputs with minimum 0, the form fails only for a missing type or capacity |
| ElementForms.NewPlomberieEditor | src/features/batiments/components/SystemePlomberieForm.tsx:45-106 | the plumbing form, without deletion |
| ElementForms.VentilationPrefillPasses | src/features/batiments/components/SystemeVentilationForm.tsx:53-60 | any ventilation overwrites the whole form with a value that passes; "Ajouter" without one keeps the form |
| ElementForms.NewVentilationEditor | src/features/batiments/components/SystemeVentilationForm.tsx:40-100 | the ventilation form, without deletion |
| ElementForms.WizardElementsPassForms | src/features/batiments/components/wizard/BatimentWizard.tsx:107-143 | the terrain, foundations and roof the wizard sets from a record passing steps 1–5 pass their element forms' rules when edited later |
| ElementForms.WizardBoardFailsForm | src/features/batiments/components/wizard/BatimentWizard.tsx:146-160 | a board created by the wizard has 0 circuits, so its electrical form fails the "at least 1 circuit" rule until corrected |
| ElementForms.WizardHeatingPassesForm | src/features/batiments/components/wizard/BatimentWizard.tsx:162-170 | heating created by the wizard (with a non-negative power) passes the heating form |
| ElementForms.WizardPlumbingPassesForm | src/features/batiments/components/wizard/BatimentWizard.tsx:178-185 | plumbing created by the wizard (with a non-negative capacity) passes the plumbing form |
| CollectionManager.OkLabelNamesTheAction | src/features/batiments/components/NiveauxManager.tsx:285 | two open modals show the same OK label exactly when both edit or both add |
| CollectionManager.Manager.constructor | src/features/batiments/components/PiecesManager.tsx:42-48 | a manager starts with the modal closed, nothing edited, a blank form and nothing sent, bound to its building and (for rooms, walls and partitions) its level |
| CollectionManager.Manager.HandleAdd | src/features/batiments/components/NiveauxManager.tsx:103-110 | "Ajouter" opens the modal in add mode with the add form of the current items |
| CollectionManager.Manager.HandleEdit | src/features/batiments/components/NiveauxManager.tsx:112-122 | "Modifier" remembers the item, fills the form with its fields and opens the modal |
| CollectionManager.Manager.Input | src/features/batiments/components/NiveauxManager.tsx:289-350 | the form store holds what the inputs commit for the typed values (each `InputNumber` corrects a value outside its min/max to the bound); the mode is kept |
| CollectionManager.Manager.HandleCloseModal | src/features/batiments/components/NiveauxManager.tsx:132-136 | closing forgets the item and resets the form |
| CollectionManager.Manager.HandleSubmit | src/features/batiments/components/PiecesManager.tsx:50-77 | OK sends, to the manager's building and level, the update of the edited item or the add exactly when the rules pass, with the form's values; success invalidates the building's detail and closes the modal, an error keeps it as it was |
| CollectionManager.Manager.HandleDelete | src/features/batiments/components/PiecesManager.tsx:78-87 | the delete, to the manager's building and level, is sent only once confirmed; success invalidates the detail; the modal is untouched |
| CollectionManager.Manager.HandleDuplicate | src/features/batiments/components/NiveauxManager.tsx:92-101 | "Dupliquer" sends the duplicate at once; success invalidates the detail |
| CollectionForms.MaxNumero | src/features/batiments/components/NiveauxManager.tsx:107 | the largest level number, which some level has |
| CollectionForms.NextNumero | src/features/batiments/components/NiveauxManager.tsx:107 | 0 for no levels; otherwise one above the largest level number, above every level |
| CollectionForms.NextNumeroIsFree | src/features/batiments/components/NiveauxManager.tsx:107 | the proposed number is used by no existing level |
| CollectionForms.NextNumeroIsLeast | src/features/batiments/components/NiveauxManager.tsx:107 | among the numbers above every level, the proposed one is the least |
| CollectionForms.NextNumeroAfterAdd | src/features/batiments/components/NiveauxManager.tsx:103-110 | accepting the proposed number makes the next proposal one higher |
| CollectionForms.NextNumeroOfConsecutive | src/features/batiments/components/NiveauxManager.tsx:107 | levels numbered 0..n-1 get n proposed |
| CollectionForms.NiveauAddForm | src/features/batiments/components/NiveauxManager.tsx:103-110 | the add form is blank except for a number above every existing level |
| CollectionForms.NiveauAddFormNeedsNom | src/features/batiments/components/NiveauxManager.tsx:294-306 | the add form fails until a name is typed, and then passes exactly when the name is non-empty |
| CollectionForms.NiveauEditPasses | src/features/batiments/components/NiveauxManager.tsx:112-122 | a level opened with "Modifier" has its name, number, altitude, ceiling height and surface in the form, which passes exactly when the name is non-empty |
| CollectionForms.NiveauEnteredBounds | src/features/batiments/components/NiveauxManager.tsx:300-350 | the inputs never change the verdict of the rules; whatever is typed, the number committed lies in -10..50 and the ceiling height and surface are ≥ 0 |
| CollectionForms.NiveauEnteredKeepsLevel | src/features/batiments/components/NiveauxManager.tsx:112-122 | a level whose number lies in -10..50 and whose heights are ≥ 0 is committed unchanged by the inputs' bounds |
| CollectionForms.NewNiveauxManager | src/features/batiments/components/NiveauxManager.tsx:44-153 | the levels manager: its id, fields, add form, rules, input bounds and blank form, with duplication, bound to the building and to no level |
| CollectionForms.PieceAddForm | src/features/batiments/components/PiecesManager.tsx:89-93 | the add form is blank and fails the rules |
| CollectionForms.PieceEditPasses | src/features/batiments/components/PiecesManager.tsx:95-104 | a room opened with "Modifier" has its name, type, surface and ceiling height in the form, which passes exactly when the name is non-empty and the surface ≥ 0 |
| CollectionForms.PieceEnteredPasses | src/features/batiments/components/PiecesManager.tsx:237-286 | with surface and ceiling height entered through inputs with minimum 0, the form fails only for a missing name, type or surface |
| CollectionForms.NewPiecesManager | src/features/batiments/components/PiecesManager.tsx:42-131 | the rooms manager of one level: every call goes to the building and that level; without duplication |
| CollectionForms.MurAddForm | src/features/batiments/components/MursManager.tsx:92-96 | the add form is blank and fails the rules |
| CollectionForms.MurRulesIgnoreOptional | src/features/batiments/components/MursManager.tsx:249-356 | name, material and orientation never decide the wall rules |
| CollectionForms.MurEditPasses | src/features/batiments/components/MursManager.tsx:98-110 | a wall opened with "Modifier" has its seven fields in the form, which passes exactly when its length, height and thickness are ≥ 0 |
| CollectionForms.MurEnteredPasses | src/features/batiments/components/MursManager.tsx:249-356 | with the three dimensions entered through inputs with minimum 0, the form fails only for a missing type or dimension |
| CollectionForms.NewMursManager | src/features/batiments/components/MursManager.tsx:45-137 | the walls manager of one level: every call goes to the building and that level; without duplication |
| CollectionForms.CloisonsAbsentIsEmpty | src/features/batiments/components/CloisonsManager.tsx:42-214 | a missing partition list renders exactly like an empty one (title count 0, empty state), and the title count tells lists of different lengths apart |
| CollectionForms.CloisonAddForm | src/features/batiments/components/CloisonsManager.tsx:89-93 | the add form is blank and fails the rules |
| CollectionForms.CloisonEditPasses | src/features/batiments/components/CloisonsManager.tsx:95-104 | a partition opened with "Modifier" has its length, height, thickness and type in the form, which passes exactly when its type is non-empty and its three dimensions ≥ 0 |
| CollectionForms.CloisonEnteredPasses | src/features/batiments/components/CloisonsManager.tsx:235-305 | with the three dimensions entered through inputs with minimum 0, the form fails only for a missing type or dimension |
| CollectionForms.NewCloisonsManager | src/features/batiments/components/CloisonsManager.tsx:41-131 | the partitions manager of one level: every call goes to the building and that level; without duplication |
| BatimentList.TrimStart | src/features/batiments/components/BatimentList.tsx:119 | a suffix of the text, what was dropped is white space, and what is left starts with a non-space |
| BatimentList.TrimEnd | src/features/batiments/components/BatimentList.tsx:119 | a prefix of the text, what was dropped is white space, and what is left ends with a non-space |
| BatimentList.TrimEmptyIffBlank | src/features/batiments/components/BatimentList.tsx:119 | the trimmed name is empty exactly when the name is made of white space only |
| BatimentList.QueryFiltersInjective | src/features/batiments/components/BatimentList.tsx:59-73 | distinct search texts and filter choices select distinct list queries, and an empty search sends no name filter |
| BatimentList.SizeOfKeepsChosen | src/features/batiments/components/BatimentList.tsx:135-138 | a page size the table reports is kept; a missing or zero one becomes 10 |
| BatimentList.PageRoundTrip | src/features/batiments/components/BatimentList.tsx:135-138 | showing page p + 1 and reading it back gives p, and the reverse; a change without a page goes to the first |
| BatimentList.CopyNameInjective | src/features/batiments/components/BatimentList.tsx:131 | distinct names give distinct copy names, and a copy is never named like its original |
| BatimentList.ListPage.constructor | src/features/batiments/components/BatimentList.tsx:44-56 | no filter, page 0 of size 10, modal closed with an empty name and type MAISON_INDIVIDUELLE, wizard closed |
| BatimentList.ListPage.QueryKey | src/features/batiments/components/BatimentList.tsx:59-64 | the list query's key lies under `lists()`, so invalidating the lists refreshes it |
| BatimentList.ListPage.DisplayedPage | src/features/batiments/components/BatimentList.tsx:323-325 | the table shows page + 1, which reads back as the same page |
| BatimentList.ListPage.HandleSearch | src/features/batiments/components/BatimentList.tsx:140-143 | searching sets the text and returns to page 0, nothing else |
| BatimentList.ListPage.SearchInputChange | src/features/batiments/components/BatimentList.tsx:288-289 | clearing the box searches for "" ; typing alone changes nothing |
| BatimentList.ListPage.HandleTypeFilterChange | src/features/batiments/components/BatimentList.tsx:145-148 | the type filter is set and the page reset |
| BatimentList.ListPage.HandleStatutFilterChange | src/features/batiments/components/BatimentList.tsx:150-153 | the status filter is set and the page reset |
| BatimentList.ListPage.HandleTableChange | src/features/batiments/components/BatimentList.tsx:135-138 | page and size follow the table, with their fallbacks |
| BatimentList.ListPage.OpenCreateModal | src/features/batiments/components/BatimentList.tsx:266 | the quick-create modal opens keeping its fields; filters, pagination and the wizard drawer are unchanged |
| BatimentList.ListPage.SetNewBatimentNom | src/features/batiments/components/BatimentList.tsx:353-358 | typing sets the new name and nothing else: filters, pagination and the wizard drawer are unchanged |
| BatimentList.ListPage.SetNewBatimentType | src/features/batiments/components/BatimentList.tsx:365 | choosing sets the new type and nothing else: filters, pagination and the wizard drawer are unchanged |
| BatimentList.ListPage.HandleCreate | src/features/batiments/components/BatimentList.tsx:118-124 | the create call is sent, with the untrimmed name, exactly when the trimmed name is non-empty; success invalidates `lists()`, closes the modal, clears the name (the type is kept) and navigates to the new building |
| BatimentList.ListPage.SendCreate | src/features/batiments/components/BatimentList.tsx:76-88 | the create call carries the name as typed and the chosen type; on success the lists are refreshed, the modal closed, the name cleared and the new building opened; on error nothing else changes |
| BatimentList.ListPage.CancelCreate | src/features/batiments/components/BatimentList.tsx:341-345 | cancelling closes the modal and resets name and type |
| BatimentList.ListPage.HandleDelete | src/features/batiments/components/BatimentList.tsx:235-241 | the delete is sent only once confirmed; success invalidates `lists()` |
| BatimentList.ListPage.HandleDuplicate | src/features/batiments/components/BatimentList.tsx:104-133 | the duplicate is sent with the copy name; success invalidates `lists()` and navigates to the copy |
| BatimentList.ListPage.View | src/features/batiments/components/BatimentList.tsx:222 | "Voir" navigates to the building's page and changes nothing else |
| BatimentList.ListPage.SetWizardOpen | src/features/batiments/components/BatimentList.tsx:274 | the wizard drawer opens or closes, nothing else changes |
| BatimentList.MutationRefreshesShownList | src/features/batiments/components/BatimentList.tsx:59-115 | the list every mutation invalidates covers the list on screen, whatever its filters and page, and a detail key never does |
| BatimentList.BuildingPageHighlightsBuildings | src/features/batiments/components/BatimentList.tsx:222 | on a building's page the corrected sidebar highlights "Bâtiments", the sidebar as written the root |
| ValidationPanel.FetchFollowsDrawer | src/features/batiments/components/ValidationPanel.tsx:59-64 | a closed drawer or an empty id fetches nothing; an open drawer of a known building fetches its report, under a key its detail invalidation refreshes |
| ValidationPanel.ReportKey | src/features/batiments/components/ValidationPanel.tsx:61 | the report is cached under the building's validation key, which the detail invalidations refresh |
| ValidationPanel.AllIssuesAreTheReports | src/features/batiments/components/ValidationPanel.tsx:66-68 | the list holds exactly the report's errors and warnings, each as often as the report has it, the errors first and in order; without a report it is empty |
| ValidationPanel.CountsText | src/features/batiments/components/ValidationPanel.tsx:104 | the counts summary starts with a digit |
| ValidationPanel.CountsTextInjective | src/features/batiments/components/ValidationPanel.tsx:104 | the counts summary determines both counts |
| ValidationPanel.SummaryDistinguishes | src/features/batiments/components/ValidationPanel.tsx:100-105 | equal summaries mean both reports valid, or both invalid with the same error and warning counts |
| ValidationPanel.AlertMatchesSummary | src/features/batiments/components/ValidationPanel.tsx:100-111 | the alert is a success exactly when its message is "Bâtiment valide"; otherwise it is an error whose message starts with the error count |
| ValidationPanel.CountTags | src/features/batiments/components/ValidationPanel.tsx:117-133 | no tags for a valid report; otherwise one tag per non-empty list, with its count |
| ValidationPanel.TagWord | src/features/batiments/components/ValidationPanel.tsx:122-129 | the tag word is "Erreur" or "Avertissement", plural exactly for a count above one |
| ValidationPanel.BodyAgreesWithAlert | src/features/batiments/components/ValidationPanel.tsx:93-176 | "no problem" appears only under a success alert without tags or issues; an empty body exactly for an invalid report summarised as 0 errors and 0 warnings; the issue list exactly when there is an issue |
| ValidationPanel.ValidWithWarningsListsThem | src/features/batiments/components/ValidationPanel.tsx:100-176 | a valid report with warnings is summarised as valid and still lists its warnings |
| ValidationPanel.SeverityColorsDistinct | src/features/batiments/components/ValidationPanel.tsx:46-57 | a severity gets the default colour exactly when it is not ERROR, WARNING or INFO, and the three known severities get three distinct colours |
| UiStore.ApplyFrame | src/store/ui.store.ts:23-29 | each action leaves the other three fields unchanged |
| UiStore.TogglesAreInvolutions | src/store/ui.store.ts:23-28 | both toggles change the state and undo themselves |
| UiStore.SettersIdempotent | src/store/ui.store.ts:24-29 | applying a setter twice is applying it once |
| UiStore.ApplyCommutes | src/store/ui.store.ts:23-29 | actions on different fields commute |
| UiStore.UIStore.constructor | src/store/ui.store.ts:18-21 | sidebar expanded, nothing selected, validation drawer closed |
| UiStore.UIStore.ToggleSidebar | src/store/ui.store.ts:23 | the store's state moves by the toggle |
| UiStore.UIStore.SetSidebarCollapsed | src/store/ui.store.ts:24 | the store's state moves by the setter |
| UiStore.UIStore.SelectBatiment | src/store/ui.store.ts:25 | the selected building is set |
| UiStore.UIStore.SelectNiveau | src/store/ui.store.ts:26 | the selected level is set |
| UiStore.UIStore.ToggleValidationPanel | src/store/ui.store.ts:27-28 | the drawer flag is flipped |
| UiStore.UIStore.SetValidationPanelOpen | src/store/ui.store.ts:29 | the drawer flag is set |
| Sidebar.FirstPrefix | src/components/layout/Sidebar.tsx:28 | the first menu key the path starts with, or none exactly when none does |
| Sidebar.SelectedKeyAsWritten | src/components/layout/Sidebar.tsx:15-28 | as written, the selected key is one of the menu keys |
| Sidebar.AsWrittenAlwaysRoot | src/components/layout/Sidebar.tsx:15-28 | as written, the selected key is "/" for every path |
| Sidebar.AsWrittenMissesBuildings | src/components/layout/Sidebar.tsx:15-28 | as written, "/batiments" and a building's page do not select "Bâtiments" |
| Sidebar.SelectedKey | src/components/layout/Sidebar.tsx:28 | corrected: "/batiments" exactly for paths under it, "/" otherwise |
| Sidebar.SelectedKeyIsLongestMatch | src/components/layout/Sidebar.tsx:28 | the corrected key is the longest menu key the path starts with |
| Sidebar.ClickSelectsEntry | src/components/layout/Sidebar.tsx:49 | corrected: after a click the clicked entry is the selected one |
| Sidebar.AsWrittenClickLosesEntry | src/components/layout/Sidebar.tsx:49 | as written, clicking "Bâtiments" does not select it |

## Left out

- Server calls, HTTP, the axios client and TanStack Query's caching and refetch timing are left out. A
  call is a logged value, its success is a parameter, and callbacks run atomically right after the
  call. Pending states (`isPending` spinners, `confirmLoading`) are not modelled.
- Messages (`messageApi`), console logs, icons (`getSeverityIcon`), layout, descriptions, the wizard's
  progress bar and the step titles are presentation only.
- Numbers are Dafny `real`s. IEEE-754 rounding, `toFixed`, the inputs' `precision` and `step`, and the
  level altitude `i * h` computed in floating point are not modelled.
- Common.EnterNumber: an InputNumber's min/max is modelled as clamping the committed value, in the
  wizard and in every element and collection form (`enter` of `SingletonEditor.Editor` and
  `CollectionManager.Manager`). Values the code itself writes through `setFieldsValue` are not
  clamped: a proposed level number above 50 stays as computed, as it does in the code.
- Common.LimitText: the cap counts the characters of the model's strings. antd's `maxLength` counts
  UTF-16 code units, so a text with characters outside the Basic Multilingual Plane is cut earlier in
  the code than in the model.
- CollectionForms.NiveauEntered: the level number is an integer in the model; its input has no
  `precision`, so a fractional number it would accept is not modelled.
- ElementForms.Merge: a `null` the server sends for an optional property is treated like an absent
  property; antd would write the `null` into the field.
- The terrain's parcel numbers are a text value in the model, whatever input renders them.
- TypeCloison is modelled as a string, because the partition type enum is not part of this model (it is
  not in `src/api/types/batiment.types.ts`).
- In the wizard the systems step is a flat group of optional fields, since Step6Systemes declares no
  rules. Its selects' option lists are not modelled.
- Navigation goes into a list of paths. In the wizard, `onClose` is counted (`closeRequests`); what the
  parent does with it is a plain state change (`SetWizardOpen`).
- The `niveaux = []`, `pieces = []` and `murs = []` default parameters are modelled as plain lists the
  caller passes. The cloisons `?? []` default is modelled (`CloisonsList`, `CloisonsTitle`).
- Row counts in the other card titles, the table's sorter and date rendering, and the pagination's size options
  are left out.
- BatimentList.TrimStart: JavaScript white space is listed by explicit code points (the Unicode `Zs`
  set, tab, line and page breaks, U+FEFF, U+2028, U+2029).
- BatimentDetail, App, the routes, Header and AppLayout are not part of this model, and neither are
  the API endpoint modules.
- Wizard.BatimentWizard.Next, `Prev` and `HandleSubmit`, and the other UI-gated operations, take the
  button's visibility or disabled state as a precondition. "Suivant" is shown only before the last
  step, and "Créer le bâtiment" only on it (BatimentWizard.tsx:428-448); `current == LastStep` is the
  precondition of `HandleSubmit`.

## Findings

| source | as written | input that shows it | evidently intended | confidence | as-written member | corrected member |
|---|---|---|---|---|---|---|
| src/features/batiments/components/wizard/BatimentWizard.tsx:257-261 | "Créer un autre" calls `form.resetFields()`. The nested groups were set by `setFieldsValue` in the mount effect, not by `initialValues`, so the reset leaves them undefined. The systems step has no required fields, and the submission's guard at lines 145-147 reads `data.systemes.electrique?.puissanceAbonnement`; with `data.systemes` undefined, reading `.electrique` throws a TypeError. | Create one building, click "Créer un autre", fill steps 1–5 validly without touching step 6, and submit. Create, terrain, foundations, the levels and the roof are committed, then a TypeError reports a failed creation. | The reset restores the same defaults as the first mount, so the second submission completes. | not executed | Wizard.ResetAsWrittenThrows | Wizard.ResetCorrectedCompletes |
| src/components/layout/Sidebar.tsx:15-28 | The selected key is the first menu key the path starts with. `'/'` comes first, and every path starts with `'/'`. | The path "/batiments/42" selects "Accueil", not "Bâtiments". | The entry whose key is the longest prefix of the path is selected. | not executed | Sidebar.AsWrittenMissesBuildings | Sidebar.SelectedKey |
