/**
 * The eight singleton element forms: what each form store holds, the rules of
 * its fields, how `handleEdit` pre-fills it from the element, which prop
 * decides presence, what its `InputNumber` bounds commit for what is typed,
 * and whether a delete exists. Each becomes an instance of the generic
 * `SingletonEditor.Editor`.
 *
 * `setFieldsValue(obj)` merges: a property `obj` does not carry leaves the
 * field as it was, a property it carries (even `undefined`) overwrites it.
 * Terrain and foundations pass the element object itself; the other forms
 * pass an object literal that names every field.
 */
module ElementForms {
  import opened Common
  import opened Types
  import opened SingletonEditor
  import opened WizardForm
  import opened WizardPlan
  import opened WizardPlanProperties

  /** A field of an element object: its value when the object carries it, else the field as it was. */
  function Merge<T>(field: Option<T>, carried: Option<T>): Option<T> {
    if carried.Some? then carried else field
  }

  // ---------------------------------------------------------------------------
  // Terrain (with delete)
  // ---------------------------------------------------------------------------

  datatype TerrainFields = TerrainFields(
    surface: Option<real>, typeSol: Option<TypeSol>, portanceSol: Option<real>,
    profondeurNappe: Option<real>, numeroParcellesCadastrales: Option<string>)

  const TerrainBlank := TerrainFields(None, None, None, None, None)

  /** surface required and >= 0, typeSol required; the other three are free. */
  predicate TerrainRules(f: TerrainFields) {
    AtLeast(f.surface, 0.0) && f.typeSol.Some?
  }

  function TerrainShown(t: Option<Terrain>): bool { t.Some? }

  /** The terrain's values on the five form fields. */
  function TerrainFieldsOf(t: Terrain): TerrainFields {
    TerrainFields(Some(t.surface), t.typeSol, t.portanceSol, t.profondeurNappe, t.numeroParcellesCadastrales)
  }

  /** `handleEdit`: the terrain object is merged into the form when there is one. */
  function TerrainPrefill(f: TerrainFields, t: Option<Terrain>): (g: TerrainFields)
    ensures t.None? ==> g == f
    ensures t.Some? ==> g.surface == Some(t.value.surface)
    ensures t.Some? && f == TerrainBlank ==> g == TerrainFieldsOf(t.value)
  {
    if t.None? then f
    else
      var e := t.value;
      TerrainFields(Some(e.surface), Merge(f.typeSol, e.typeSol), Merge(f.portanceSol, e.portanceSol),
        Merge(f.profondeurNappe, e.profondeurNappe), Merge(f.numeroParcellesCadastrales, e.numeroParcellesCadastrales))
  }

  /**
   * The rule and the input agree: the form passes exactly when the soil type
   * is chosen and the surface is one the input keeps as typed. The optional
   * fields never matter.
   */
  lemma TerrainRulesExactly(f: TerrainFields, portance: Option<real>, nappe: Option<real>, parcelles: Option<string>)
    ensures TerrainRules(f) <==>
      f.typeSol.Some? && f.surface.Some? && EnterNumber(f.surface, Some(0.0), None) == f.surface
    ensures TerrainRules(f.(portanceSol := portance, profondeurNappe := nappe, numeroParcellesCadastrales := parcelles))
      == TerrainRules(f)
  {
  }

  /** Pre-filling twice from the same terrain is the same as once. */
  lemma TerrainPrefillIdempotent(f: TerrainFields, t: Option<Terrain>)
    ensures TerrainPrefill(TerrainPrefill(f, t), t) == TerrainPrefill(f, t)
  {
  }

  /**
   * A property the terrain object lacks keeps what the form held: pre-filling
   * a form that was not reset shows the earlier values in those fields.
   */
  lemma TerrainPrefillKeepsStale(f: TerrainFields, t: Terrain)
    ensures t.typeSol.None? ==> TerrainPrefill(f, Some(t)).typeSol == f.typeSol
    ensures t.portanceSol.None? ==> TerrainPrefill(f, Some(t)).portanceSol == f.portanceSol
    ensures t.typeSol.Some? && t.portanceSol.Some? && t.profondeurNappe.Some? && t.numeroParcellesCadastrales.Some?
      ==> TerrainPrefill(f, Some(t)) == TerrainFieldsOf(t)
  {
  }

  /** The form's inputs: surface, bearing capacity and water-table depth at least 0. */
  function TerrainEntered(f: TerrainFields): TerrainFields {
    f.(surface := EnterNumber(f.surface, Some(0.0), None),
       portanceSol := EnterNumber(f.portanceSol, Some(0.0), None),
       profondeurNappe := EnterNumber(f.profondeurNappe, Some(0.0), None))
  }

  /** Once typed into the inputs, the terrain form fails the rules only for a missing surface or soil type. */
  lemma TerrainEnteredPasses(f: TerrainFields)
    ensures TerrainRules(TerrainEntered(f)) <==> f.surface.Some? && f.typeSol.Some?
  {
  }

  method NewTerrainEditor(batimentId: Id) returns (ed: Editor<Terrain, TerrainFields>)
    ensures fresh(ed) && ed.batimentId == batimentId && ed.deletable
    ensures ed.shown == TerrainShown && ed.prefill == TerrainPrefill && ed.rules == TerrainRules
    ensures ed.blank == TerrainBlank && ed.enter == TerrainEntered && !ed.isEditing && ed.form == TerrainBlank
    ensures ed.sent == [] && ed.invalidated == []
  {
    ed := new Editor(batimentId, TerrainShown, TerrainPrefill, TerrainRules, TerrainBlank, TerrainEntered, true);
  }

  // ---------------------------------------------------------------------------
  // Foundations (with delete)
  // ---------------------------------------------------------------------------

  datatype FondationsFields = FondationsFields(typeFondation: Option<TypeFondation>, profondeur: Option<real>)

  const FondationsBlank := FondationsFields(None, None)

  /** typeFondation required, profondeur required and >= 0. */
  predicate FondationsRules(f: FondationsFields) {
    f.typeFondation.Some? && AtLeast(f.profondeur, 0.0)
  }

  function FondationsShown(x: Option<Fondations>): bool { x.Some? }

  /** `handleEdit`: both fields are required properties of the object, so both are overwritten. */
  function FondationsPrefill(f: FondationsFields, x: Option<Fondations>): FondationsFields {
    if x.None? then f else FondationsFields(Some(x.value.typeFondation), Some(x.value.profondeur))
  }

  /** Pre-filled from existing foundations, the form passes iff their depth is not negative. */
  lemma FondationsPrefillPasses(f: FondationsFields, x: Fondations)
    ensures FondationsRules(FondationsPrefill(f, Some(x))) <==> x.profondeur >= 0.0
  {
  }

  /** Existing foundations overwrite the whole form, whatever it held; "Ajouter" on none keeps it. */
  lemma FondationsPrefillReplaces(f: FondationsFields, g: FondationsFields, x: Option<Fondations>)
    ensures x.Some? ==> FondationsPrefill(f, x) == FondationsPrefill(g, x)
    ensures x.None? ==> FondationsPrefill(f, x) == f
  {
  }

  /** The form's input: depth at least 0. */
  function FondationsEntered(f: FondationsFields): FondationsFields {
    f.(profondeur := EnterNumber(f.profondeur, Some(0.0), None))
  }

  /** Once typed into the input, the foundations form fails the rules only for a missing type or depth. */
  lemma FondationsEnteredPasses(f: FondationsFields)
    ensures FondationsRules(FondationsEntered(f)) <==> f.typeFondation.Some? && f.profondeur.Some?
  {
  }

  method NewFondationsEditor(batimentId: Id) returns (ed: Editor<Fondations, FondationsFields>)
    ensures fresh(ed) && ed.batimentId == batimentId && ed.deletable
    ensures ed.shown == FondationsShown && ed.prefill == FondationsPrefill && ed.rules == FondationsRules
    ensures ed.blank == FondationsBlank && ed.enter == FondationsEntered && !ed.isEditing
    ensures ed.form == FondationsBlank && ed.sent == [] && ed.invalidated == []
  {
    ed := new Editor(batimentId, FondationsShown, FondationsPrefill, FondationsRules, FondationsBlank,
                     FondationsEntered, true);
  }

  // ---------------------------------------------------------------------------
  // Roof (no delete)
  // ---------------------------------------------------------------------------

  datatype ToitureFields = ToitureFields(
    typeToiture: Option<TypeToiture>, forme: Option<FormeToit>, pente: Option<real>, surfaceTotale: Option<real>)

  const ToitureBlank := ToitureFields(None, None, None, None)

  /** type required, pente required and within [0, 90]; forme and surfaceTotale free. */
  predicate ToitureRules(f: ToitureFields) {
    f.typeToiture.Some? && Within(f.pente, 0.0, 90.0)
  }

  function ToitureShown(x: Option<Toiture>): bool { x.Some? }

  function ToitureFieldsOf(x: Toiture): ToitureFields {
    ToitureFields(Some(x.typeToiture), x.forme, Some(x.pente), x.surfaceTotale)
  }

  /** `handleEdit` names all four fields, so the roof's values replace the form entirely. */
  function ToiturePrefill(f: ToitureFields, x: Option<Toiture>): ToitureFields {
    if x.None? then f else ToitureFieldsOf(x.value)
  }

  /** Pre-filled from a roof, the form passes iff the roof's slope is within [0, 90]. */
  lemma ToiturePrefillPasses(f: ToitureFields, x: Toiture)
    ensures ToitureRules(ToiturePrefill(f, Some(x))) <==> 0.0 <= x.pente <= 90.0
  {
  }

  /** A roof overwrites the whole form, whatever it held; "Ajouter" on none keeps it. */
  lemma ToiturePrefillReplaces(f: ToitureFields, g: ToitureFields, x: Option<Toiture>)
    ensures x.Some? ==> ToiturePrefill(f, x) == ToiturePrefill(g, x)
    ensures x.None? ==> ToiturePrefill(f, x) == f
  {
  }

  /** The form's inputs: slope within [0, 90], total surface at least 0. */
  function ToitureEntered(f: ToitureFields): ToitureFields {
    f.(pente := EnterNumber(f.pente, Some(0.0), Some(90.0)),
       surfaceTotale := EnterNumber(f.surfaceTotale, Some(0.0), None))
  }

  /** Once typed into the inputs, the roof form fails the rules only for a missing type or slope. */
  lemma ToitureEnteredPasses(f: ToitureFields)
    ensures ToitureRules(ToitureEntered(f)) <==> f.typeToiture.Some? && f.pente.Some?
  {
  }

  method NewToitureEditor(batimentId: Id) returns (ed: Editor<Toiture, ToitureFields>)
    ensures fresh(ed) && ed.batimentId == batimentId && !ed.deletable
    ensures ed.shown == ToitureShown && ed.prefill == ToiturePrefill && ed.rules == ToitureRules
    ensures ed.blank == ToitureBlank && ed.enter == ToitureEntered && !ed.isEditing && ed.form == ToitureBlank
    ensures ed.sent == [] && ed.invalidated == []
  {
    ed := new Editor(batimentId, ToitureShown, ToiturePrefill, ToitureRules, ToitureBlank, ToitureEntered, false);
  }

  // ---------------------------------------------------------------------------
  // Frame (no delete)
  // ---------------------------------------------------------------------------

  datatype CharpenteFields = CharpenteFields(typeCharpente: Option<TypeCharpente>, materiau: Option<string>)

  const CharpenteBlank := CharpenteFields(None, None)

  /** type required; materiau is free text. */
  predicate CharpenteRules(f: CharpenteFields) {
    f.typeCharpente.Some?
  }

  function CharpenteShown(x: Option<Charpente>): bool { x.Some? }

  function CharpentePrefill(f: CharpenteFields, x: Option<Charpente>): CharpenteFields {
    if x.None? then f else CharpenteFields(Some(x.value.typeCharpente), x.value.materiau)
  }

  /** Any existing frame pre-fills a form that passes, whatever its material. */
  lemma CharpentePrefillPasses(f: CharpenteFields, x: Charpente)
    ensures CharpenteRules(CharpentePrefill(f, Some(x)))
  {
  }

  /** A frame overwrites the whole form, whatever it held; "Ajouter" on none keeps it. */
  lemma CharpentePrefillReplaces(f: CharpenteFields, g: CharpenteFields, x: Option<Charpente>)
    ensures x.Some? ==> CharpentePrefill(f, x) == CharpentePrefill(g, x)
    ensures x.None? ==> CharpentePrefill(f, x) == f
  {
  }

  /** The frame form has no numeric input: what is chosen is committed as it is. */
  function CharpenteEntered(f: CharpenteFields): CharpenteFields { f }

  method NewCharpenteEditor(batimentId: Id) returns (ed: Editor<Charpente, CharpenteFields>)
    ensures fresh(ed) && ed.batimentId == batimentId && !ed.deletable
    ensures ed.shown == CharpenteShown && ed.prefill == CharpentePrefill && ed.rules == CharpenteRules
    ensures ed.blank == CharpenteBlank && ed.enter == CharpenteEntered && !ed.isEditing
    ensures ed.form == CharpenteBlank && ed.sent == [] && ed.invalidated == []
  {
    ed := new Editor(batimentId, CharpenteShown, CharpentePrefill, CharpenteRules, CharpenteBlank,
                     CharpenteEntered, false);
  }

  // ---------------------------------------------------------------------------
  // Electrical system (no delete)
  // ---------------------------------------------------------------------------

  /** The `tableauElectrique` sub-object is kept flat: clearing it clears its three fields. */
  datatype ElectriqueFields = ElectriqueFields(
    puissanceAbonnement: Option<real>, tableauType: Option<TypeSystemeElectrique>,
    tableauPuissance: Option<real>, nombreCircuits: Option<real>)

  const ElectriqueBlank := ElectriqueFields(None, None, None, None)

  /** All four fields required: subscription >= 0, board type, board power >= 0, at least one circuit. */
  predicate ElectriqueRules(f: ElectriqueFields) {
    AtLeast(f.puissanceAbonnement, 0.0) && f.tableauType.Some?
    && AtLeast(f.tableauPuissance, 0.0) && AtLeast(f.nombreCircuits, 1.0)
  }

  function ElectriqueShown(x: Option<SystemeElectrique>): bool { x.Some? }

  /** `handleEdit` copies the subscription and, only when there is a board, its three fields. */
  function ElectriquePrefill(f: ElectriqueFields, x: Option<SystemeElectrique>): ElectriqueFields
  {
    if x.None? then f
    else
      var s := x.value;
      if s.tableauElectrique.None? then ElectriqueFields(Some(s.puissanceAbonnement), None, None, None)
      else
        var b := s.tableauElectrique.value;
        ElectriqueFields(Some(s.puissanceAbonnement), Some(b.typeTableau), Some(b.puissance), Some(b.nombreCircuits))
  }

  /** A system without a board can never be saved unchanged: the board's fields are required. */
  lemma ElectriqueWithoutBoardFails(f: ElectriqueFields, x: SystemeElectrique)
    requires x.tableauElectrique.None?
    ensures !ElectriqueRules(ElectriquePrefill(f, Some(x)))
  {
  }

  /**
   * A system with a board pre-fills a form that passes iff the subscription
   * and the board's power are not negative and the board has a circuit.
   */
  lemma ElectriquePrefillPasses(f: ElectriqueFields, x: SystemeElectrique)
    requires x.tableauElectrique.Some?
    ensures var b := x.tableauElectrique.value;
      ElectriqueRules(ElectriquePrefill(f, Some(x))) <==>
        0.0 <= x.puissanceAbonnement && 0.0 <= b.puissance && 1.0 <= b.nombreCircuits
  {
  }

  /** A system overwrites the whole form, whatever it held (a missing board clears its fields). */
  lemma ElectriquePrefillReplaces(f: ElectriqueFields, g: ElectriqueFields, x: SystemeElectrique)
    ensures ElectriquePrefill(f, Some(x)) == ElectriquePrefill(g, Some(x))
  {
  }

  /** The form's inputs: subscription and board power at least 0, at least one circuit. */
  function ElectriqueEntered(f: ElectriqueFields): ElectriqueFields {
    f.(puissanceAbonnement := EnterNumber(f.puissanceAbonnement, Some(0.0), None),
       tableauPuissance := EnterNumber(f.tableauPuissance, Some(0.0), None),
       nombreCircuits := EnterNumber(f.nombreCircuits, Some(1.0), None))
  }

  /** Once typed into the inputs, the electrical form fails the rules only for a missing field. */
  lemma ElectriqueEnteredPasses(f: ElectriqueFields)
    ensures ElectriqueRules(ElectriqueEntered(f)) <==>
      f.puissanceAbonnement.Some? && f.tableauType.Some? && f.tableauPuissance.Some? && f.nombreCircuits.Some?
  {
  }

  method NewElectriqueEditor(batimentId: Id) returns (ed: Editor<SystemeElectrique, ElectriqueFields>)
    ensures fresh(ed) && ed.batimentId == batimentId && !ed.deletable
    ensures ed.shown == ElectriqueShown && ed.prefill == ElectriquePrefill && ed.rules == ElectriqueRules
    ensures ed.blank == ElectriqueBlank && ed.enter == ElectriqueEntered && !ed.isEditing
    ensures ed.form == ElectriqueBlank && ed.sent == [] && ed.invalidated == []
  {
    ed := new Editor(batimentId, ElectriqueShown, ElectriquePrefill, ElectriqueRules, ElectriqueBlank,
                     ElectriqueEntered, false);
  }

  // ---------------------------------------------------------------------------
  // Heating system (no delete; presence is the generator's)
  // ---------------------------------------------------------------------------

  datatype ChauffageFields = ChauffageFields(
    typeGenerateur: Option<TypeGenerateurChauffage>, energie: Option<TypeEnergie>,
    puissance: Option<real>, rendement: Option<real>)

  const ChauffageBlank := ChauffageFields(None, None, None, None)

  /** type, energie and puissance required, puissance >= 0; rendement, when given, within [0, 100]. */
  predicate ChauffageRules(f: ChauffageFields) {
    f.typeGenerateur.Some? && f.energie.Some? && AtLeast(f.puissance, 0.0)
    && WithinIfGiven(f.rendement, 0.0, 100.0)
  }

  /** The heating system counts as present only when it has a generator. */
  function ChauffageShown(x: Option<SystemeChauffage>): bool {
    x.Some? && x.value.generateur.Some?
  }

  function ChauffagePrefill(f: ChauffageFields, x: Option<SystemeChauffage>): ChauffageFields {
    if !ChauffageShown(x) then f
    else
      var gen := x.value.generateur.value;
      ChauffageFields(Some(gen.typeGenerateur), Some(gen.energie), Some(gen.puissance), gen.rendement)
  }

  /** A heating system without a generator shows the empty prompt, and "Ajouter" leaves the form as it was. */
  lemma ChauffageWithoutGenerator(typeChauffage: Option<string>, f: ChauffageFields)
    ensures var x := Some(SystemeChauffage(typeChauffage, None));
      ViewOf(false, ChauffageShown(x)) == EmptyPrompt && ChauffagePrefill(f, x) == f
  {
  }

  /**
   * A heating system with a generator pre-fills a form, whatever it held, that
   * passes iff the generator's power is not negative and its efficiency, when
   * known, lies within [0, 100].
   */
  lemma ChauffagePrefillPasses(f: ChauffageFields, g: ChauffageFields, x: SystemeChauffage)
    requires x.generateur.Some?
    ensures ChauffagePrefill(f, Some(x)) == ChauffagePrefill(g, Some(x))
    ensures var gen := x.generateur.value;
      ChauffageRules(ChauffagePrefill(f, Some(x))) <==>
        0.0 <= gen.puissance && (gen.rendement.None? || 0.0 <= gen.rendement.value <= 100.0)
  {
  }

  /** The form's inputs: power at least 0, efficiency within [0, 100]. */
  function ChauffageEntered(f: ChauffageFields): ChauffageFields {
    f.(puissance := EnterNumber(f.puissance, Some(0.0), None),
       rendement := EnterNumber(f.rendement, Some(0.0), Some(100.0)))
  }

  /** Once typed into the inputs, the heating form fails the rules only for a missing type, energy or power. */
  lemma ChauffageEnteredPasses(f: ChauffageFields)
    ensures ChauffageRules(ChauffageEntered(f)) <==>
      f.typeGenerateur.Some? && f.energie.Some? && f.puissance.Some?
  {
  }

  method NewChauffageEditor(batimentId: Id) returns (ed: Editor<SystemeChauffage, ChauffageFields>)
    ensures fresh(ed) && ed.batimentId == batimentId && !ed.deletable
    ensures ed.shown == ChauffageShown && ed.prefill == ChauffagePrefill && ed.rules == ChauffageRules
    ensures ed.blank == ChauffageBlank && ed.enter == ChauffageEntered && !ed.isEditing
    ensures ed.form == ChauffageBlank && ed.sent == [] && ed.invalidated == []
  {
    ed := new Editor(batimentId, ChauffageShown, ChauffagePrefill, ChauffageRules, ChauffageBlank,
                     ChauffageEntered, false);
  }

  // ---------------------------------------------------------------------------
  // Plumbing system (no delete; presence is the hot-water production's)
  // ---------------------------------------------------------------------------

  datatype PlomberieFields = PlomberieFields(
    typeProduction: Option<TypeProductionEauChaude>, capacite: Option<real>, puissance: Option<real>)

  const PlomberieBlank := PlomberieFields(None, None, None)

  /** type required, capacite required and >= 0; puissance free. */
  predicate PlomberieRules(f: PlomberieFields) {
    f.typeProduction.Some? && AtLeast(f.capacite, 0.0)
  }

  /** The plumbing system counts as present only when it has a hot-water production. */
  function PlomberieShown(x: Option<SystemePlomberie>): bool {
    x.Some? && x.value.productionEauChaude.Some?
  }

  function PlomberiePrefill(f: PlomberieFields, x: Option<SystemePlomberie>): PlomberieFields {
    if !PlomberieShown(x) then f
    else
      var p := x.value.productionEauChaude.value;
      PlomberieFields(Some(p.typeProduction), Some(p.capacite), p.puissance)
  }

  /**
   * A plumbing system with a hot-water production pre-fills a form, whatever
   * it held, that passes iff the production's capacity is not negative.
   */
  lemma PlomberiePrefillPasses(f: PlomberieFields, g: PlomberieFields, x: SystemePlomberie)
    requires x.productionEauChaude.Some?
    ensures PlomberiePrefill(f, Some(x)) == PlomberiePrefill(g, Some(x))
    ensures PlomberieRules(PlomberiePrefill(f, Some(x))) <==> 0.0 <= x.productionEauChaude.value.capacite
  {
  }

  /** A plumbing system without production shows the empty prompt, and "Ajouter" leaves the form as it was. */
  lemma PlomberieWithoutProduction(x: SystemePlomberie, f: PlomberieFields)
    requires x.productionEauChaude.None?
    ensures ViewOf(false, PlomberieShown(Some(x))) == EmptyPrompt && PlomberiePrefill(f, Some(x)) == f
  {
  }

  /** The form's inputs: capacity and power at least 0. */
  function PlomberieEntered(f: PlomberieFields): PlomberieFields {
    f.(capacite := EnterNumber(f.capacite, Some(0.0), None),
       puissance := EnterNumber(f.puissance, Some(0.0), None))
  }

  /** Once typed into the inputs, the plumbing form fails the rules only for a missing type or capacity. */
  lemma PlomberieEnteredPasses(f: PlomberieFields)
    ensures PlomberieRules(PlomberieEntered(f)) <==> f.typeProduction.Some? && f.capacite.Some?
  {
  }

  method NewPlomberieEditor(batimentId: Id) returns (ed: Editor<SystemePlomberie, PlomberieFields>)
    ensures fresh(ed) && ed.batimentId == batimentId && !ed.deletable
    ensures ed.shown == PlomberieShown && ed.prefill == PlomberiePrefill && ed.rules == PlomberieRules
    ensures ed.blank == PlomberieBlank && ed.enter == PlomberieEntered && !ed.isEditing
    ensures ed.form == PlomberieBlank && ed.sent == [] && ed.invalidated == []
  {
    ed := new Editor(batimentId, PlomberieShown, PlomberiePrefill, PlomberieRules, PlomberieBlank,
                     PlomberieEntered, false);
  }

  // ---------------------------------------------------------------------------
  // Ventilation system (no delete)
  // ---------------------------------------------------------------------------

  datatype VentilationFields = VentilationFields(typeVentilation: Option<TypeVentilation>)

  const VentilationBlank := VentilationFields(None)

  /** type required. */
  predicate VentilationRules(f: VentilationFields) {
    f.typeVentilation.Some?
  }

  function VentilationShown(x: Option<SystemeVentilation>): bool { x.Some? }

  function VentilationPrefill(f: VentilationFields, x: Option<SystemeVentilation>): VentilationFields {
    if x.None? then f else VentilationFields(Some(x.value.typeVentilation))
  }

  /** Any existing ventilation pre-fills a form, whatever it held, that passes; "Ajouter" on none keeps the form. */
  lemma VentilationPrefillPasses(f: VentilationFields, g: VentilationFields, x: Option<SystemeVentilation>)
    ensures x.Some? ==> VentilationPrefill(f, x) == VentilationPrefill(g, x) && VentilationRules(VentilationPrefill(f, x))
    ensures x.None? ==> VentilationPrefill(f, x) == f
  {
  }

  /** The ventilation form has no numeric input: what is chosen is committed as it is. */
  function VentilationEntered(f: VentilationFields): VentilationFields { f }

  method NewVentilationEditor(batimentId: Id) returns (ed: Editor<SystemeVentilation, VentilationFields>)
    ensures fresh(ed) && ed.batimentId == batimentId && !ed.deletable
    ensures ed.shown == VentilationShown && ed.prefill == VentilationPrefill && ed.rules == VentilationRules
    ensures ed.blank == VentilationBlank && ed.enter == VentilationEntered && !ed.isEditing
    ensures ed.form == VentilationBlank && ed.sent == [] && ed.invalidated == []
  {
    ed := new Editor(batimentId, VentilationShown, VentilationPrefill, VentilationRules, VentilationBlank,
                     VentilationEntered, false);
  }

  // ---------------------------------------------------------------------------
  // What the wizard creates, as the element forms then see it
  // ---------------------------------------------------------------------------

  /**
   * The terrain, foundations and roof a valid wizard record creates each
   * pre-fill a form that passes its rules: steps 3 to 5 are at least as
   * strict as the element forms.
   */
  lemma WizardElementsPassForms(d: WizardFormData, id: Id)
    requires forall k :: 0 <= k < LastStep ==> StepValid(k, d)
    ensures var calls := PlanFor(d, id).calls;
      var t, f, r := OfPhase(calls, 1), OfPhase(calls, 2), OfPhase(calls, 4);
      |t| == 1 && t[0].SetTerrain? && TerrainRules(TerrainPrefill(TerrainBlank, Some(t[0].terrain)))
      && |f| == 1 && f[0].SetFondations? && FondationsRules(FondationsPrefill(FondationsBlank, Some(f[0].fondations)))
      && |r| == 1 && r[0].SetToiture? && ToitureRules(ToiturePrefill(ToitureBlank, Some(r[0].toiture)))
  {
    assert StepValid(0, d) && StepValid(1, d) && StepValid(2, d) && StepValid(3, d) && StepValid(4, d);
    TerrainCallIff(d, id);
    FondationsCallIff(d, id);
    ToitureCallIff(d, id);
  }

  /**
   * The board the wizard sends with an electrical type has no circuit, so the
   * electrical form refuses to save the created system until the count is changed.
   */
  lemma WizardBoardFailsForm(d: WizardFormData, id: Id)
    requires Essentials(d) && Stop(d) == 10 && d.systemes.value.electriqueType.Some?
    ensures var e := OfPhase(PlanFor(d, id).calls, 5);
      |e| == 1 && e[0].SetElectrique? && e[0].tableau.Some? && e[0].tableau.value.nombreCircuits == 0.0
      && forall f, p :: !ElectriqueRules(ElectriquePrefill(f, Some(SystemeElectrique(p, e[0].tableau))))
  {
    ElectriqueCallIff(d, id);
  }

  /** The heating the wizard creates, with its defaults, pre-fills a form that passes. */
  lemma WizardHeatingPassesForm(d: WizardFormData, id: Id)
    requires Essentials(d) && Stop(d) == 10
    requires d.systemes.value.chauffagePuissance.None? || 0.0 <= d.systemes.value.chauffagePuissance.value
    ensures var c := OfPhase(PlanFor(d, id).calls, 6);
      |c| <= 1 && (|c| == 1 ==> c[0].SetChauffage? && ChauffageRules(ChauffagePrefill(ChauffageBlank, Some(c[0].chauffage))))
  {
    PlanPhase(d, id, 6);
    assert SystemesOf(d) == d.systemes.value;
    assert Segment(d, id, 6) == ChauffageCalls(d, id);
  }

  /** The plumbing the wizard creates, with its default capacity, pre-fills a form that passes. */
  lemma WizardPlumbingPassesForm(d: WizardFormData, id: Id)
    requires Essentials(d) && Stop(d) == 10
    requires d.systemes.value.capacite.None? || 0.0 <= d.systemes.value.capacite.value
    ensures var p := OfPhase(PlanFor(d, id).calls, 8);
      |p| <= 1 && (|p| == 1 ==> p[0].SetPlomberie? && PlomberieRules(PlomberiePrefill(PlomberieBlank, Some(p[0].plomberie))))
  {
    PlanPhase(d, id, 8);
    assert SystemesOf(d) == d.systemes.value;
    assert Segment(d, id, 8) == PlomberieCalls(d, id);
  }
}
