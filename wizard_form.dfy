/**
 * The nested record the building wizard collects over its six steps, the
 * validation rules of steps 1 to 5, and what one input does to the record.
 *
 * A group (`dimensions`, `terrain`, ...) is `None` while it is an undefined
 * object in the form store. The rules read fields by path, so a field of an
 * absent group reads as `undefined`. Writing a field creates its group.
 */
module WizardForm {
  import opened Common
  import opened Types

  datatype Dimensions = Dimensions(
    longueur: Option<real>, largeur: Option<real>, hauteur: Option<real>,
    nombreNiveaux: Option<real>, hauteurSousPlafond: Option<real>)

  datatype TerrainStep = TerrainStep(surface: Option<real>, typeSol: Option<TypeSol>, altitude: Option<real>)

  datatype FondationsStep = FondationsStep(typeFondation: Option<TypeFondation>, profondeur: Option<real>)

  datatype ToitureStep = ToitureStep(
    typeToiture: Option<TypeToiture>, forme: Option<FormeToit>, pente: Option<real>, surfaceTotale: Option<real>)

  /**
   * The systems group. Its four sub-objects are only ever read through
   * optional chaining, so an absent sub-object and one whose fields are all
   * undefined behave alike; the fields are therefore kept flat here.
   */
  datatype Systemes = Systemes(
    electriqueType: Option<TypeSystemeElectrique>,
    puissanceAbonnement: Option<real>,
    chauffageType: Option<TypeGenerateurChauffage>,
    chauffageEnergie: Option<TypeEnergie>,
    chauffagePuissance: Option<real>,
    ventilationType: Option<TypeVentilation>,
    productionType: Option<TypeProductionEauChaude>,
    capacite: Option<real>)

  datatype WizardFormData = WizardFormData(
    nom: Option<string>,
    typeBatiment: Option<TypeBatiment>,
    adresse: Option<string>,
    forme: Option<FormeBatiment>,
    dimensions: Option<Dimensions>,
    terrain: Option<TerrainStep>,
    fondations: Option<FondationsStep>,
    toiture: Option<ToitureStep>,
    systemes: Option<Systemes>)

  const NoDimensions := Dimensions(None, None, None, None, None)
  const NoTerrain := TerrainStep(None, None, None)
  const NoFondations := FondationsStep(None, None)
  const NoToiture := ToitureStep(None, None, None, None)
  const NoSystemes := Systemes(None, None, None, None, None, None, None, None)

  /** An empty form store, as `resetFields()` leaves it (the form declares no initial values). */
  const EmptyFormData := WizardFormData(None, None, None, None, None, None, None, None, None)

  /** The store once the mount effect has created every group as an empty object. */
  const InitialFormData := WizardFormData(
    None, None, None, None, Some(NoDimensions), Some(NoTerrain), Some(NoFondations),
    Some(NoToiture), Some(NoSystemes))

  // ---------------------------------------------------------------------------
  // Reading by path
  // ---------------------------------------------------------------------------

  function DimensionsOf(d: WizardFormData): Dimensions {
    if d.dimensions.Some? then d.dimensions.value else NoDimensions
  }
  function TerrainOf(d: WizardFormData): TerrainStep {
    if d.terrain.Some? then d.terrain.value else NoTerrain
  }
  function FondationsOf(d: WizardFormData): FondationsStep {
    if d.fondations.Some? then d.fondations.value else NoFondations
  }
  function ToitureOf(d: WizardFormData): ToitureStep {
    if d.toiture.Some? then d.toiture.value else NoToiture
  }
  function SystemesOf(d: WizardFormData): Systemes {
    if d.systemes.Some? then d.systemes.value else NoSystemes
  }

  // ---------------------------------------------------------------------------
  // Step rules (step 6, the systems, declares none)
  // ---------------------------------------------------------------------------

  /** Step 1: nom required, type required, forme required; adresse free. */
  predicate GeneraleValid(d: WizardFormData) {
    Filled(d.nom) && d.typeBatiment.Some? && d.forme.Some?
  }

  /** Step 2: longueur, largeur >= 0.1, nombreNiveaux >= 1, hauteurSousPlafond >= 2.0, all required; hauteur free. */
  predicate DimensionsValid(d: WizardFormData) {
    var g := DimensionsOf(d);
    AtLeast(g.longueur, 0.1) && AtLeast(g.largeur, 0.1)
    && AtLeast(g.nombreNiveaux, 1.0) && AtLeast(g.hauteurSousPlafond, 2.0)
  }

  /** Step 3: surface >= 1 and typeSol, both required; altitude free and unbounded. */
  predicate TerrainValid(d: WizardFormData) {
    AtLeast(TerrainOf(d).surface, 1.0) && TerrainOf(d).typeSol.Some?
  }

  /** Step 4: type required, profondeur required and >= 0.1. */
  predicate FondationsValid(d: WizardFormData) {
    FondationsOf(d).typeFondation.Some? && AtLeast(FondationsOf(d).profondeur, 0.1)
  }

  /** Step 5: type required, pente required and within [0, 90]; forme and surfaceTotale free. */
  predicate ToitureValid(d: WizardFormData) {
    ToitureOf(d).typeToiture.Some? && Within(ToitureOf(d).pente, 0.0, 90.0)
  }

  const LastStep: nat := 5

  /** What `validateFields()` checks while step `k` is the one mounted. */
  predicate StepValid(k: nat, d: WizardFormData) {
    if k == 0 then GeneraleValid(d)
    else if k == 1 then DimensionsValid(d)
    else if k == 2 then TerrainValid(d)
    else if k == 3 then FondationsValid(d)
    else if k == 4 then ToitureValid(d)
    else true
  }

  // ---------------------------------------------------------------------------
  // One input on the mounted step
  // ---------------------------------------------------------------------------

  /**
   * What the user can do to one field. Text inputs deliver the typed text
   * (cleared = ''), number inputs a number or `null` when cleared, selects
   * one of their options, and the clearable selects may also deliver `undefined`.
   */
  datatype FieldInput =
    | Nom(text: string)
    | TypeBatimentChoice(typeBatiment: TypeBatiment)
    | Adresse(text: string)
    | FormeChoice(forme: FormeBatiment)
    | Longueur(number: Option<real>)
    | Largeur(number: Option<real>)
    | NombreNiveaux(number: Option<real>)
    | HauteurSousPlafond(number: Option<real>)
    | Hauteur(number: Option<real>)
    | TerrainSurface(number: Option<real>)
    | TypeSolChoice(typeSol: TypeSol)
    | TerrainAltitude(number: Option<real>)
    | FondationsTypeChoice(typeFondation: TypeFondation)
    | Profondeur(number: Option<real>)
    | ToitureTypeChoice(typeToiture: TypeToiture)
    | ToitureForme(formeToit: Option<FormeToit>)
    | Pente(number: Option<real>)
    | SurfaceTotale(number: Option<real>)
    | ElectriqueType(electriqueType: Option<TypeSystemeElectrique>)
    | PuissanceAbonnement(number: Option<real>)
    | ChauffageType(chauffageType: Option<TypeGenerateurChauffage>)
    | ChauffageEnergie(energie: Option<TypeEnergie>)
    | ChauffagePuissance(number: Option<real>)
    | VentilationType(ventilationType: Option<TypeVentilation>)
    | ProductionType(productionType: Option<TypeProductionEauChaude>)
    | Capacite(number: Option<real>)

  /** The step (0-based) whose panel holds the field. */
  function StepOf(w: FieldInput): (k: nat)
    ensures k <= LastStep
  {
    match w
    case Nom(_) => 0
    case TypeBatimentChoice(_) => 0
    case Adresse(_) => 0
    case FormeChoice(_) => 0
    case Longueur(_) => 1
    case Largeur(_) => 1
    case NombreNiveaux(_) => 1
    case HauteurSousPlafond(_) => 1
    case Hauteur(_) => 1
    case TerrainSurface(_) => 2
    case TypeSolChoice(_) => 2
    case TerrainAltitude(_) => 2
    case FondationsTypeChoice(_) => 3
    case Profondeur(_) => 3
    case ToitureTypeChoice(_) => 4
    case ToitureForme(_) => 4
    case Pente(_) => 4
    case SurfaceTotale(_) => 4
    case _ => 5
  }

  const NomMaxLength: nat := 100
  const AdresseMaxLength: nat := 200

  /** The form record after one input, with the caps the inputs themselves enforce. */
  function Write(d: WizardFormData, w: FieldInput): WizardFormData {
    var g := DimensionsOf(d);
    var t := TerrainOf(d);
    var f := FondationsOf(d);
    var r := ToitureOf(d);
    var s := SystemesOf(d);
    match w
    case Nom(text) => d.(nom := Some(LimitText(text, NomMaxLength)))
    case TypeBatimentChoice(v) => d.(typeBatiment := Some(v))
    case Adresse(text) => d.(adresse := Some(LimitText(text, AdresseMaxLength)))
    case FormeChoice(v) => d.(forme := Some(v))
    case Longueur(x) => d.(dimensions := Some(g.(longueur := EnterNumber(x, Some(0.1), None))))
    case Largeur(x) => d.(dimensions := Some(g.(largeur := EnterNumber(x, Some(0.1), None))))
    case NombreNiveaux(x) => d.(dimensions := Some(g.(nombreNiveaux := EnterNumber(x, Some(1.0), Some(50.0)))))
    case HauteurSousPlafond(x) =>
      d.(dimensions := Some(g.(hauteurSousPlafond := EnterNumber(x, Some(2.0), Some(10.0)))))
    case Hauteur(x) => d.(dimensions := Some(g.(hauteur := EnterNumber(x, Some(0.0), None))))
    case TerrainSurface(x) => d.(terrain := Some(t.(surface := EnterNumber(x, Some(1.0), None))))
    case TypeSolChoice(v) => d.(terrain := Some(t.(typeSol := Some(v))))
    case TerrainAltitude(x) => d.(terrain := Some(t.(altitude := x)))
    case FondationsTypeChoice(v) => d.(fondations := Some(f.(typeFondation := Some(v))))
    case Profondeur(x) => d.(fondations := Some(f.(profondeur := EnterNumber(x, Some(0.1), Some(20.0)))))
    case ToitureTypeChoice(v) => d.(toiture := Some(r.(typeToiture := Some(v))))
    case ToitureForme(v) => d.(toiture := Some(r.(forme := v)))
    case Pente(x) => d.(toiture := Some(r.(pente := EnterNumber(x, Some(0.0), Some(90.0)))))
    case SurfaceTotale(x) => d.(toiture := Some(r.(surfaceTotale := EnterNumber(x, Some(0.0), None))))
    case ElectriqueType(v) => d.(systemes := Some(s.(electriqueType := v)))
    case PuissanceAbonnement(x) => d.(systemes := Some(s.(puissanceAbonnement := EnterNumber(x, Some(0.0), None))))
    case ChauffageType(v) => d.(systemes := Some(s.(chauffageType := v)))
    case ChauffageEnergie(v) => d.(systemes := Some(s.(chauffageEnergie := v)))
    case ChauffagePuissance(x) => d.(systemes := Some(s.(chauffagePuissance := EnterNumber(x, Some(0.0), None))))
    case VentilationType(v) => d.(systemes := Some(s.(ventilationType := v)))
    case ProductionType(v) => d.(systemes := Some(s.(productionType := v)))
    case Capacite(x) => d.(systemes := Some(s.(capacite := EnterNumber(x, Some(0.0), None))))
  }

  /** An input on one step leaves the verdict of every other step as it was. */
  lemma WriteKeepsOtherSteps(d: WizardFormData, w: FieldInput, k: nat)
    requires k != StepOf(w)
    ensures StepValid(k, Write(d, w)) == StepValid(k, d)
  {
  }

  /** Writing never removes a group, and writing a field creates the group that holds it. */
  lemma WriteKeepsGroups(d: WizardFormData, w: FieldInput)
    ensures var e := Write(d, w);
      (d.dimensions.Some? ==> e.dimensions.Some?) && (d.terrain.Some? ==> e.terrain.Some?)
      && (d.fondations.Some? ==> e.fondations.Some?) && (d.toiture.Some? ==> e.toiture.Some?)
      && (d.systemes.Some? ==> e.systemes.Some?)
    ensures StepOf(w) == LastStep ==> Write(d, w).systemes.Some?
  {
  }

  /** The values the inputs let through: names within their caps, counts and heights within their bounds. */
  lemma WriteRespectsInputBounds(d: WizardFormData, w: FieldInput)
    requires d.nom.Some? ==> |d.nom.value| <= NomMaxLength
    requires d.adresse.Some? ==> |d.adresse.value| <= AdresseMaxLength
    requires WithinIfGiven(DimensionsOf(d).nombreNiveaux, 1.0, 50.0)
    requires WithinIfGiven(DimensionsOf(d).hauteurSousPlafond, 2.0, 10.0)
    requires WithinIfGiven(FondationsOf(d).profondeur, 0.1, 20.0)
    ensures var e := Write(d, w);
      (e.nom.Some? ==> |e.nom.value| <= NomMaxLength)
      && (e.adresse.Some? ==> |e.adresse.value| <= AdresseMaxLength)
      && WithinIfGiven(DimensionsOf(e).nombreNiveaux, 1.0, 50.0)
      && WithinIfGiven(DimensionsOf(e).hauteurSousPlafond, 2.0, 10.0)
      && WithinIfGiven(FondationsOf(e).profondeur, 0.1, 20.0)
  {
  }

  /** The rules of step 1 exactly: the form passes iff nom is non-empty and type and forme are chosen; adresse never matters. */
  lemma GeneraleRules(d: WizardFormData, adresse: Option<string>)
    ensures GeneraleValid(d) <==> (d.nom.Some? && |d.nom.value| > 0 && d.typeBatiment.Some? && d.forme.Some?)
    ensures GeneraleValid(d.(adresse := adresse)) == GeneraleValid(d)
  {
  }

  /** Steps 2 to 5: the optional fields never decide, and a step whose group is undefined fails. */
  lemma StepRules(d: WizardFormData, h: Option<real>, altitude: Option<real>, forme: Option<FormeToit>, st: Option<real>)
    ensures DimensionsValid(d.(dimensions := Some(DimensionsOf(d).(hauteur := h)))) == DimensionsValid(d)
    ensures TerrainValid(d.(terrain := Some(TerrainOf(d).(altitude := altitude)))) == TerrainValid(d)
    ensures ToitureValid(d.(toiture := Some(ToitureOf(d).(forme := forme, surfaceTotale := st)))) == ToitureValid(d)
    ensures d.terrain.None? ==> !TerrainValid(d)
    ensures d.dimensions.None? ==> !DimensionsValid(d)
    ensures d.fondations.None? ==> !FondationsValid(d)
    ensures d.toiture.None? ==> !ToitureValid(d)
  {
  }

  /**
   * The rules of step 2 and the bounds of its inputs agree: once length,
   * width, level count and ceiling height are typed into the inputs, the step
   * fails only for a value left empty, whatever number was typed.
   */
  lemma DimensionsEnteredPass(d: WizardFormData, lo: Option<real>, la: Option<real>, n: Option<real>, hsp: Option<real>)
    ensures DimensionsValid(Write(Write(Write(Write(d, Longueur(lo)), Largeur(la)), NombreNiveaux(n)), HauteurSousPlafond(hsp)))
      <==> lo.Some? && la.Some? && n.Some? && hsp.Some?
  {
    var d1 := Write(d, Longueur(lo));
    assert DimensionsOf(d1).longueur == EnterNumber(lo, Some(0.1), None);
    var d2 := Write(d1, Largeur(la));
    assert DimensionsOf(d2).longueur == DimensionsOf(d1).longueur;
    assert DimensionsOf(d2).largeur == EnterNumber(la, Some(0.1), None);
    var d3 := Write(d2, NombreNiveaux(n));
    assert DimensionsOf(d3) == DimensionsOf(d2).(nombreNiveaux := EnterNumber(n, Some(1.0), Some(50.0)));
    var d4 := Write(d3, HauteurSousPlafond(hsp));
    assert DimensionsOf(d4) == DimensionsOf(d3).(hauteurSousPlafond := EnterNumber(hsp, Some(2.0), Some(10.0)));
  }

  /** The same for step 3: with the soil type chosen, only an empty surface fails. */
  lemma TerrainEnteredPass(d: WizardFormData, surface: Option<real>, sol: TypeSol)
    ensures TerrainValid(Write(Write(d, TerrainSurface(surface)), TypeSolChoice(sol))) <==> surface.Some?
  {
    var d1 := Write(d, TerrainSurface(surface));
    assert TerrainOf(d1).surface == EnterNumber(surface, Some(1.0), None);
    assert TerrainOf(Write(d1, TypeSolChoice(sol))) == TerrainOf(d1).(typeSol := Some(sol));
  }

  /** The same for step 4: with the foundation type chosen, only an empty depth fails. */
  lemma FondationsEnteredPass(d: WizardFormData, typeF: TypeFondation, prof: Option<real>)
    ensures FondationsValid(Write(Write(d, FondationsTypeChoice(typeF)), Profondeur(prof))) <==> prof.Some?
  {
    var d1 := Write(d, FondationsTypeChoice(typeF));
    assert FondationsOf(d1).typeFondation == Some(typeF);
    assert FondationsOf(Write(d1, Profondeur(prof))) == FondationsOf(d1).(profondeur := EnterNumber(prof, Some(0.1), Some(20.0)));
  }

  /** The same for step 5: with the roof type chosen, only an empty pitch fails. */
  lemma ToitureEnteredPass(d: WizardFormData, typeT: TypeToiture, pente: Option<real>)
    ensures ToitureValid(Write(Write(d, ToitureTypeChoice(typeT)), Pente(pente))) <==> pente.Some?
  {
    var d1 := Write(d, ToitureTypeChoice(typeT));
    assert ToitureOf(d1).typeToiture == Some(typeT);
    assert ToitureOf(Write(d1, Pente(pente))) == ToitureOf(d1).(pente := EnterNumber(pente, Some(0.0), Some(90.0)));
  }
}
