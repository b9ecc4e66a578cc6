/**
 * The enumerations and records the building client exchanges with its server.
 * Optional properties are `Option`s; properties the client never reads
 * (contours, loads, finishes, ...) are not represented.
 */
module Types {
  import opened Common

  datatype TypeBatiment = MAISON_INDIVIDUELLE | IMMEUBLE | BATIMENT_AGRICOLE | BATIMENT_INDUSTRIEL
  datatype StatutBatiment = BROUILLON | EN_COURS | VALIDE | ARCHIVE
  datatype FormeBatiment = I | L | T | U | O | RECTANGULAIRE | CARRE | PERSONNALISE
  datatype TypeSol = ARGILE | SABLE | ROCHE | LIMON | GRAVIER | TOURBE | REMBLAI | MIXTE
  datatype TypeFondation = SEMELLES_FILANTES | RADIER_GENERAL | PIEUX_FORES | PIEUX_BATTUS | MICROPIEUX
  datatype TypeMur = MUR_PORTEUR | MUR_REFEND | CLOISON
  datatype MateriauMur = PARPAINGS | BRIQUE_MONOMUR | BETON_BANCHE | OSSATURE_BOIS
  datatype OrientationMur = NORD | SUD | EST | OUEST
  datatype TypePiece = SALON | CUISINE | CHAMBRE | SALLE_DE_BAIN | WC | COULOIR | GRENIER
  datatype TypeCharpente = TRADITIONNELLE | FERMETTES_INDUSTRIELLES | METALLIQUE
  datatype FormeToit = MONO_PENTE | DEUX_PENTES | QUATRE_PENTES
  datatype TypeToiture = TUILES_TERRE_CUITE | ARDOISES_NATURELLES | ZINC | BAC_ACIER | SHINGLE | VEGETALISEE | EPDM
  datatype TypeSystemeElectrique = MONOPHASE | TRIPHASE
  datatype TypeProductionEauChaude = CHAUFFE_EAU_ELECTRIQUE | CHAUFFE_EAU_GAZ | BALLON_THERMODYNAMIQUE
  datatype TypeGenerateurChauffage = CHAUDIERE_GAZ | CHAUDIERE_FIOUL | POMPE_A_CHALEUR | POELE_BOIS
  datatype TypeEnergie = GAZ | FIOUL | ELECTRICITE | BOIS
  datatype TypeVentilation = VMC_SIMPLE_FLUX | VMC_DOUBLE_FLUX | VENTILATION_NATURELLE

  /**
   * The partition types are not declared by the shared type definitions; the
   * partition form offers whatever values the server uses, kept here as text.
   */
  type TypeCloison = string

  // ---------------------------------------------------------------------------
  // Building elements
  // ---------------------------------------------------------------------------

  datatype Terrain = Terrain(
    surface: real,
    numeroParcellesCadastrales: Option<string>,
    typeSol: Option<TypeSol>,
    portanceSol: Option<real>,
    profondeurNappe: Option<real>,
    altitude: Option<real>)

  datatype Fondations = Fondations(typeFondation: TypeFondation, profondeur: real)

  datatype Charpente = Charpente(typeCharpente: TypeCharpente, materiau: Option<string>)

  datatype Toiture = Toiture(
    typeToiture: TypeToiture, forme: Option<FormeToit>, pente: real, surfaceTotale: Option<real>)

  datatype TableauElectrique = TableauElectrique(
    puissance: real, nombreCircuits: real, typeTableau: TypeSystemeElectrique)

  datatype SystemeElectrique = SystemeElectrique(
    puissanceAbonnement: real, tableauElectrique: Option<TableauElectrique>)

  datatype GenerateurChauffage = GenerateurChauffage(
    typeGenerateur: TypeGenerateurChauffage, puissance: real, energie: TypeEnergie, rendement: Option<real>)

  datatype SystemeChauffage = SystemeChauffage(
    typeChauffage: Option<string>, generateur: Option<GenerateurChauffage>)

  datatype ProductionEauChaude = ProductionEauChaude(
    typeProduction: TypeProductionEauChaude, capacite: real, puissance: Option<real>)

  datatype SystemePlomberie = SystemePlomberie(productionEauChaude: Option<ProductionEauChaude>)

  datatype SystemeVentilation = SystemeVentilation(typeVentilation: TypeVentilation)

  // ---------------------------------------------------------------------------
  // Collections inside a building
  // ---------------------------------------------------------------------------

  datatype Niveau = Niveau(
    id: Id, nom: string, numero: int, altitude: real, hauteurSousPlafond: real, surface: Option<real>)

  datatype Piece = Piece(
    id: Id, nom: string, typePiece: TypePiece, surface: real, hauteurSousPlafond: Option<real>)

  datatype Mur = Mur(
    id: Id, nom: Option<string>, longueur: real, hauteur: real, epaisseur: real,
    typeMur: TypeMur, materiau: Option<MateriauMur>, orientation: Option<OrientationMur>)

  datatype Cloison = Cloison(
    id: Id, longueur: real, hauteur: real, epaisseur: real, typeCloison: TypeCloison)

  // ---------------------------------------------------------------------------
  // List queries and validation reports
  // ---------------------------------------------------------------------------

  datatype BatimentFilters = BatimentFilters(
    nom: Option<string>, typeBatiment: Option<TypeBatiment>, statut: Option<StatutBatiment>)

  datatype Pagination = Pagination(page: Option<int>, size: Option<int>)

  datatype ValidationError = ValidationError(
    ruleName: string, field: string, message: string, severity: string)

  datatype ValidationResponse = ValidationResponse(
    valid: bool, errors: Option<seq<ValidationError>>, warnings: Option<seq<ValidationError>>)
}
