/**
 * The four collection managers' modal forms: what each form store holds, the
 * rules of its fields, how `handleEdit` fills it from a row, what `handleAdd`
 * puts in it (for levels, the next free level number), and the manager each
 * becomes as an instance of `CollectionManager.Manager`, together with the
 * bounds its `InputNumber`s put on what the user types.
 *
 * `handleEdit` passes an object literal naming every field, so every field is
 * overwritten, an absent optional property with `undefined`.
 */
module CollectionForms {
  import opened Common
  import opened Types
  import opened CollectionManager

  // ---------------------------------------------------------------------------
  // Levels
  // ---------------------------------------------------------------------------

  datatype NiveauFields = NiveauFields(
    nom: Option<string>, numero: Option<int>, altitude: Option<real>,
    hauteurSousPlafond: Option<real>, surface: Option<real>)

  const NiveauBlank := NiveauFields(None, None, None, None, None)

  /** nom and numero required; altitude, ceiling height and surface are free. */
  predicate NiveauRules(f: NiveauFields) {
    Filled(f.nom) && f.numero.Some?
  }

  function NiveauId(n: Niveau): Id { n.id }

  /** `handleEdit`: nom, numero, altitude, hauteurSousPlafond and surface copied from the level. */
  function NiveauFieldsOf(n: Niveau): NiveauFields {
    NiveauFields(Some(n.nom), Some(n.numero), Some(n.altitude), Some(n.hauteurSousPlafond), n.surface)
  }

  /** The largest level number of a non-empty list (`Math.max` over the numbers). */
  function MaxNumero(ns: seq<Niveau>): (m: int)
    requires |ns| > 0
    ensures forall i :: 0 <= i < |ns| ==> ns[i].numero <= m
    ensures exists i :: 0 <= i < |ns| && ns[i].numero == m
  {
    if |ns| == 1 then ns[0].numero
    else
      var rest := MaxNumero(ns[..|ns| - 1]);
      var last := ns[|ns| - 1].numero;
      assert forall i :: 0 <= i < |ns| - 1 ==> ns[..|ns| - 1][i] == ns[i];
      if rest < last then last else rest
  }

  /**
   * The default number of a new level: 0 for a building without levels,
   * otherwise one more than the largest number. It lies above every existing
   * number, and nothing smaller does.
   */
  function NextNumero(ns: seq<Niveau>): (k: int)
    ensures |ns| == 0 ==> k == 0
    ensures forall i :: 0 <= i < |ns| ==> ns[i].numero < k
    ensures |ns| > 0 ==> exists i :: 0 <= i < |ns| && ns[i].numero == k - 1
  {
    if |ns| > 0 then MaxNumero(ns) + 1 else 0
  }

  /** The default never repeats an existing number. */
  lemma NextNumeroIsFree(ns: seq<Niveau>)
    ensures forall i :: 0 <= i < |ns| ==> ns[i].numero != NextNumero(ns)
  {
  }

  /** Any number above every existing one is at least the default. */
  lemma NextNumeroIsLeast(ns: seq<Niveau>, k: int)
    requires |ns| > 0
    requires forall i :: 0 <= i < |ns| ==> ns[i].numero < k
    ensures NextNumero(ns) <= k
  {
    var j :| 0 <= j < |ns| && ns[j].numero == NextNumero(ns) - 1;
    assert ns[j].numero < k;
  }

  /** Adding a level with the default number moves the default up by one. */
  lemma NextNumeroAfterAdd(ns: seq<Niveau>, n: Niveau)
    requires n.numero == NextNumero(ns)
    ensures NextNumero(ns + [n]) == NextNumero(ns) + 1
  {
    var ms := ns + [n];
    assert ms[|ms| - 1] == n;
    assert forall i :: 0 <= i < |ns| ==> ms[i] == ns[i];
    assert n.numero < NextNumero(ms);
    var j :| 0 <= j < |ms| && ms[j].numero == NextNumero(ms) - 1;
    if j < |ns| {
      assert false;
    }
  }

  /** Levels numbered 0, 1, …, N-1 in order (as the creation wizard makes them) give N as the default. */
  lemma {:induction false} NextNumeroOfConsecutive(ns: seq<Niveau>)
    requires forall i :: 0 <= i < |ns| ==> ns[i].numero == i
    ensures NextNumero(ns) == |ns|
    decreases |ns|
  {
    if |ns| > 0 {
      var init := ns[..|ns| - 1];
      assert forall i :: 0 <= i < |init| ==> init[i] == ns[i];
      NextNumeroOfConsecutive(init);
      assert ns == init + [ns[|ns| - 1]];
      NextNumeroAfterAdd(init, ns[|ns| - 1]);
    }
  }

  /** `handleAdd`: the reset form with only the default number set. */
  function NiveauAddForm(ns: seq<Niveau>): (f: NiveauFields)
    ensures f == NiveauBlank.(numero := f.numero)
    ensures f.numero.Some? && forall i :: 0 <= i < |ns| ==> ns[i].numero < f.numero.value
  {
    NiveauBlank.(numero := Some(NextNumero(ns)))
  }

  /** A fresh add form still needs a name, and a non-empty name is all it needs. */
  lemma NiveauAddFormNeedsNom(ns: seq<Niveau>, nom: string)
    ensures !NiveauRules(NiveauAddForm(ns))
    ensures NiveauRules(NiveauAddForm(ns).(nom := Some(nom))) <==> nom != ""
  {
  }

  /** An existing level opened for editing passes the rules iff its name is not empty. */
  lemma NiveauEditPasses(n: Niveau)
    ensures NiveauRules(NiveauFieldsOf(n)) <==> n.nom != ""
  {
  }

  /** The modal's inputs: numero within [-10, 50]; ceiling height and surface at least 0; altitude free. */
  function NiveauEntered(f: NiveauFields): NiveauFields {
    f.(numero := EnterInt(f.numero, -10, 50),
       hauteurSousPlafond := EnterNumber(f.hauteurSousPlafond, Some(0.0), None),
       surface := EnterNumber(f.surface, Some(0.0), None))
  }

  /**
   * The inputs never decide validity, and whatever is typed the committed
   * number lies in [-10, 50] and the ceiling height and surface are not negative.
   */
  lemma NiveauEnteredBounds(f: NiveauFields)
    ensures NiveauRules(NiveauEntered(f)) == NiveauRules(f)
    ensures var g := NiveauEntered(f);
      (g.numero.Some? ==> -10 <= g.numero.value <= 50)
      && (g.hauteurSousPlafond.Some? ==> 0.0 <= g.hauteurSousPlafond.value)
      && (g.surface.Some? ==> 0.0 <= g.surface.value)
  {
  }

  /** An existing level opened for editing, with a number in [-10, 50], is committed unchanged by the inputs' bounds. */
  lemma NiveauEnteredKeepsLevel(n: Niveau)
    requires -10 <= n.numero <= 50 && 0.0 <= n.hauteurSousPlafond
    requires n.surface.None? || 0.0 <= n.surface.value
    ensures NiveauEntered(NiveauFieldsOf(n)) == NiveauFieldsOf(n)
  {
  }

  method NewNiveauxManager(batimentId: Id) returns (m: Manager<Niveau, NiveauFields>)
    ensures fresh(m) && m.batimentId == batimentId && m.niveauId.None? && m.duplicable
    ensures m.idOf == NiveauId && m.fieldsOf == NiveauFieldsOf && m.addForm == NiveauAddForm
    ensures m.rules == NiveauRules && m.blank == NiveauBlank && m.enter == NiveauEntered
    ensures m.CurrentMode() == Closed && m.sent == [] && m.invalidated == [] && m.Valid()
  {
    m := new Manager(batimentId, None, NiveauId, NiveauFieldsOf, NiveauAddForm, NiveauRules, NiveauBlank,
                     NiveauEntered, true);
  }

  // ---------------------------------------------------------------------------
  // Rooms
  // ---------------------------------------------------------------------------

  datatype PieceFields = PieceFields(
    nom: Option<string>, typePiece: Option<TypePiece>, surface: Option<real>, hauteurSousPlafond: Option<real>)

  const PieceBlank := PieceFields(None, None, None, None)

  /** nom and type required, surface required and >= 0; the ceiling height is free. */
  predicate PieceRules(f: PieceFields) {
    Filled(f.nom) && f.typePiece.Some? && AtLeast(f.surface, 0.0)
  }

  function PieceId(p: Piece): Id { p.id }

  /** `handleEdit`: nom, type, surface and hauteurSousPlafond copied from the room. */
  function PieceFieldsOf(p: Piece): PieceFields {
    PieceFields(Some(p.nom), Some(p.typePiece), Some(p.surface), p.hauteurSousPlafond)
  }

  /** `handleAdd`: the reset form. */
  function PieceAddForm(ps: seq<Piece>): (f: PieceFields)
    ensures f == PieceBlank && !PieceRules(f)
  {
    PieceBlank
  }

  /** An existing room opened for editing passes iff its name is not empty and its surface not negative. */
  lemma PieceEditPasses(p: Piece)
    ensures PieceRules(PieceFieldsOf(p)) <==> p.nom != "" && p.surface >= 0.0
  {
  }

  /** The modal's inputs: surface and ceiling height at least 0. */
  function PieceEntered(f: PieceFields): PieceFields {
    f.(surface := EnterNumber(f.surface, Some(0.0), None),
       hauteurSousPlafond := EnterNumber(f.hauteurSousPlafond, Some(0.0), None))
  }

  /** Once typed into the inputs, a room's form fails the rules only for a missing name, type or surface. */
  lemma PieceEnteredPasses(f: PieceFields)
    ensures PieceRules(PieceEntered(f)) <==> Filled(f.nom) && f.typePiece.Some? && f.surface.Some?
  {
  }

  method NewPiecesManager(batimentId: Id, niveauId: Id) returns (m: Manager<Piece, PieceFields>)
    ensures fresh(m) && m.batimentId == batimentId && m.niveauId == Some(niveauId) && !m.duplicable
    ensures m.idOf == PieceId && m.fieldsOf == PieceFieldsOf && m.addForm == PieceAddForm
    ensures m.rules == PieceRules && m.blank == PieceBlank && m.enter == PieceEntered
    ensures m.CurrentMode() == Closed && m.sent == [] && m.invalidated == [] && m.Valid()
  {
    m := new Manager(batimentId, Some(niveauId), PieceId, PieceFieldsOf, PieceAddForm, PieceRules, PieceBlank,
                     PieceEntered, false);
  }

  // ---------------------------------------------------------------------------
  // Walls
  // ---------------------------------------------------------------------------

  datatype MurFields = MurFields(
    nom: Option<string>, longueur: Option<real>, hauteur: Option<real>, epaisseur: Option<real>,
    typeMur: Option<TypeMur>, materiau: Option<MateriauMur>, orientation: Option<OrientationMur>)

  const MurBlank := MurFields(None, None, None, None, None, None, None)

  /** type required, the three dimensions required and >= 0; nom, material and orientation are free. */
  predicate MurRules(f: MurFields) {
    f.typeMur.Some? && AtLeast(f.longueur, 0.0) && AtLeast(f.hauteur, 0.0) && AtLeast(f.epaisseur, 0.0)
  }

  function MurId(w: Mur): Id { w.id }

  /** `handleEdit`: all seven fields copied from the wall. */
  function MurFieldsOf(w: Mur): MurFields {
    MurFields(w.nom, Some(w.longueur), Some(w.hauteur), Some(w.epaisseur), Some(w.typeMur), w.materiau, w.orientation)
  }

  /** `handleAdd`: the reset form. */
  function MurAddForm(ws: seq<Mur>): (f: MurFields)
    ensures f == MurBlank && !MurRules(f)
  {
    MurBlank
  }

  /** The optional fields never decide validity. */
  lemma MurRulesIgnoreOptional(f: MurFields, nom: Option<string>, materiau: Option<MateriauMur>,
                               orientation: Option<OrientationMur>)
    ensures MurRules(f.(nom := nom, materiau := materiau, orientation := orientation)) == MurRules(f)
  {
  }

  /** An existing wall opened for editing passes iff none of its dimensions is negative. */
  lemma MurEditPasses(w: Mur)
    ensures MurRules(MurFieldsOf(w)) <==> w.longueur >= 0.0 && w.hauteur >= 0.0 && w.epaisseur >= 0.0
  {
  }

  /** The modal's inputs: length, height and thickness at least 0. */
  function MurEntered(f: MurFields): MurFields {
    f.(longueur := EnterNumber(f.longueur, Some(0.0), None),
       hauteur := EnterNumber(f.hauteur, Some(0.0), None),
       epaisseur := EnterNumber(f.epaisseur, Some(0.0), None))
  }

  /** Once typed into the inputs, a wall's form fails the rules only for a missing type or dimension. */
  lemma MurEnteredPasses(f: MurFields)
    ensures MurRules(MurEntered(f)) <==>
      f.typeMur.Some? && f.longueur.Some? && f.hauteur.Some? && f.epaisseur.Some?
  {
  }

  method NewMursManager(batimentId: Id, niveauId: Id) returns (m: Manager<Mur, MurFields>)
    ensures fresh(m) && m.batimentId == batimentId && m.niveauId == Some(niveauId) && !m.duplicable
    ensures m.idOf == MurId && m.fieldsOf == MurFieldsOf && m.addForm == MurAddForm
    ensures m.rules == MurRules && m.blank == MurBlank && m.enter == MurEntered
    ensures m.CurrentMode() == Closed && m.sent == [] && m.invalidated == [] && m.Valid()
  {
    m := new Manager(batimentId, Some(niveauId), MurId, MurFieldsOf, MurAddForm, MurRules, MurBlank,
                     MurEntered, false);
  }

  // ---------------------------------------------------------------------------
  // Partitions
  // ---------------------------------------------------------------------------

  /** `cloisons ?? []`: an absent list (undefined or null) is the empty list. */
  function CloisonsList(cloisons: Option<seq<Cloison>>): seq<Cloison> {
    if cloisons.Some? then cloisons.value else []
  }

  /** The card's title, with the number of partitions. */
  function CloisonsTitle(cloisons: Option<seq<Cloison>>): string {
    "Cloisons (" + NatToString(|CloisonsList(cloisons)|) + ")"
  }

  /** The table is shown only for a non-empty list; otherwise the empty state. */
  predicate CloisonsShowTable(cloisons: Option<seq<Cloison>>) {
    |CloisonsList(cloisons)| > 0
  }

  /**
   * An absent list renders exactly as an empty one, and the title tells apart
   * lists of different lengths.
   */
  lemma CloisonsAbsentIsEmpty(cs: Option<seq<Cloison>>, ds: Option<seq<Cloison>>)
    ensures CloisonsTitle(None) == CloisonsTitle(Some([])) && !CloisonsShowTable(None)
    ensures CloisonsTitle(cs) == CloisonsTitle(ds) <==> |CloisonsList(cs)| == |CloisonsList(ds)|
  {
    var p := "Cloisons (";
    if CloisonsTitle(cs) == CloisonsTitle(ds) {
      var a, b := NatToString(|CloisonsList(cs)|), NatToString(|CloisonsList(ds)|);
      assert p + a + ")" == p + b + ")";
      assert a == (p + a + ")")[|p|..|p| + |a|];
      assert b == (p + b + ")")[|p|..|p| + |b|];
      NatToStringInjective(|CloisonsList(cs)|, |CloisonsList(ds)|);
    }
  }

  datatype CloisonFields = CloisonFields(
    longueur: Option<real>, hauteur: Option<real>, epaisseur: Option<real>, typeCloison: Option<TypeCloison>)

  const CloisonBlank := CloisonFields(None, None, None, None)

  /** type required (a select over string values), the three dimensions required and >= 0. */
  predicate CloisonRules(f: CloisonFields) {
    Filled(f.typeCloison) && AtLeast(f.longueur, 0.0) && AtLeast(f.hauteur, 0.0) && AtLeast(f.epaisseur, 0.0)
  }

  function CloisonId(c: Cloison): Id { c.id }

  /** `handleEdit`: longueur, hauteur, epaisseur and type copied from the partition. */
  function CloisonFieldsOf(c: Cloison): CloisonFields {
    CloisonFields(Some(c.longueur), Some(c.hauteur), Some(c.epaisseur), Some(c.typeCloison))
  }

  /** `handleAdd`: the reset form. */
  function CloisonAddForm(cs: seq<Cloison>): (f: CloisonFields)
    ensures f == CloisonBlank && !CloisonRules(f)
  {
    CloisonBlank
  }

  /** An existing partition opened for editing passes iff it has a type and no negative dimension. */
  lemma CloisonEditPasses(c: Cloison)
    ensures CloisonRules(CloisonFieldsOf(c)) <==>
      c.typeCloison != "" && c.longueur >= 0.0 && c.hauteur >= 0.0 && c.epaisseur >= 0.0
  {
  }

  /** The modal's inputs: length, height and thickness at least 0. */
  function CloisonEntered(f: CloisonFields): CloisonFields {
    f.(longueur := EnterNumber(f.longueur, Some(0.0), None),
       hauteur := EnterNumber(f.hauteur, Some(0.0), None),
       epaisseur := EnterNumber(f.epaisseur, Some(0.0), None))
  }

  /** Once typed into the inputs, a partition's form fails the rules only for a missing type or dimension. */
  lemma CloisonEnteredPasses(f: CloisonFields)
    ensures CloisonRules(CloisonEntered(f)) <==>
      Filled(f.typeCloison) && f.longueur.Some? && f.hauteur.Some? && f.epaisseur.Some?
  {
  }

  method NewCloisonsManager(batimentId: Id, niveauId: Id) returns (m: Manager<Cloison, CloisonFields>)
    ensures fresh(m) && m.batimentId == batimentId && m.niveauId == Some(niveauId) && !m.duplicable
    ensures m.idOf == CloisonId && m.fieldsOf == CloisonFieldsOf && m.addForm == CloisonAddForm
    ensures m.rules == CloisonRules && m.blank == CloisonBlank && m.enter == CloisonEntered
    ensures m.CurrentMode() == Closed && m.sent == [] && m.invalidated == [] && m.Valid()
  {
    m := new Manager(batimentId, Some(niveauId), CloisonId, CloisonFieldsOf, CloisonAddForm, CloisonRules,
                     CloisonBlank, CloisonEntered, false);
  }
}
