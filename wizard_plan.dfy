/**
 * The wizard's submission: one form record becomes a fixed-order sequence of
 * server calls. `PlanFor` states which calls the record asks for and how the
 * sequence ends; `Mutate` issues them one `await` at a time, stopping at the
 * first call the server rejects. Calls already made are never undone.
 */
module WizardPlan {
  import opened Common
  import opened Types
  import opened WizardForm

  /** The server calls the wizard makes. There is no call that removes anything. */
  datatype Action =
    | Create(nom: string, typeBatiment: TypeBatiment, adresse: Option<string>)
    | SetTerrain(batimentId: Id, terrain: Terrain)
    | SetFondations(batimentId: Id, fondations: Fondations)
    | AddNiveau(batimentId: Id, nom: string, numero: nat, altitude: real, hauteurSousPlafond: real)
    | SetToiture(batimentId: Id, toiture: Toiture)
    | SetElectrique(batimentId: Id, puissanceAbonnement: Option<real>, tableau: Option<TableauElectrique>)
    | SetChauffage(batimentId: Id, chauffage: SystemeChauffage)
    | SetVentilation(batimentId: Id, ventilation: SystemeVentilation)
    | SetPlomberie(batimentId: Id, plomberie: SystemePlomberie)
    | GetById(batimentId: Id)

  /** The position of a call's block in the submission: 0 create ... 9 final read. */
  function Phase(a: Action): (p: nat)
    ensures p <= 9
  {
    match a
    case Create(_, _, _) => 0
    case SetTerrain(_, _) => 1
    case SetFondations(_, _) => 2
    case AddNiveau(_, _, _, _, _) => 3
    case SetToiture(_, _) => 4
    case SetElectrique(_, _, _) => 5
    case SetChauffage(_, _) => 6
    case SetVentilation(_, _) => 7
    case SetPlomberie(_, _) => 8
    case GetById(_) => 9
  }

  /** The calls of one block, in order. */
  function OfPhase(calls: seq<Action>, p: nat): (r: seq<Action>)
    ensures |r| <= |calls|
    ensures forall k :: 0 <= k < |r| ==> Phase(r[k]) == p
  {
    if calls == [] then []
    else (if Phase(calls[0]) == p then [calls[0]] else []) + OfPhase(calls[1..], p)
  }

  // ---------------------------------------------------------------------------
  // The guards and payloads of each block
  // ---------------------------------------------------------------------------

  /** The check that throws before any call: nom, type and forme must all be truthy. */
  predicate Essentials(d: WizardFormData) {
    Filled(d.nom) && d.typeBatiment.Some? && d.forme.Some?
  }

  /** The default ceiling height for generated levels. */
  const DefaultHauteurSousPlafond: real := 2.5

  /** `for (let i = 0; i < n; i++)` runs this many times. */
  function LoopCount(n: real): (c: nat)
    ensures forall i: nat {:trigger i as real} :: i < c <==> (i as real) < n
  {
    if n <= 0.0 then 0
    else
      var f := n.Floor;
      assert 0 <= f;
      if f as real == n then f else f + 1
  }

  /** `'RDC'` for the ground floor, `Étage i` above it. */
  function LevelName(i: nat): string {
    if i == 0 then "RDC" else "Étage " + NatToString(i)
  }

  function LevelCall(id: Id, i: nat, h: real): Action {
    AddNiveau(id, LevelName(i), i, (i as real) * h, h)
  }

  /** The call a counting loop makes at each index. */
  function LevelCallOf(id: Id, h: real): nat -> Action {
    (i: nat) => LevelCall(id, i, h)
  }

  /** `call(0), …, call(n - 1)`, in order: what a loop counting up to `n` issues. */
  function Repeat(call: nat -> Action, n: nat): seq<Action> {
    if n == 0 then [] else Repeat(call, n - 1) + [call(n - 1)]
  }

  /** The first `n` generated levels. */
  function LevelCalls(id: Id, n: nat, h: real): seq<Action> {
    Repeat(LevelCallOf(id, h), n)
  }

  /** Which group the guard of a block reads with plain property access. */
  predicate GroupPresent(d: WizardFormData, p: nat) {
    if p == 1 then d.terrain.Some?
    else if p == 2 then d.fondations.Some?
    else if p == 3 then d.dimensions.Some?
    else if p == 4 then d.toiture.Some?
    else if 5 <= p <= 8 then d.systemes.Some?
    else true
  }

  /**
   * The block whose guard reads an undefined group and throws a TypeError,
   * or 10 when the submission runs to the end.
   */
  function Stop(d: WizardFormData): (s: nat)
    ensures s == 10 || 1 <= s <= 5
    ensures forall p :: 1 <= p < s ==> GroupPresent(d, p)
    ensures s <= 5 ==> !GroupPresent(d, s)
  {
    if d.terrain.None? then 1
    else if d.fondations.None? then 2
    else if d.dimensions.None? then 3
    else if d.toiture.None? then 4
    else if d.systemes.None? then 5
    else 10
  }

  function CreateCalls(d: WizardFormData): seq<Action>
    requires Essentials(d)
  {
    [Create(d.nom.value, d.typeBatiment.value, d.adresse)]
  }

  function TerrainCalls(d: WizardFormData, id: Id): seq<Action> {
    var t := TerrainOf(d);
    if TruthyNum(t.surface) && t.typeSol.Some?
    then [SetTerrain(id, Terrain(t.surface.value, None, t.typeSol, None, None, t.altitude))]
    else []
  }

  function FondationsCalls(d: WizardFormData, id: Id): seq<Action> {
    var f := FondationsOf(d);
    if f.typeFondation.Some? && TruthyNum(f.profondeur)
    then [SetFondations(id, Fondations(f.typeFondation.value, f.profondeur.value))]
    else []
  }

  function NiveauxCalls(d: WizardFormData, id: Id): seq<Action> {
    var g := DimensionsOf(d);
    if TruthyNum(g.nombreNiveaux)
    then LevelCalls(id, LoopCount(g.nombreNiveaux.value), OrNum(g.hauteurSousPlafond, DefaultHauteurSousPlafond))
    else []
  }

  function ToitureCalls(d: WizardFormData, id: Id): seq<Action> {
    var r := ToitureOf(d);
    if r.typeToiture.Some? && r.pente.Some?
    then [SetToiture(id, Toiture(r.typeToiture.value, r.forme, r.pente.value, r.surfaceTotale))]
    else []
  }

  function ElectriqueCalls(d: WizardFormData, id: Id): seq<Action> {
    var s := SystemesOf(d);
    if TruthyNum(s.puissanceAbonnement) || s.electriqueType.Some?
    then [SetElectrique(id, s.puissanceAbonnement,
                        if s.electriqueType.Some? then Some(TableauElectrique(0.0, 0.0, s.electriqueType.value)) else None)]
    else []
  }

  function ChauffageCalls(d: WizardFormData, id: Id): seq<Action> {
    var s := SystemesOf(d);
    if s.chauffageType.Some?
    then [SetChauffage(id, SystemeChauffage(None, Some(GenerateurChauffage(
            s.chauffageType.value, OrNum(s.chauffagePuissance, 0.0),
            if s.chauffageEnergie.Some? then s.chauffageEnergie.value else ELECTRICITE, None))))]
    else []
  }

  function VentilationCalls(d: WizardFormData, id: Id): seq<Action> {
    var s := SystemesOf(d);
    if s.ventilationType.Some? then [SetVentilation(id, SystemeVentilation(s.ventilationType.value))] else []
  }

  function PlomberieCalls(d: WizardFormData, id: Id): seq<Action> {
    var s := SystemesOf(d);
    if s.productionType.Some?
    then [SetPlomberie(id, SystemePlomberie(Some(ProductionEauChaude(s.productionType.value, OrNum(s.capacite, 0.0), None))))]
    else []
  }

  /** The calls block `p` issues once its guard has been read. */
  function Segment(d: WizardFormData, id: Id, p: nat): seq<Action>
    requires Essentials(d)
  {
    if p == 0 then CreateCalls(d)
    else if p == 1 then TerrainCalls(d, id)
    else if p == 2 then FondationsCalls(d, id)
    else if p == 3 then NiveauxCalls(d, id)
    else if p == 4 then ToitureCalls(d, id)
    else if p == 5 then ElectriqueCalls(d, id)
    else if p == 6 then ChauffageCalls(d, id)
    else if p == 7 then VentilationCalls(d, id)
    else if p == 8 then PlomberieCalls(d, id)
    else if p == 9 then [GetById(id)]
    else []
  }

  /** Blocks 0 .. n-1 in order. */
  function Segments(d: WizardFormData, id: Id, n: nat): seq<Action>
    requires Essentials(d)
  {
    if n == 0 then [] else Segments(d, id, n - 1) + Segment(d, id, n - 1)
  }

  datatype Ending = Completes | MissingEssentialsThrown | TypeErrorThrown

  datatype Plan = Plan(calls: seq<Action>, ending: Ending)

  /** Every call the record asks for, on the assumption that the server accepts them all. */
  function PlanFor(d: WizardFormData, id: Id): Plan {
    if !Essentials(d) then Plan([], MissingEssentialsThrown)
    else Plan(Segments(d, id, Stop(d)), if Stop(d) == 10 then Completes else TypeErrorThrown)
  }

  // ---------------------------------------------------------------------------
  // Outcomes when the server may reject a call
  // ---------------------------------------------------------------------------

  datatype Failure = MissingEssentials | CallRejected(index: nat) | TypeError

  /** `Created(id)` leads to `onSuccess`; every failure to the single `onError` message. */
  datatype Outcome = Created(id: Id) | Failed(failure: Failure)

  /** The calls actually made when the server rejects the call at position `failAt` (if any). */
  function Issued(calls: seq<Action>, failAt: Option<nat>): seq<Action> {
    if failAt.Some? && failAt.value < |calls| then calls[..failAt.value + 1] else calls
  }

  function OutcomeOf(p: Plan, id: Id, failAt: Option<nat>): Outcome {
    if p.ending == MissingEssentialsThrown then Failed(MissingEssentials)
    else if failAt.Some? && failAt.value < |p.calls| then Failed(CallRejected(failAt.value))
    else if p.ending == TypeErrorThrown then Failed(TypeError)
    else Created(id)
  }

  /** One awaited call: it is made, and it succeeds unless the server rejects call number `|trace|`. */
  method Await(trace: seq<Action>, a: Action, failAt: Option<nat>) returns (next: seq<Action>, ok: bool)
    ensures next == trace + [a] && |next| == |trace| + 1
    ensures ok <==> failAt != Some(|trace|)
  {
    next := trace + [a];
    ok := failAt != Some(|trace|);
  }

  // ---------------------------------------------------------------------------
  // Facts about the blocks used by the submission proof
  // ---------------------------------------------------------------------------

  lemma {:induction false} RepeatAt(call: nat -> Action, n: nat)
    ensures |Repeat(call, n)| == n
    ensures forall k :: 0 <= k < n ==> Repeat(call, n)[k] == call(k)
  {
    if n > 0 {
      RepeatAt(call, n - 1);
    }
  }

  lemma {:induction false} LevelCallsAt(id: Id, n: nat, h: real)
    ensures |LevelCalls(id, n, h)| == n
    ensures forall k :: 0 <= k < n ==> LevelCalls(id, n, h)[k] == LevelCall(id, k, h)
  {
    RepeatAt(LevelCallOf(id, h), n);
  }

  /** One more iteration of a counting loop appends the next call. */
  lemma RepeatSnoc(trace: seq<Action>, call: nat -> Action, i: nat)
    ensures (trace + Repeat(call, i)) + [call(i)] == trace + Repeat(call, i + 1)
  {
  }

  lemma RepeatPrefix(call: nat -> Action, m: nat, n: nat)
    requires m <= n
    ensures Repeat(call, m) <= Repeat(call, n)
  {
    RepeatAt(call, m);
    RepeatAt(call, n);
  }

  lemma {:induction false} SegmentsPrefix(d: WizardFormData, id: Id, m: nat, n: nat)
    requires Essentials(d) && m <= n
    ensures Segments(d, id, m) <= Segments(d, id, n)
    decreases n
  {
    if m < n {
      SegmentsPrefix(d, id, m, n - 1);
    }
  }

  /** No call so far has been rejected. */
  predicate Pending(failAt: Option<nat>, trace: seq<Action>) {
    failAt.None? || failAt.value >= |trace|
  }

  /** The last call of `trace` was rejected: `trace` is what was made, and the submission fails there. */
  predicate RejectedLast(d: WizardFormData, id: Id, failAt: Option<nat>, trace: seq<Action>) {
    |trace| > 0 && trace == Issued(PlanFor(d, id).calls, failAt)
    && OutcomeOf(PlanFor(d, id), id, failAt) == Failed(CallRejected(|trace| - 1))
  }

  /** A rejection after a prefix of the plan: exactly that prefix was made. */
  lemma RejectionAfterPrefix(d: WizardFormData, id: Id, trace: seq<Action>, n: nat, failAt: Option<nat>)
    requires Essentials(d) && n <= Stop(d)
    requires trace <= Segments(d, id, n) && |trace| > 0 && failAt == Some(|trace| - 1)
    ensures RejectedLast(d, id, failAt, trace)
  {
    SegmentsPrefix(d, id, n, Stop(d));
  }

  /** Reading an undefined group after blocks 0 .. p-1: those calls were made and the submission throws. */
  lemma TypeErrorAfter(d: WizardFormData, id: Id, trace: seq<Action>, p: nat, failAt: Option<nat>)
    requires Essentials(d) && 1 <= p <= 8 && p <= Stop(d) && !GroupPresent(d, p)
    requires trace == Segments(d, id, p) && Pending(failAt, trace)
    ensures trace == Issued(PlanFor(d, id).calls, failAt)
    ensures Failed(TypeError) == OutcomeOf(PlanFor(d, id), id, failAt)
  {
  }

  // ---------------------------------------------------------------------------
  // The submission, one awaited call at a time
  // ---------------------------------------------------------------------------

  /** Block 2 of `mutationFn`: the terrain, when its surface and soil type are truthy. */
  method TerrainBlock(d: WizardFormData, id: Id, failAt: Option<nat>, trace: seq<Action>) returns (next: seq<Action>, ok: bool)
    requires Essentials(d) && 1 < Stop(d) && trace == Segments(d, id, 1) && Pending(failAt, trace)
    ensures ok ==> next == Segments(d, id, 2) && Pending(failAt, next)
    ensures !ok ==> RejectedLast(d, id, failAt, next)
  {
    next, ok := trace, true;
    var t := d.terrain.value;
    if TruthyNum(t.surface) && t.typeSol.Some? {
      next, ok := Await(next, SetTerrain(id, Terrain(t.surface.value, None, t.typeSol, None, None, t.altitude)), failAt);
      if !ok {
        RejectionAfterPrefix(d, id, next, 2, failAt);
      }
    }
  }

  /** Block 3: the foundations, when their type and depth are truthy; the type is sent as `typeFondation`. */
  method FondationsBlock(d: WizardFormData, id: Id, failAt: Option<nat>, trace: seq<Action>) returns (next: seq<Action>, ok: bool)
    requires Essentials(d) && 2 < Stop(d) && trace == Segments(d, id, 2) && Pending(failAt, trace)
    ensures ok ==> next == Segments(d, id, 3) && Pending(failAt, next)
    ensures !ok ==> RejectedLast(d, id, failAt, next)
  {
    next, ok := trace, true;
    var f := d.fondations.value;
    if f.typeFondation.Some? && TruthyNum(f.profondeur) {
      next, ok := Await(next, SetFondations(id, Fondations(f.typeFondation.value, f.profondeur.value)), failAt);
      if !ok {
        RejectionAfterPrefix(d, id, next, 3, failAt);
      }
    }
  }

  /**
   * The loop of block 4 on its own: `for (let i = 0; i < n; i++)`, one awaited
   * call per iteration (`call(i)`, the level `i`), stopping at the first
   * rejected call. `c` is the number of naturals below `n`.
   */
  method LevelLoop(n: real, c: nat, call: nat -> Action, failAt: Option<nat>, trace: seq<Action>) returns (next: seq<Action>, ok: bool)
    requires forall i: nat {:trigger i as real} :: i < c <==> (i as real) < n
    requires Pending(failAt, trace)
    ensures ok ==> next == trace + Repeat(call, c) && Pending(failAt, next)
    ensures !ok ==> |next| > 0 && next <= trace + Repeat(call, c) && failAt == Some(|next| - 1)
  {
    next, ok := trace, true;
    var i: nat := 0;
    while (i as real) < n
      invariant i <= c
      invariant next == trace + Repeat(call, i)
      invariant Pending(failAt, next)
      decreases c - i
    {
      next, ok := Await(next, call(i), failAt);
      RepeatSnoc(trace, call, i);
      if !ok {
        RepeatPrefix(call, i + 1, c);
        return;
      }
      i := i + 1;
    }
  }

  /** Block 4: one added level per iteration of the loop over `nombreNiveaux`. */
  method NiveauxBlock(d: WizardFormData, id: Id, failAt: Option<nat>, trace: seq<Action>) returns (next: seq<Action>, ok: bool)
    requires Essentials(d) && 3 < Stop(d) && trace == Segments(d, id, 3) && Pending(failAt, trace)
    ensures ok ==> next == Segments(d, id, 4) && Pending(failAt, next)
    ensures !ok ==> RejectedLast(d, id, failAt, next)
  {
    next, ok := trace, true;
    var g := d.dimensions.value;
    if TruthyNum(g.nombreNiveaux) {
      var h := OrNum(g.hauteurSousPlafond, DefaultHauteurSousPlafond);
      assert Segments(d, id, 4) == trace + LevelCalls(id, LoopCount(g.nombreNiveaux.value), h);
      next, ok := LevelLoop(g.nombreNiveaux.value, LoopCount(g.nombreNiveaux.value), LevelCallOf(id, h), failAt, trace);
      if !ok {
        RejectionAfterPrefix(d, id, next, 4, failAt);
      }
    }
  }

  /** Block 5: the roof, when its type is truthy and its slope is not null (a slope of 0 still counts). */
  method ToitureBlock(d: WizardFormData, id: Id, failAt: Option<nat>, trace: seq<Action>) returns (next: seq<Action>, ok: bool)
    requires Essentials(d) && 4 < Stop(d) && trace == Segments(d, id, 4) && Pending(failAt, trace)
    ensures ok ==> next == Segments(d, id, 5) && Pending(failAt, next)
    ensures !ok ==> RejectedLast(d, id, failAt, next)
  {
    next, ok := trace, true;
    var r := d.toiture.value;
    if r.typeToiture.Some? && r.pente.Some? {
      next, ok := Await(next, SetToiture(id, Toiture(r.typeToiture.value, r.forme, r.pente.value, r.surfaceTotale)), failAt);
      if !ok {
        RejectionAfterPrefix(d, id, next, 5, failAt);
      }
    }
  }

  /** Block 6a: the electrical system, when its subscribed power or its type is truthy; a board is sent only with a type. */
  method ElectriqueBlock(d: WizardFormData, id: Id, failAt: Option<nat>, trace: seq<Action>) returns (next: seq<Action>, ok: bool)
    requires Essentials(d) && 5 < Stop(d) && trace == Segments(d, id, 5) && Pending(failAt, trace)
    ensures ok ==> next == Segments(d, id, 6) && Pending(failAt, next)
    ensures !ok ==> RejectedLast(d, id, failAt, next)
  {
    next, ok := trace, true;
    var s := d.systemes.value;
    if TruthyNum(s.puissanceAbonnement) || s.electriqueType.Some? {
      var tableau := if s.electriqueType.Some? then Some(TableauElectrique(0.0, 0.0, s.electriqueType.value)) else None;
      next, ok := Await(next, SetElectrique(id, s.puissanceAbonnement, tableau), failAt);
      if !ok {
        RejectionAfterPrefix(d, id, next, 6, failAt);
      }
    }
  }

  /** Block 6b: the heating generator, when its type is set; energy defaults to electricity and power to 0. */
  method ChauffageBlock(d: WizardFormData, id: Id, failAt: Option<nat>, trace: seq<Action>) returns (next: seq<Action>, ok: bool)
    requires Essentials(d) && 6 < Stop(d) && trace == Segments(d, id, 6) && Pending(failAt, trace)
    ensures ok ==> next == Segments(d, id, 7) && Pending(failAt, next)
    ensures !ok ==> RejectedLast(d, id, failAt, next)
  {
    next, ok := trace, true;
    var s := d.systemes.value;
    if s.chauffageType.Some? {
      var energie := if s.chauffageEnergie.Some? then s.chauffageEnergie.value else ELECTRICITE;
      var generateur := GenerateurChauffage(s.chauffageType.value, OrNum(s.chauffagePuissance, 0.0), energie, None);
      next, ok := Await(next, SetChauffage(id, SystemeChauffage(None, Some(generateur))), failAt);
      if !ok {
        RejectionAfterPrefix(d, id, next, 7, failAt);
      }
    }
  }

  /** Block 6c: the ventilation, when its type is set. */
  method VentilationBlock(d: WizardFormData, id: Id, failAt: Option<nat>, trace: seq<Action>) returns (next: seq<Action>, ok: bool)
    requires Essentials(d) && 7 < Stop(d) && trace == Segments(d, id, 7) && Pending(failAt, trace)
    ensures ok ==> next == Segments(d, id, 8) && Pending(failAt, next)
    ensures !ok ==> RejectedLast(d, id, failAt, next)
  {
    next, ok := trace, true;
    var s := d.systemes.value;
    if s.ventilationType.Some? {
      next, ok := Await(next, SetVentilation(id, SystemeVentilation(s.ventilationType.value)), failAt);
      if !ok {
        RejectionAfterPrefix(d, id, next, 8, failAt);
      }
    }
  }

  /** Block 6d: the plumbing, when its hot-water production type is set; capacity defaults to 0. */
  method PlomberieBlock(d: WizardFormData, id: Id, failAt: Option<nat>, trace: seq<Action>) returns (next: seq<Action>, ok: bool)
    requires Essentials(d) && 8 < Stop(d) && trace == Segments(d, id, 8) && Pending(failAt, trace)
    ensures ok ==> next == Segments(d, id, 9) && Pending(failAt, next)
    ensures !ok ==> RejectedLast(d, id, failAt, next)
  {
    next, ok := trace, true;
    var s := d.systemes.value;
    if s.productionType.Some? {
      var production := ProductionEauChaude(s.productionType.value, OrNum(s.capacite, 0.0), None);
      next, ok := Await(next, SetPlomberie(id, SystemePlomberie(Some(production))), failAt);
      if !ok {
        RejectionAfterPrefix(d, id, next, 9, failAt);
      }
    }
  }

  /**
   * `mutationFn`: the calls made and how the submission ends, when the server
   * rejects the call at position `failAt` (or none) and the create call
   * returns the id `id`.
   */
  method Mutate(d: WizardFormData, id: Id, failAt: Option<nat>) returns (trace: seq<Action>, outcome: Outcome)
    ensures trace == Issued(PlanFor(d, id).calls, failAt)
    ensures outcome == OutcomeOf(PlanFor(d, id), id, failAt)
  {
    trace := [];
    if !Filled(d.nom) || d.typeBatiment.None? || d.forme.None? {
      outcome := Failed(MissingEssentials);
      return;
    }
    var ok;
    trace, ok := Await(trace, Create(d.nom.value, d.typeBatiment.value, d.adresse), failAt);
    if !ok {
      RejectionAfterPrefix(d, id, trace, 1, failAt);
      return trace, Failed(CallRejected(|trace| - 1));
    }
    assert trace == Segments(d, id, 0) + Segment(d, id, 0) == Segments(d, id, 1);
    trace, outcome := MutateGround(d, id, failAt, trace);
  }

  /** After the create call: the terrain and foundations blocks, then the rest. */
  method MutateGround(d: WizardFormData, id: Id, failAt: Option<nat>, trace0: seq<Action>) returns (trace: seq<Action>, outcome: Outcome)
    requires Essentials(d) && trace0 == Segments(d, id, 1) && Pending(failAt, trace0)
    ensures trace == Issued(PlanFor(d, id).calls, failAt)
    ensures outcome == OutcomeOf(PlanFor(d, id), id, failAt)
  {
    trace := trace0;
    var ok;
    if d.terrain.None? {
      TypeErrorAfter(d, id, trace, 1, failAt);
      return trace, Failed(TypeError);
    }
    trace, ok := TerrainBlock(d, id, failAt, trace);
    if !ok {
      return trace, Failed(CallRejected(|trace| - 1));
    }
    if d.fondations.None? {
      TypeErrorAfter(d, id, trace, 2, failAt);
      return trace, Failed(TypeError);
    }
    trace, ok := FondationsBlock(d, id, failAt, trace);
    if !ok {
      return trace, Failed(CallRejected(|trace| - 1));
    }
    trace, outcome := MutateStructure(d, id, failAt, trace);
  }

  /** The levels and roof blocks, then the rest. */
  method MutateStructure(d: WizardFormData, id: Id, failAt: Option<nat>, trace0: seq<Action>) returns (trace: seq<Action>, outcome: Outcome)
    requires Essentials(d) && 2 < Stop(d) && trace0 == Segments(d, id, 3) && Pending(failAt, trace0)
    ensures trace == Issued(PlanFor(d, id).calls, failAt)
    ensures outcome == OutcomeOf(PlanFor(d, id), id, failAt)
  {
    trace := trace0;
    var ok;
    if d.dimensions.None? {
      TypeErrorAfter(d, id, trace, 3, failAt);
      return trace, Failed(TypeError);
    }
    trace, ok := NiveauxBlock(d, id, failAt, trace);
    if !ok {
      return trace, Failed(CallRejected(|trace| - 1));
    }
    if d.toiture.None? {
      TypeErrorAfter(d, id, trace, 4, failAt);
      return trace, Failed(TypeError);
    }
    trace, ok := ToitureBlock(d, id, failAt, trace);
    if !ok {
      return trace, Failed(CallRejected(|trace| - 1));
    }
    trace, outcome := MutateSystems(d, id, failAt, trace);
  }

  /** The four system blocks and the final read-back. */
  method MutateSystems(d: WizardFormData, id: Id, failAt: Option<nat>, trace0: seq<Action>) returns (trace: seq<Action>, outcome: Outcome)
    requires Essentials(d) && 4 < Stop(d) && trace0 == Segments(d, id, 5) && Pending(failAt, trace0)
    ensures trace == Issued(PlanFor(d, id).calls, failAt)
    ensures outcome == OutcomeOf(PlanFor(d, id), id, failAt)
  {
    trace := trace0;
    var ok;
    if d.systemes.None? {
      TypeErrorAfter(d, id, trace, 5, failAt);
      return trace, Failed(TypeError);
    }
    trace, ok := ElectriqueBlock(d, id, failAt, trace);
    if !ok {
      return trace, Failed(CallRejected(|trace| - 1));
    }
    trace, ok := ChauffageBlock(d, id, failAt, trace);
    if !ok {
      return trace, Failed(CallRejected(|trace| - 1));
    }
    trace, outcome := MutateTail(d, id, failAt, trace);
  }

  /** Ventilation, plumbing, and the final read of the complete building. */
  method MutateTail(d: WizardFormData, id: Id, failAt: Option<nat>, trace0: seq<Action>) returns (trace: seq<Action>, outcome: Outcome)
    requires Essentials(d) && 6 < Stop(d) && trace0 == Segments(d, id, 7) && Pending(failAt, trace0)
    ensures trace == Issued(PlanFor(d, id).calls, failAt)
    ensures outcome == OutcomeOf(PlanFor(d, id), id, failAt)
  {
    trace := trace0;
    var ok;
    trace, ok := VentilationBlock(d, id, failAt, trace);
    if !ok {
      return trace, Failed(CallRejected(|trace| - 1));
    }
    trace, ok := PlomberieBlock(d, id, failAt, trace);
    if !ok {
      return trace, Failed(CallRejected(|trace| - 1));
    }
    trace, ok := Await(trace, GetById(id), failAt);
    if !ok {
      RejectionAfterPrefix(d, id, trace, 10, failAt);
      return trace, Failed(CallRejected(|trace| - 1));
    }
    assert trace == Segments(d, id, 10);
    outcome := Created(id);
  }
}
