/**
 * What the submission plan promises: nothing without the essentials, create
 * first and everything else on the returned id, fixed block order, the guard
 * and payload of each block, the generated levels, and what the step rules
 * guarantee about the plan.
 */
module WizardPlanProperties {
  import opened Common
  import opened Types
  import opened WizardForm
  import opened WizardPlan

  /** The building a call acts on; the create call has none yet. */
  function Target(a: Action): Option<Id> {
    if a.Create? then None else Some(a.batimentId)
  }

  // ---------------------------------------------------------------------------
  // Structure of the blocks
  // ---------------------------------------------------------------------------

  lemma {:induction false} OfPhaseConcat(a: seq<Action>, b: seq<Action>, p: nat)
    ensures OfPhase(a + b, p) == OfPhase(a, p) + OfPhase(b, p)
  {
    if a == [] {
      assert a + b == b;
    } else {
      assert (a + b)[0] == a[0];
      assert (a + b)[1..] == a[1..] + b;
      OfPhaseConcat(a[1..], b, p);
    }
  }

  /** Every call of `s` belongs to phase `q`. */
  predicate AllInPhase(s: seq<Action>, q: nat) {
    forall k :: 0 <= k < |s| ==> Phase(s[k]) == q
  }

  /** Every call of `s` targets `t`. */
  predicate AllTarget(s: seq<Action>, t: Option<Id>) {
    forall k :: 0 <= k < |s| ==> Target(s[k]) == t
  }

  lemma {:induction false} OfPhaseUniform(s: seq<Action>, q: nat, p: nat)
    requires AllInPhase(s, q)
    ensures OfPhase(s, p) == if p == q then s else []
  {
    if s != [] {
      OfPhaseUniform(s[1..], q, p);
      assert s == [s[0]] + s[1..];
    }
  }

  /** Every call of block `p` belongs to phase `p`; after the create call, every call targets `id`. */
  lemma SegmentShape(d: WizardFormData, id: Id, p: nat)
    requires Essentials(d)
    ensures AllInPhase(Segment(d, id, p), p)
    ensures AllTarget(Segment(d, id, p), if p == 0 then None else Some(id))
  {
    if p == 3 {
      var g := DimensionsOf(d);
      if TruthyNum(g.nombreNiveaux) {
        LevelCallsAt(id, LoopCount(g.nombreNiveaux.value), OrNum(g.hauteurSousPlafond, DefaultHauteurSousPlafond));
      }
    }
  }

  /** One more block of phase `q` after blocks `0 .. q-1`: phase `p` now holds its block when `p <= q`. */
  lemma OfPhaseStep(a: seq<Action>, b: seq<Action>, whole: seq<Action>, q: nat, p: nat, block: seq<Action>)
    requires whole == a + b && AllInPhase(b, q)
    requires OfPhase(a, p) == if p < q then block else []
    requires p == q ==> b == block
    ensures OfPhase(whole, p) == if p < q + 1 then block else []
  {
    OfPhaseConcat(a, b, p);
    OfPhaseUniform(b, q, p);
  }

  /**
   * Blocks laid end to end, block `q` all of phase `q`: phase `p` of the first
   * `n` blocks is block `p` itself, or nothing once `p` is past them.
   */
  lemma {:induction false} OfPhaseBlocks(prefix: nat -> seq<Action>, block: nat -> seq<Action>, n: nat, p: nat)
    requires prefix(0) == []
    requires forall k: nat :: 0 < k <= n ==> prefix(k) == prefix(k - 1) + block(k - 1)
    requires forall q: nat :: q < n ==> AllInPhase(block(q), q)
    ensures OfPhase(prefix(n), p) == if p < n then block(p) else []
  {
    if n > 0 {
      OfPhaseBlocks(prefix, block, n - 1, p);
      OfPhaseStep(prefix(n - 1), block(n - 1), prefix(n), n - 1, p, block(p));
    }
  }

  lemma OfPhaseSegments(d: WizardFormData, id: Id, n: nat, p: nat)
    requires Essentials(d)
    ensures OfPhase(Segments(d, id, n), p) == if p < n then Segment(d, id, p) else []
  {
    var prefix := (k: nat) => if Essentials(d) then Segments(d, id, k) else [];
    var block := (k: nat) => if Essentials(d) then Segment(d, id, k) else [];
    forall q: nat | q < n
      ensures AllInPhase(block(q), q)
    {
      SegmentShape(d, id, q);
    }
    OfPhaseBlocks(prefix, block, n, p);
  }

  /** The calls of block `p` in the plan: those of its guard when the plan reaches it, none otherwise. */
  lemma PlanPhase(d: WizardFormData, id: Id, p: nat)
    requires Essentials(d)
    ensures OfPhase(PlanFor(d, id).calls, p) == if p < Stop(d) then Segment(d, id, p) else []
  {
    OfPhaseSegments(d, id, Stop(d), p);
  }

  /** The phases along `s` never decrease, and all lie below `n`. */
  predicate PhasesOrderedBelow(s: seq<Action>, n: nat) {
    (forall k :: 0 <= k < |s| ==> Phase(s[k]) < n)
    && forall j, k :: 0 <= j < k < |s| ==> Phase(s[j]) <= Phase(s[k])
  }

  /**
   * Appending block `q` to the blocks before it keeps the phases ordered, the
   * create call first and every later call on `id`.
   */
  lemma AppendBlock(a: seq<Action>, b: seq<Action>, q: nat, id: Id, first: Action)
    requires PhasesOrderedBelow(a, q) && AllInPhase(b, q)
    requires q == 0 ==> a == [] && b == [first]
    requires q > 0 ==> |a| >= 1 && a[0] == first && AllTarget(b, Some(id))
    requires forall k :: 1 <= k < |a| ==> Target(a[k]) == Some(id)
    ensures PhasesOrderedBelow(a + b, q + 1)
    ensures |a + b| >= 1 && (a + b)[0] == first
    ensures forall k :: 1 <= k < |a + b| ==> Target((a + b)[k]) == Some(id)
  {
    assert forall k :: 0 <= k < |b| ==> (a + b)[|a| + k] == b[k];
    if q > 0 {
      assert (a + b)[0] == a[0];
    }
  }

  lemma {:induction false} SegmentsShape(d: WizardFormData, id: Id, n: nat)
    requires Essentials(d)
    ensures PhasesOrderedBelow(Segments(d, id, n), n)
    ensures n >= 1 ==> |Segments(d, id, n)| >= 1 && Segments(d, id, n)[0] == Create(d.nom.value, d.typeBatiment.value, d.adresse)
    ensures forall k :: 1 <= k < |Segments(d, id, n)| ==> Target(Segments(d, id, n)[k]) == Some(id)
  {
    if n > 0 {
      var a, b := Segments(d, id, n - 1), Segment(d, id, n - 1);
      SegmentsShape(d, id, n - 1);
      SegmentShape(d, id, n - 1);
      if n == 1 {
        assert b == [Create(d.nom.value, d.typeBatiment.value, d.adresse)];
      }
      AppendBlock(a, b, n - 1, id, Create(d.nom.value, d.typeBatiment.value, d.adresse));
      assert Segments(d, id, n) == a + b;
    }
  }

  // ---------------------------------------------------------------------------
  // The promises of the submission
  // ---------------------------------------------------------------------------

  /** Without nom, type and forme the submission throws before making any call. */
  lemma NoCallWithoutEssentials(d: WizardFormData, id: Id, failAt: Option<nat>)
    requires !(Filled(d.nom) && d.typeBatiment.Some? && d.forme.Some?)
    ensures PlanFor(d, id).calls == [] && Issued(PlanFor(d, id).calls, failAt) == []
    ensures OutcomeOf(PlanFor(d, id), id, failAt) == Failed(MissingEssentials)
  {
  }

  /**
   * With the essentials, the first call creates the building from exactly
   * nom, type and adresse, no later call creates anything, every later call
   * targets the id the create call returned, and the blocks come in their
   * fixed order.
   */
  lemma CreateFirstThenSameId(d: WizardFormData, id: Id)
    requires Essentials(d)
    ensures var calls := PlanFor(d, id).calls;
      |calls| >= 1 && calls[0] == Create(d.nom.value, d.typeBatiment.value, d.adresse)
      && (forall k :: 1 <= k < |calls| ==> Target(calls[k]) == Some(id))
      && (forall j, k :: 0 <= j < k < |calls| ==> Phase(calls[j]) <= Phase(calls[k]))
  {
    var calls := PlanFor(d, id).calls;
    SegmentsShape(d, id, Stop(d));
  }

  /** Terrain is set iff its surface and soil type are truthy (a surface of 0 skips it), with exactly those values. */
  lemma TerrainCallIff(d: WizardFormData, id: Id)
    requires Essentials(d) && d.terrain.Some?
    ensures var t := d.terrain.value;
      OfPhase(PlanFor(d, id).calls, 1) ==
        if t.surface.Some? && t.surface.value != 0.0 && t.typeSol.Some?
        then [SetTerrain(id, Terrain(t.surface.value, None, t.typeSol, None, None, t.altitude))]
        else []
  {
    PlanPhase(d, id, 1);
  }

  /** Foundations are set iff their type and depth are truthy, the type being sent as `typeFondation`. */
  lemma FondationsCallIff(d: WizardFormData, id: Id)
    requires Essentials(d) && d.terrain.Some? && d.fondations.Some?
    ensures var f := d.fondations.value;
      OfPhase(PlanFor(d, id).calls, 2) ==
        if f.typeFondation.Some? && f.profondeur.Some? && f.profondeur.value != 0.0
        then [SetFondations(id, Fondations(f.typeFondation.value, f.profondeur.value))]
        else []
  {
    PlanPhase(d, id, 2);
  }

  /**
   * For a truthy level count n, the plan adds one level for each i with i < n,
   * in order, all with ceiling height h (the entered value, or 2.5 when falsy);
   * `LevelCallsSpelledOut` writes each of them out (numero i, 'RDC' then
   * 'Étage i', altitude i * h). A falsy count adds none.
   */
  lemma LevelCallsForCount(d: WizardFormData, id: Id)
    requires Essentials(d) && d.terrain.Some? && d.fondations.Some? && d.dimensions.Some?
    ensures var g := d.dimensions.value;
      var c := OfPhase(PlanFor(d, id).calls, 3);
      var h := if TruthyNum(g.hauteurSousPlafond) then g.hauteurSousPlafond.value else 2.5;
      (!TruthyNum(g.nombreNiveaux) ==> c == [])
      && (TruthyNum(g.nombreNiveaux) ==>
            (forall i: nat {:trigger i as real} :: i < |c| <==> (i as real) < g.nombreNiveaux.value)
            && c == LevelCalls(id, |c|, h))
  {
    PlanPhase(d, id, 3);
    var g := d.dimensions.value;
    assert 3 < Stop(d);
    assert DimensionsOf(d) == g;
    if TruthyNum(g.nombreNiveaux) {
      LevelCallsAt(id, LoopCount(g.nombreNiveaux.value), OrNum(g.hauteurSousPlafond, 2.5));
    }
  }

  /** The generated levels, written out without the helper functions. */
  lemma LevelCallsSpelledOut(c: seq<Action>, id: Id, n: nat, h: real)
    requires c == LevelCalls(id, n, h)
    ensures |c| == n
    ensures forall i :: 0 <= i < |c| ==>
      c[i] == AddNiveau(id, if i == 0 then "RDC" else "Étage " + NatToString(i), i, (i as real) * h, h)
  {
    LevelCallsAt(id, n, h);
    forall i | 0 <= i < n
      ensures c[i] == AddNiveau(id, if i == 0 then "RDC" else "Étage " + NatToString(i), i, (i as real) * h, h)
    {
      assert c[i] == LevelCall(id, i, h);
    }
  }

  /** Generated level names are pairwise distinct. */
  lemma LevelNamesDistinct(i: nat, j: nat)
    requires i != j
    ensures LevelName(i) != LevelName(j)
  {
    var prefix := "Étage ";
    if i == 0 || j == 0 {
      var k := if i == 0 then j else i;
      assert LevelName(k)[0] == 'É';
    } else if LevelName(i) == LevelName(j) {
      assert NatToString(i) == LevelName(i)[|prefix|..] == LevelName(j)[|prefix|..] == NatToString(j);
      NatToStringInjective(i, j);
    }
  }

  /** The roof is set iff its type is set and its slope is not null; a slope of 0 still sets it. */
  lemma ToitureCallIff(d: WizardFormData, id: Id)
    requires Essentials(d) && d.terrain.Some? && d.fondations.Some? && d.dimensions.Some? && d.toiture.Some?
    ensures var r := d.toiture.value;
      OfPhase(PlanFor(d, id).calls, 4) ==
        if r.typeToiture.Some? && r.pente.Some?
        then [SetToiture(id, Toiture(r.typeToiture.value, r.forme, r.pente.value, r.surfaceTotale))]
        else []
  {
    PlanPhase(d, id, 4);
  }

  /**
   * Electrical iff the subscribed power or the type is truthy, with a board
   * {type, 0, 0} only when the type is set.
   */
  lemma ElectriqueCallIff(d: WizardFormData, id: Id)
    requires Essentials(d) && Stop(d) == 10
    ensures var s := d.systemes.value;
      OfPhase(PlanFor(d, id).calls, 5) ==
        if (s.puissanceAbonnement.Some? && s.puissanceAbonnement.value != 0.0) || s.electriqueType.Some?
        then [SetElectrique(id, s.puissanceAbonnement,
                if s.electriqueType.Some? then Some(TableauElectrique(0.0, 0.0, s.electriqueType.value)) else None)]
        else []
  {
    PlanPhase(d, id, 5);
  }

  /** Heating iff its type is set, the energy defaulting to ELECTRICITE and a falsy power to 0. */
  lemma ChauffageCallIff(d: WizardFormData, id: Id)
    requires Essentials(d) && Stop(d) == 10
    ensures var s := d.systemes.value;
      OfPhase(PlanFor(d, id).calls, 6) ==
        if s.chauffageType.Some?
        then [SetChauffage(id, SystemeChauffage(None, Some(GenerateurChauffage(
                s.chauffageType.value,
                if TruthyNum(s.chauffagePuissance) then s.chauffagePuissance.value else 0.0,
                if s.chauffageEnergie.Some? then s.chauffageEnergie.value else ELECTRICITE, None))))]
        else []
  {
    PlanPhase(d, id, 6);
  }

  /** Ventilation iff its type is set. */
  lemma VentilationCallIff(d: WizardFormData, id: Id)
    requires Essentials(d) && Stop(d) == 10
    ensures var s := d.systemes.value;
      OfPhase(PlanFor(d, id).calls, 7) ==
        if s.ventilationType.Some? then [SetVentilation(id, SystemeVentilation(s.ventilationType.value))] else []
  {
    PlanPhase(d, id, 7);
  }

  /** Plumbing iff the production type is set, a falsy capacity defaulting to 0. */
  lemma PlomberieCallIff(d: WizardFormData, id: Id)
    requires Essentials(d) && Stop(d) == 10
    ensures var s := d.systemes.value;
      OfPhase(PlanFor(d, id).calls, 8) ==
        if s.productionType.Some?
        then [SetPlomberie(id, SystemePlomberie(Some(ProductionEauChaude(
                s.productionType.value, if TruthyNum(s.capacite) then s.capacite.value else 0.0, None))))]
        else []
  {
    PlanPhase(d, id, 8);
  }

  /**
   * The building is read back exactly once, as the last call, iff the plan
   * runs to the end; a plan that throws a TypeError reads nothing back.
   */
  lemma ReadBackLast(d: WizardFormData, id: Id)
    requires Essentials(d)
    ensures var p := PlanFor(d, id);
      OfPhase(p.calls, 9) == (if p.ending == Completes then [GetById(id)] else [])
      && (p.ending == Completes ==> p.calls[|p.calls| - 1] == GetById(id))
      && (p.ending == Completes <==> Stop(d) == 10)
  {
    PlanPhase(d, id, 9);
    if Stop(d) == 10 {
      assert PlanFor(d, id).calls == Segments(d, id, 9) + [GetById(id)];
    }
  }

  /**
   * A rejected call ends the submission: the calls before it stay made, the
   * rejected one is the last made, and nothing after it is attempted.
   */
  lemma RejectionKeepsEarlierCalls(calls: seq<Action>, failAt: Option<nat>)
    ensures Issued(calls, failAt) <= calls
    ensures failAt.Some? && failAt.value < |calls| ==>
      |Issued(calls, failAt)| == failAt.value + 1 && Issued(calls, failAt)[failAt.value] == calls[failAt.value]
    ensures failAt.None? || failAt.value >= |calls| ==> Issued(calls, failAt) == calls
  {
  }

  // ---------------------------------------------------------------------------
  // What the step rules guarantee about the plan
  // ---------------------------------------------------------------------------

  /** Once step 2 passes, the level loop runs at least once and uses the entered height, never the 2.5 default. */
  lemma DimensionsStepFixesLevels(d: WizardFormData, id: Id)
    requires Essentials(d) && 3 < Stop(d) && DimensionsValid(d)
    ensures var c := OfPhase(PlanFor(d, id).calls, 3);
      |c| >= 1 && forall i :: 0 <= i < |c| ==>
        c[i].AddNiveau? && c[i].hauteurSousPlafond == d.dimensions.value.hauteurSousPlafond.value
  {
    PlanPhase(d, id, 3);
    var g := d.dimensions.value;
    LevelCallsAt(id, LoopCount(g.nombreNiveaux.value), g.hauteurSousPlafond.value);
  }

  /** Once steps 3, 4 and 5 pass, the terrain, foundations and roof guards hold. */
  lemma ElementStepsSetElements(d: WizardFormData, id: Id)
    requires Essentials(d) && 4 < Stop(d)
    ensures TerrainValid(d) ==> |OfPhase(PlanFor(d, id).calls, 1)| == 1
    ensures FondationsValid(d) ==> |OfPhase(PlanFor(d, id).calls, 2)| == 1
    ensures ToitureValid(d) ==> |OfPhase(PlanFor(d, id).calls, 4)| == 1
  {
    PlanPhase(d, id, 1);
    PlanPhase(d, id, 2);
    PlanPhase(d, id, 4);
  }

  /**
   * A record that passed steps 1 to 5 and still has its systems group runs
   * to the end: terrain, foundations and roof each once, at least one level,
   * then the read-back.
   */
  lemma ValidRecordCompletes(d: WizardFormData, id: Id)
    requires forall k :: 0 <= k < LastStep ==> StepValid(k, d)
    requires d.systemes.Some?
    ensures Essentials(d) && PlanFor(d, id).ending == Completes
    ensures var calls := PlanFor(d, id).calls;
      |OfPhase(calls, 1)| == 1 && |OfPhase(calls, 2)| == 1 && |OfPhase(calls, 3)| >= 1
      && |OfPhase(calls, 4)| == 1 && calls[|calls| - 1] == GetById(id)
  {
    assert StepValid(0, d) && StepValid(1, d) && StepValid(2, d) && StepValid(3, d) && StepValid(4, d);
    assert d.terrain.Some? && d.fondations.Some? && d.dimensions.Some? && d.toiture.Some?;
    ElementStepsSetElements(d, id);
    DimensionsStepFixesLevels(d, id);
    ReadBackLast(d, id);
  }
}
