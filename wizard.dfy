/**
 * The building wizard as a stateful component: the index of the mounted step,
 * the form store, the building created by the last submission, and what the
 * submissions did to the server and to the query cache.
 */
module Wizard {
  import opened Common
  import opened Types
  import opened QueryKeys
  import opened WizardForm
  import opened WizardPlan
  import opened WizardPlanProperties

  /** The three checks `handleSubmit` makes, in order, each with its own message. */
  datatype Missing = MissingNom | MissingType | MissingForme

  /** The first of nom, type and forme that is falsy, if any. */
  function FirstMissing(d: WizardFormData): (m: Option<Missing>)
    ensures m.None? <==> Essentials(d)
    ensures m == Some(MissingNom) <==> !Filled(d.nom)
    ensures m == Some(MissingType) <==> Filled(d.nom) && d.typeBatiment.None?
    ensures m == Some(MissingForme) <==> Filled(d.nom) && d.typeBatiment.Some? && d.forme.None?
  {
    if !Filled(d.nom) then Some(MissingNom)
    else if d.typeBatiment.None? then Some(MissingType)
    else if d.forme.None? then Some(MissingForme)
    else None
  }

  /** What pressing "Créer le bâtiment" leads to. */
  datatype Submission = Refused(missing: Missing) | Submitted(outcome: Outcome)

  /** The path "Voir le bâtiment" navigates to. */
  function BatimentPath(id: Id): string {
    "/batiments/" + id
  }

  /** Distinct buildings lead to distinct pages. */
  lemma BatimentPathInjective(a: Id, b: Id)
    requires BatimentPath(a) == BatimentPath(b)
    ensures a == b
  {
    assert a == BatimentPath(a)[|"/batiments/"|..] == BatimentPath(b)[|"/batiments/"|..] == b;
  }

  class BatimentWizard {
    /** The 0-based index of the mounted step. */
    var current: nat
    /** The whole form store (`getFieldsValue(true)`), every step included. */
    var data: WizardFormData
    /** The building shown on the success screen, if any. */
    var created: Option<Id>
    /** Every server call that was made, over all submissions. */
    var sent: seq<Action>
    /** The query-key prefixes marked stale, in order. */
    var invalidated: seq<Key>
    /** The pages navigated to, in order. */
    var navigated: seq<string>
    /** How many times the `onClose` callback was invoked (a no-op when the prop is absent). */
    var closeRequests: nat

    /**
     * The step index is in range, the systems group exists, and every step
     * before the mounted one passes its rules.
     */
    ghost predicate Valid()
      reads this
    {
      current <= LastStep && data.systemes.Some?
      && forall k :: 0 <= k < current ==> StepValid(k, data)
    }

    /** Mounting: step 0, and the effect that creates every group as an empty object. */
    constructor ()
      ensures Valid()
      ensures current == 0 && data == InitialFormData && created == None
      ensures sent == [] && invalidated == []
      ensures navigated == [] && closeRequests == 0
    {
      current := 0;
      data := InitialFormData;
      created := None;
      sent := [];
      invalidated := [];
      navigated := [];
      closeRequests := 0;
    }

    /** One input on the mounted step (only its fields are rendered). */
    method Input(w: FieldInput)
      requires Valid() && created.None? && StepOf(w) == current
      modifies this
      ensures Valid()
      ensures data == Write(old(data), w)
      ensures current == old(current) && created == old(created)
      ensures sent == old(sent) && invalidated == old(invalidated)
      ensures navigated == old(navigated) && closeRequests == old(closeRequests)
    {
      forall k | 0 <= k < current
        ensures StepValid(k, Write(data, w))
      {
        WriteKeepsOtherSteps(data, w, k);
      }
      WriteKeepsGroups(data, w);
      data := Write(data, w);
    }

    /** "Suivant", offered below the last step: advance iff the mounted step passes its rules. */
    method Next() returns (advanced: bool)
      requires Valid() && created.None? && current < LastStep
      modifies this
      ensures Valid()
      ensures advanced <==> StepValid(old(current), data)
      ensures current == if advanced then old(current) + 1 else old(current)
      ensures data == old(data) && created == old(created)
      ensures sent == old(sent) && invalidated == old(invalidated)
      ensures navigated == old(navigated) && closeRequests == old(closeRequests)
    {
      advanced := StepValid(current, data);
      if advanced {
        current := current + 1;
      }
    }

    /** "Précédent", disabled at step 0. */
    method Prev()
      requires Valid() && created.None? && current > 0
      modifies this
      ensures Valid()
      ensures current == old(current) - 1
      ensures data == old(data) && created == old(created)
      ensures sent == old(sent) && invalidated == old(invalidated)
      ensures navigated == old(navigated) && closeRequests == old(closeRequests)
    {
      current := current - 1;
    }

    /**
     * "Créer le bâtiment", offered at the last step. The mounted step declares
     * no rules; the three checks come next, then the submission. The server
     * answers the create call with `id` and rejects call number `failAt`, if
     * any. On success the list queries go stale and the success screen shows
     * the building; on failure one error message is shown and the wizard
     * stays as it was, apart from the calls already made. The code repeats
     * step 1's checks before submitting; under `Valid()` step 1 has already
     * passed, so through this class that check never refuses and the
     * `Refused` branch, kept to mirror the code, is not reached.
     */
    method HandleSubmit(id: Id, failAt: Option<nat>) returns (r: Submission)
      requires Valid() && created.None? && current == LastStep
      modifies this
      ensures FirstMissing(old(data)).Some? ==> r == Refused(FirstMissing(old(data)).value) && sent == old(sent)
      ensures FirstMissing(old(data)).None? ==>
        r.Submitted? && r.outcome == OutcomeOf(PlanFor(old(data), id), id, failAt)
        && sent == old(sent) + Issued(PlanFor(old(data), id).calls, failAt)
      ensures r.Submitted? ==> r.outcome.Created? || r.outcome.failure.CallRejected?
      ensures created == (if r.Submitted? && r.outcome.Created? then Some(id) else None)
      ensures invalidated == old(invalidated) + (if created.Some? then [Lists()] else [])
      ensures current == old(current) && data == old(data)
      ensures navigated == old(navigated) && closeRequests == old(closeRequests)
      ensures created.None? ==> Valid()
    {
      var m := FirstMissing(data);
      if m.Some? {
        return Refused(m.value);
      }
      ValidRecordCompletes(data, id);
      var trace, outcome := Mutate(data, id, failAt);
      sent := sent + trace;
      r := Submitted(outcome);
      if outcome.Created? {
        created := Some(id);
        invalidated := invalidated + [Lists()];
      }
    }

    /**
     * "Voir le bâtiment" on the success screen: with a created building, go
     * to its page and ask the parent to close the drawer; without one, nothing.
     */
    method ViewBatiment()
      modifies this
      ensures created.Some? ==>
        navigated == old(navigated) + [BatimentPath(created.value)] && closeRequests == old(closeRequests) + 1
      ensures created.None? ==> navigated == old(navigated) && closeRequests == old(closeRequests)
      ensures current == old(current) && data == old(data) && created == old(created)
      ensures sent == old(sent) && invalidated == old(invalidated)
    {
      if created.Some? {
        navigated := navigated + [BatimentPath(created.value)];
        closeRequests := closeRequests + 1;
      }
    }

    /**
     * "Créer un autre bâtiment", with the reset the wizard needs: back to
     * step 0, no created building, and the store as it was after mounting.
     * The reset as written is `CreateAnotherAsWritten`.
     */
    method CreateAnother()
      requires created.Some?
      modifies this
      ensures Valid()
      ensures current == 0 && created == None && data == InitialFormData
      ensures sent == old(sent) && invalidated == old(invalidated)
      ensures navigated == old(navigated) && closeRequests == old(closeRequests)
    {
      created := None;
      current := 0;
      data := InitialFormData;
    }

    /**
     * "Créer un autre bâtiment" as written: `resetFields()` empties the store,
     * and the effect that created the groups does not run again.
     */
    method CreateAnotherAsWritten()
      requires created.Some?
      modifies this
      ensures current == 0 && created == None && data == EmptyFormData
      ensures sent == old(sent) && invalidated == old(invalidated)
      ensures navigated == old(navigated) && closeRequests == old(closeRequests)
      ensures !Valid()
    {
      created := None;
      current := 0;
      data := EmptyFormData;
    }
  }

  // ---------------------------------------------------------------------------
  // After the reset as written
  // ---------------------------------------------------------------------------

  /** The inputs of steps 1 to 5 (indices 0 to 4) never create the systems group. */
  lemma {:induction false} EarlyInputsLeaveSystemesAbsent(d: WizardFormData, ws: seq<FieldInput>)
    requires d.systemes.None?
    requires forall i :: 0 <= i < |ws| ==> StepOf(ws[i]) < LastStep
    ensures WriteAll(d, ws).systemes.None?
    decreases |ws|
  {
    if ws != [] {
      EarlyInputsLeaveSystemesAbsent(Write(d, ws[0]), ws[1..]);
    }
  }

  /** The store after a sequence of inputs. */
  function WriteAll(d: WizardFormData, ws: seq<FieldInput>): WizardFormData
    decreases |ws|
  {
    if ws == [] then d else WriteAll(Write(d, ws[0]), ws[1..])
  }

  /** A record that passed steps 1 to 5 but has no systems group throws after the roof call. */
  lemma NoSystemesThrowsAfterRoof(d: WizardFormData, id: Id)
    requires forall k :: 0 <= k < LastStep ==> StepValid(k, d)
    requires d.systemes.None?
    ensures Essentials(d) && PlanFor(d, id).ending == TypeErrorThrown
    ensures var calls := PlanFor(d, id).calls;
      |OfPhase(calls, 1)| == 1 && |OfPhase(calls, 2)| == 1 && |OfPhase(calls, 3)| >= 1
      && |OfPhase(calls, 4)| == 1 && calls[|calls| - 1].SetToiture?
      && forall p :: 5 <= p <= 9 ==> OfPhase(calls, p) == []
  {
    assert StepValid(0, d) && StepValid(1, d) && StepValid(2, d) && StepValid(3, d) && StepValid(4, d);
    assert Stop(d) == 5;
    ElementStepsSetElements(d, id);
    DimensionsStepFixesLevels(d, id);
    forall p | 5 <= p <= 9
      ensures OfPhase(PlanFor(d, id).calls, p) == []
    {
      PlanPhase(d, id, p);
    }
    var calls := PlanFor(d, id).calls;
    assert calls == Segments(d, id, 4) + Segment(d, id, 4);
    PlanPhase(d, id, 4);
    assert Segment(d, id, 4) == ToitureCalls(d, id) && |ToitureCalls(d, id)| == 1;
  }

  /** The inputs a user makes to fill steps 1 to 5 again after the reset, step by step. */
  const GeneraleInputs: seq<FieldInput> := [Nom("Maison"), TypeBatimentChoice(MAISON_INDIVIDUELLE), FormeChoice(RECTANGULAIRE)]
  const DimensionsInputs: seq<FieldInput> :=
    [Longueur(Some(10.0)), Largeur(Some(8.0)), NombreNiveaux(Some(2.0)), HauteurSousPlafond(Some(2.5))]
  const TerrainInputs: seq<FieldInput> := [TerrainSurface(Some(200.0)), TypeSolChoice(ARGILE)]
  const FondationsInputs: seq<FieldInput> := [FondationsTypeChoice(SEMELLES_FILANTES), Profondeur(Some(1.0))]
  const ToitureInputs: seq<FieldInput> := [ToitureTypeChoice(TUILES_TERRE_CUITE), Pente(Some(30.0))]
  const RefillInputs: seq<FieldInput> :=
    GeneraleInputs + DimensionsInputs + TerrainInputs + FondationsInputs + ToitureInputs

  lemma {:induction false} WriteAllConcat(d: WizardFormData, a: seq<FieldInput>, b: seq<FieldInput>)
    ensures WriteAll(d, a + b) == WriteAll(WriteAll(d, a), b)
    decreases |a|
  {
    if a != [] {
      assert (a + b)[0] == a[0] && (a + b)[1..] == a[1..] + b;
      WriteAllConcat(Write(d, a[0]), a[1..], b);
    } else {
      assert a + b == b;
    }
  }

  /** The record those inputs leave, given what the store held for the systems group. */
  function Refilled(systemes: Option<Systemes>): WizardFormData {
    WizardFormData(
      Some("Maison"), Some(MAISON_INDIVIDUELLE), None, Some(RECTANGULAIRE),
      Some(Dimensions(Some(10.0), Some(8.0), None, Some(2.0), Some(2.5))),
      Some(TerrainStep(Some(200.0), Some(ARGILE), None)),
      Some(FondationsStep(Some(SEMELLES_FILANTES), Some(1.0))),
      Some(ToitureStep(Some(TUILES_TERRE_CUITE), None, Some(30.0), None)),
      systemes)
  }

  lemma FillGenerale(d: WizardFormData)
    ensures WriteAll(d, GeneraleInputs) == d.(nom := Some("Maison"), typeBatiment := Some(MAISON_INDIVIDUELLE), forme := Some(RECTANGULAIRE))
  {
  }

  lemma FillDimensions(d: WizardFormData)
    requires d.dimensions.None? || d.dimensions == Some(NoDimensions)
    ensures WriteAll(d, DimensionsInputs) == d.(dimensions := Refilled(None).dimensions)
  {
  }

  lemma FillTerrain(d: WizardFormData)
    requires d.terrain.None? || d.terrain == Some(NoTerrain)
    ensures WriteAll(d, TerrainInputs) == d.(terrain := Refilled(None).terrain)
  {
  }

  lemma FillFondations(d: WizardFormData)
    requires d.fondations.None? || d.fondations == Some(NoFondations)
    ensures WriteAll(d, FondationsInputs) == d.(fondations := Refilled(None).fondations)
  {
  }

  lemma FillToiture(d: WizardFormData)
    requires d.toiture.None? || d.toiture == Some(NoToiture)
    ensures WriteAll(d, ToitureInputs) == d.(toiture := Refilled(None).toiture)
  {
  }

  /** Refilling from a store whose groups are all absent or all empty. */
  lemma RefillFrom(d: WizardFormData)
    requires d.nom.None? && d.typeBatiment.None? && d.adresse.None? && d.forme.None?
    requires d.dimensions.None? || d.dimensions == Some(NoDimensions)
    requires d.terrain.None? || d.terrain == Some(NoTerrain)
    requires d.fondations.None? || d.fondations == Some(NoFondations)
    requires d.toiture.None? || d.toiture == Some(NoToiture)
    ensures WriteAll(d, RefillInputs) == Refilled(d.systemes)
  {
    var a1 := GeneraleInputs;
    var a2 := a1 + DimensionsInputs;
    var a3 := a2 + TerrainInputs;
    var a4 := a3 + FondationsInputs;
    FillGenerale(d);
    var d1 := WriteAll(d, a1);
    FillDimensions(d1);
    WriteAllConcat(d, a1, DimensionsInputs);
    var d2 := WriteAll(d, a2);
    FillTerrain(d2);
    WriteAllConcat(d, a2, TerrainInputs);
    var d3 := WriteAll(d, a3);
    FillFondations(d3);
    WriteAllConcat(d, a3, FondationsInputs);
    var d4 := WriteAll(d, a4);
    FillToiture(d4);
    WriteAllConcat(d, a4, ToitureInputs);
  }

  /**
   * After the reset as written, filling steps 1 to 5 and leaving step 6
   * untouched passes every step, yet the submission throws a TypeError once
   * the building, its terrain, foundations, two levels and roof are created.
   */
  lemma ResetAsWrittenThrows(id: Id)
    ensures var d := WriteAll(EmptyFormData, RefillInputs);
      (forall k :: 0 <= k < LastStep ==> StepValid(k, d))
      && PlanFor(d, id).ending == TypeErrorThrown
      && |PlanFor(d, id).calls| == 6
      && OutcomeOf(PlanFor(d, id), id, None) == Failed(TypeError)
  {
    RefillFrom(EmptyFormData);
    var d := Refilled(None);
    assert StepValid(0, d) && StepValid(1, d) && StepValid(2, d) && StepValid(3, d) && StepValid(4, d);
    assert Stop(d) == 5;
    assert LoopCount(2.0) == 2;
    LevelCallsAt(id, 2, 2.5);
    assert |Segment(d, id, 3)| == 2;
    assert |Segments(d, id, 5)| == |Segments(d, id, 4)| + 1 == |Segments(d, id, 3)| + 3
      == |Segments(d, id, 2)| + 4 == |Segments(d, id, 1)| + 5 == 6;
  }

  /** With the corrected reset, the same inputs then a submission create the building. */
  lemma ResetCorrectedCompletes(id: Id)
    ensures var d := WriteAll(InitialFormData, RefillInputs);
      (forall k :: 0 <= k < LastStep ==> StepValid(k, d))
      && PlanFor(d, id).ending == Completes
      && OutcomeOf(PlanFor(d, id), id, None) == Created(id)
  {
    RefillFrom(InitialFormData);
    var d := Refilled(Some(NoSystemes));
    assert StepValid(0, d) && StepValid(1, d) && StepValid(2, d) && StepValid(3, d) && StepValid(4, d);
    ValidRecordCompletes(d, id);
  }
}
