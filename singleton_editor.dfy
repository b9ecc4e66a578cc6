/**
 * The VIEW/EDIT machine every singleton element form of a building follows
 * (terrain, foundations, roof, frame and the four systems). The component
 * receives the element (if any) from the building query; it shows an empty
 * prompt, the element's details, or the edit form; it saves the form through
 * one server call and, for some elements, deletes the element through another.
 */
module SingletonEditor {
  import opened Common
  import opened QueryKeys

  datatype View = EmptyPrompt | Details | EditForm

  /** What the component renders, from its editing flag and whether it has an element to show. */
  function ViewOf(isEditing: bool, present: bool): View {
    if !isEditing && !present then EmptyPrompt
    else if !isEditing then Details
    else EditForm
  }

  datatype Control = AddButton | ModifyButton | DeleteButton | SaveButton | CancelButton

  /** The buttons each view offers; only the terrain and foundation forms offer a delete. */
  function Controls(v: View, deletable: bool): set<Control> {
    match v
    case EmptyPrompt => {AddButton}
    case Details => {ModifyButton} + (if deletable then {DeleteButton} else {})
    case EditForm => {SaveButton, CancelButton}
  }

  /**
   * Entering edit mode is offered exactly when the form is not already shown,
   * saving and cancelling exactly when it is, and a delete only on the details
   * of a present element of a form that has one.
   */
  lemma EditOfferedOutsideForm(isEditing: bool, present: bool, deletable: bool)
    ensures var c := Controls(ViewOf(isEditing, present), deletable);
      (AddButton in c || ModifyButton in c) <==> !isEditing
    ensures var c := Controls(ViewOf(isEditing, present), deletable);
      (SaveButton in c <==> isEditing) && (CancelButton in c <==> isEditing)
    ensures var c := Controls(ViewOf(isEditing, present), deletable);
      DeleteButton in c <==> present && !isEditing && deletable
    ensures var c := Controls(ViewOf(isEditing, present), deletable);
      !(AddButton in c && ModifyButton in c)
  {
  }

  /** The server calls of one element: set it from the validated form values, or delete it. */
  datatype ElementCall<F> = SetElement(values: F) | DeleteElement

  /**
   * One element form. `E` is the element as the building query returns it,
   * `F` the record the form store holds. The element-specific parts are the
   * presence test, the pre-fill of `handleEdit`, the field rules and whether a
   * delete exists; they are fixed when the component is created.
   */
  class Editor<E, F> {
    const batimentId: Id
    /** Whether the element prop counts as present for the view. */
    const shown: Option<E> -> bool
    /** The form record after `handleEdit` pre-fills it from the element. */
    const prefill: (F, Option<E>) -> F
    /** The field rules `validateFields` enforces. */
    const rules: F -> bool
    /** The form record after `resetFields()`. */
    const blank: F
    /** What the form's inputs commit for the values the user types (the `InputNumber` bounds). */
    const enter: F -> F
    const deletable: bool

    var isEditing: bool
    var form: F
    /** Every server call the component made. */
    var sent: seq<ElementCall<F>>
    /** The query-key prefixes the component marked stale, in order. */
    var invalidated: seq<Key>

    constructor (batimentId: Id, shown: Option<E> -> bool, prefill: (F, Option<E>) -> F,
                 rules: F -> bool, blank: F, enter: F -> F, deletable: bool)
      ensures this.batimentId == batimentId && this.shown == shown && this.prefill == prefill
      ensures this.rules == rules && this.blank == blank && this.enter == enter
      ensures this.deletable == deletable
      ensures !isEditing && form == blank && sent == [] && invalidated == []
    {
      this.batimentId := batimentId;
      this.shown := shown;
      this.prefill := prefill;
      this.rules := rules;
      this.blank := blank;
      this.enter := enter;
      this.deletable := deletable;
      isEditing := false;
      form := blank;
      sent := [];
      invalidated := [];
    }

    function View(element: Option<E>): View
      reads this
    {
      ViewOf(isEditing, shown(element))
    }

    /** "Ajouter" on the empty prompt or "Modifier" on the details: pre-fill, then show the form. */
    method Edit(element: Option<E>)
      requires AddButton in Controls(View(element), deletable) || ModifyButton in Controls(View(element), deletable)
      modifies this
      ensures isEditing && form == prefill(old(form), element)
      ensures sent == old(sent) && invalidated == old(invalidated)
    {
      form := prefill(form, element);
      isEditing := true;
    }

    /** The user types values into the shown form; the inputs commit them within their bounds. */
    method Input(element: Option<E>, values: F)
      requires View(element) == EditForm
      modifies this
      ensures isEditing && form == enter(values)
      ensures sent == old(sent) && invalidated == old(invalidated)
    {
      form := enter(values);
    }

    /** "Annuler": leave edit mode and clear the form. */
    method Cancel(element: Option<E>)
      requires CancelButton in Controls(View(element), deletable)
      modifies this
      ensures !isEditing && form == blank
      ensures sent == old(sent) && invalidated == old(invalidated)
    {
      isEditing := false;
      form := blank;
    }

    /**
     * "Enregistrer": nothing is sent unless the fields pass the rules. A
     * successful save marks the building's detail stale and leaves edit mode,
     * keeping the form's values; a failed one stays in edit mode.
     */
    method Save(element: Option<E>, succeeds: bool) returns (issued: bool)
      requires SaveButton in Controls(View(element), deletable)
      modifies this
      ensures issued <==> rules(form)
      ensures sent == old(sent) + (if issued then [SetElement(form)] else [])
      ensures invalidated == old(invalidated) + (if issued && succeeds then [Detail(batimentId)] else [])
      ensures isEditing <==> !(issued && succeeds)
      ensures form == old(form)
    {
      issued := rules(form);
      if issued {
        sent := sent + [SetElement(form)];
        if succeeds {
          invalidated := invalidated + [Detail(batimentId)];
          isEditing := false;
        }
      }
    }

    /**
     * "Supprimer" on the details, without confirmation. A successful delete
     * marks the detail stale and clears the form; a failed one changes nothing.
     */
    method Delete(element: Option<E>, succeeds: bool)
      requires DeleteButton in Controls(View(element), deletable)
      modifies this
      ensures sent == old(sent) + [DeleteElement]
      ensures invalidated == old(invalidated) + (if succeeds then [Detail(batimentId)] else [])
      ensures !isEditing
      ensures form == if succeeds then blank else old(form)
    {
      sent := sent + [DeleteElement];
      if succeeds {
        invalidated := invalidated + [Detail(batimentId)];
        isEditing := false;
        form := blank;
      }
    }
  }
}
