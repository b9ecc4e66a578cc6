/**
 * The modal machine every collection manager of a building follows (levels,
 * and per level its rooms, walls and partitions). The component receives the
 * list of items from the building query; "Ajouter" opens an empty modal form,
 * "Modifier" on a row opens it pre-filled, the modal's OK validates the form
 * and adds or updates, "Supprimer" on a row deletes after a confirmation, and
 * for levels "Dupliquer" copies a level at once.
 */
module CollectionManager {
  import opened Common
  import opened QueryKeys

  /** The server calls of one manager. */
  datatype ItemCall<F> = Add(values: F) | Update(itemId: Id, values: F) | Remove(itemId: Id) | Duplicate(itemId: Id)

  /**
   * A call as sent: to the manager's building and, for rooms, walls and
   * partitions, to the level the manager belongs to (`None` for the levels'
   * own manager).
   */
  datatype Request<F> = Request(batimentId: Id, niveauId: Option<Id>, call: ItemCall<F>)

  /** What the modal is doing. */
  datatype Mode = Closed | Adding | Editing(itemId: Id)

  /** The OK button of the open modal. */
  function OkLabel(m: Mode): string
    requires m != Closed
  {
    if m.Editing? then "Modifier" else "Ajouter"
  }

  /** Two open modals carry the same OK label exactly when both edit or both add. */
  lemma OkLabelNamesTheAction(m1: Mode, m2: Mode)
    requires m1 != Closed && m2 != Closed
    ensures OkLabel(m1) == OkLabel(m2) <==> m1.Editing? == m2.Editing?
  {
    assert "Modifier"[0] != "Ajouter"[0];
  }

  /**
   * One collection manager. `T` is the item as the building query returns it,
   * `F` the record the modal's form store holds. The item-specific parts are
   * fixed when the component is created.
   */
  class Manager<T, F> {
    const batimentId: Id
    /** The level the manager belongs to; `None` for the levels' own manager. */
    const niveauId: Option<Id>
    const idOf: T -> Id
    /** The form record after `handleEdit`'s `setFieldsValue` (a literal naming every field). */
    const fieldsOf: T -> F
    /** The form record after `handleAdd`, from the current list of items. */
    const addForm: seq<T> -> F
    /** The field rules `validateFields` enforces. */
    const rules: F -> bool
    /** The form record after `resetFields()`. */
    const blank: F
    /** What the modal's inputs commit for the values the user types (the `InputNumber` bounds). */
    const enter: F -> F
    /** Whether rows offer "Dupliquer". */
    const duplicable: bool

    var isModalOpen: bool
    var editing: Option<T>
    var form: F
    /** Every server call the component made. */
    var sent: seq<Request<F>>
    /** The query-key prefixes the component marked stale, in order. */
    var invalidated: seq<Key>

    /** The call as this manager sends it. */
    function Addressed(c: ItemCall<F>): Request<F> {
      Request(batimentId, niveauId, c)
    }

    /**
     * A closed modal edits nothing and holds a blank form, and every call went
     * to the manager's own building and level.
     */
    ghost predicate Valid()
      reads this
    {
      && (!isModalOpen ==> editing.None? && form == blank)
      && forall i :: 0 <= i < |sent| ==> sent[i].batimentId == batimentId && sent[i].niveauId == niveauId
    }

    constructor (batimentId: Id, niveauId: Option<Id>, idOf: T -> Id, fieldsOf: T -> F, addForm: seq<T> -> F,
                 rules: F -> bool, blank: F, enter: F -> F, duplicable: bool)
      ensures this.batimentId == batimentId && this.niveauId == niveauId && this.idOf == idOf
      ensures this.fieldsOf == fieldsOf && this.addForm == addForm && this.rules == rules
      ensures this.blank == blank && this.enter == enter && this.duplicable == duplicable
      ensures !isModalOpen && editing.None? && form == blank && sent == [] && invalidated == []
      ensures Valid()
    {
      this.batimentId := batimentId;
      this.niveauId := niveauId;
      this.idOf := idOf;
      this.fieldsOf := fieldsOf;
      this.addForm := addForm;
      this.rules := rules;
      this.blank := blank;
      this.enter := enter;
      this.duplicable := duplicable;
      isModalOpen := false;
      editing := None;
      form := blank;
      sent := [];
      invalidated := [];
    }

    /** The modal's state as the component renders it. */
    function CurrentMode(): Mode
      reads this
    {
      if !isModalOpen then Closed
      else if editing.None? then Adding
      else Editing(idOf(editing.value))
    }

    /** "Ajouter": nothing is edited, the form is reset (and given its defaults), the modal opens. */
    method HandleAdd(items: seq<T>)
      requires Valid()
      modifies this
      ensures CurrentMode() == Adding && form == addForm(items)
      ensures sent == old(sent) && invalidated == old(invalidated)
      ensures Valid()
    {
      editing := None;
      form := addForm(items);
      isModalOpen := true;
    }

    /** "Modifier" on a row: the item is remembered, the form is overwritten with its fields, the modal opens. */
    method HandleEdit(item: T)
      requires Valid()
      modifies this
      ensures CurrentMode() == Editing(idOf(item)) && editing == Some(item) && form == fieldsOf(item)
      ensures sent == old(sent) && invalidated == old(invalidated)
      ensures Valid()
    {
      editing := Some(item);
      form := fieldsOf(item);
      isModalOpen := true;
    }

    /** The user types values into the open modal; the inputs commit them within their bounds. */
    method Input(values: F)
      requires Valid() && isModalOpen
      modifies this
      ensures form == enter(values) && CurrentMode() == old(CurrentMode()) && editing == old(editing)
      ensures sent == old(sent) && invalidated == old(invalidated)
      ensures Valid()
    {
      form := enter(values);
    }

    /** "Annuler" or the close icon: the modal closes, nothing is edited, the form is reset. */
    method HandleCloseModal()
      requires Valid()
      modifies this
      ensures CurrentMode() == Closed && editing.None? && form == blank
      ensures sent == old(sent) && invalidated == old(invalidated)
      ensures Valid()
    {
      isModalOpen := false;
      editing := None;
      form := blank;
    }

    /**
     * The modal's OK. An invalid form issues nothing. A valid one updates the
     * edited item or adds; success marks the building's detail stale and
     * closes the modal, an error leaves the modal as it was.
     */
    method HandleSubmit(succeeds: bool) returns (issued: bool)
      requires Valid() && isModalOpen
      modifies this
      ensures issued <==> rules(old(form))
      ensures !issued ==> sent == old(sent)
      ensures issued && old(editing).Some? ==>
        sent == old(sent) + [Addressed(Update(idOf(old(editing).value), old(form)))]
      ensures issued && old(editing).None? ==> sent == old(sent) + [Addressed(Add(old(form)))]
      ensures invalidated == old(invalidated) + (if issued && succeeds then [Detail(batimentId)] else [])
      ensures issued && succeeds ==> CurrentMode() == Closed && editing.None? && form == blank
      ensures !(issued && succeeds) ==> isModalOpen && editing == old(editing) && form == old(form)
      ensures Valid()
    {
      issued := rules(form);
      if issued {
        var c := if editing.Some? then Update(idOf(editing.value), form) else Add(form);
        sent := sent + [Addressed(c)];
        if succeeds {
          invalidated := invalidated + [Detail(batimentId)];
          HandleCloseModal();
        }
      }
    }

    /**
     * "Supprimer" on a row, behind a confirmation: nothing happens unless the
     * user confirms; a successful delete marks the detail stale. The modal is
     * not involved.
     */
    method HandleDelete(item: T, confirmed: bool, succeeds: bool)
      requires Valid()
      modifies this
      ensures sent == old(sent) + (if confirmed then [Addressed(Remove(idOf(item)))] else [])
      ensures invalidated == old(invalidated) + (if confirmed && succeeds then [Detail(batimentId)] else [])
      ensures isModalOpen == old(isModalOpen) && editing == old(editing) && form == old(form)
      ensures Valid()
    {
      if confirmed {
        sent := sent + [Addressed(Remove(idOf(item)))];
        if succeeds {
          invalidated := invalidated + [Detail(batimentId)];
        }
      }
    }

    /** "Dupliquer" on a row (levels only), without confirmation. */
    method HandleDuplicate(item: T, succeeds: bool)
      requires Valid() && duplicable
      modifies this
      ensures sent == old(sent) + [Addressed(Duplicate(idOf(item)))]
      ensures invalidated == old(invalidated) + (if succeeds then [Detail(batimentId)] else [])
      ensures isModalOpen == old(isModalOpen) && editing == old(editing) && form == old(form)
      ensures Valid()
    {
      sent := sent + [Addressed(Duplicate(idOf(item)))];
      if succeeds {
        invalidated := invalidated + [Detail(batimentId)];
      }
    }
  }
}
