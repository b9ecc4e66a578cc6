/**
 * The application-wide UI flag store: whether the sidebar is collapsed, the
 * selected building and level, and whether the validation drawer is open,
 * with the six actions that update one flag each.
 */
module UiStore {
  import opened Common

  /** The store's four fields. */
  datatype UIState = UIState(
    sidebarCollapsed: bool, selectedBatimentId: Option<Id>, selectedNiveauId: Option<Id>,
    validationPanelOpen: bool)

  const InitialState := UIState(false, None, None, false)

  datatype UIAction =
    | ToggleSidebar
    | SetSidebarCollapsed(collapsed: bool)
    | SelectBatiment(id: Option<Id>)
    | SelectNiveau(id: Option<Id>)
    | ToggleValidationPanel
    | SetValidationPanelOpen(open: bool)

  /** The state after one action: the partial object passed to `set` overwrites its one field. */
  function Apply(s: UIState, a: UIAction): UIState {
    match a
    case ToggleSidebar => s.(sidebarCollapsed := !s.sidebarCollapsed)
    case SetSidebarCollapsed(c) => s.(sidebarCollapsed := c)
    case SelectBatiment(id) => s.(selectedBatimentId := id)
    case SelectNiveau(id) => s.(selectedNiveauId := id)
    case ToggleValidationPanel => s.(validationPanelOpen := !s.validationPanelOpen)
    case SetValidationPanelOpen(o) => s.(validationPanelOpen := o)
  }

  /** The one field an action writes. */
  datatype Field = SidebarCollapsedField | SelectedBatimentField | SelectedNiveauField | ValidationPanelField

  function FieldOf(a: UIAction): Field {
    match a
    case ToggleSidebar | SetSidebarCollapsed(_) => SidebarCollapsedField
    case SelectBatiment(_) => SelectedBatimentField
    case SelectNiveau(_) => SelectedNiveauField
    case ToggleValidationPanel | SetValidationPanelOpen(_) => ValidationPanelField
  }

  /** Every action leaves the three fields it does not write as they were. */
  lemma ApplyFrame(s: UIState, a: UIAction)
    ensures FieldOf(a) != SidebarCollapsedField ==> Apply(s, a).sidebarCollapsed == s.sidebarCollapsed
    ensures FieldOf(a) != SelectedBatimentField ==> Apply(s, a).selectedBatimentId == s.selectedBatimentId
    ensures FieldOf(a) != SelectedNiveauField ==> Apply(s, a).selectedNiveauId == s.selectedNiveauId
    ensures FieldOf(a) != ValidationPanelField ==> Apply(s, a).validationPanelOpen == s.validationPanelOpen
  {
  }

  /** Both toggles undo themselves. */
  lemma TogglesAreInvolutions(s: UIState)
    ensures Apply(Apply(s, ToggleSidebar), ToggleSidebar) == s
    ensures Apply(Apply(s, ToggleValidationPanel), ToggleValidationPanel) == s
    ensures Apply(s, ToggleSidebar) != s && Apply(s, ToggleValidationPanel) != s
  {
  }

  /** A setter's result does not depend on the old value of its field, so applying it twice is applying it once. */
  lemma SettersIdempotent(s: UIState, a: UIAction)
    requires a != ToggleSidebar && a != ToggleValidationPanel
    ensures Apply(Apply(s, a), a) == Apply(s, a)
  {
  }

  /** Actions on different fields commute. */
  lemma ApplyCommutes(s: UIState, a: UIAction, b: UIAction)
    requires FieldOf(a) != FieldOf(b)
    ensures Apply(Apply(s, a), b) == Apply(Apply(s, b), a)
  {
  }

  /** The zustand store. */
  class UIStore {
    var sidebarCollapsed: bool
    var selectedBatimentId: Option<Id>
    var selectedNiveauId: Option<Id>
    var validationPanelOpen: bool

    constructor ()
      ensures State() == InitialState
    {
      sidebarCollapsed := false;
      selectedBatimentId := None;
      selectedNiveauId := None;
      validationPanelOpen := false;
    }

    function State(): UIState
      reads this
    {
      UIState(sidebarCollapsed, selectedBatimentId, selectedNiveauId, validationPanelOpen)
    }

    method ToggleSidebar()
      modifies this
      ensures State() == Apply(old(State()), UIAction.ToggleSidebar)
    {
      sidebarCollapsed := !sidebarCollapsed;
    }

    method SetSidebarCollapsed(collapsed: bool)
      modifies this
      ensures State() == Apply(old(State()), UIAction.SetSidebarCollapsed(collapsed))
    {
      sidebarCollapsed := collapsed;
    }

    method SelectBatiment(id: Option<Id>)
      modifies this
      ensures State() == Apply(old(State()), UIAction.SelectBatiment(id))
    {
      selectedBatimentId := id;
    }

    method SelectNiveau(id: Option<Id>)
      modifies this
      ensures State() == Apply(old(State()), UIAction.SelectNiveau(id))
    {
      selectedNiveauId := id;
    }

    method ToggleValidationPanel()
      modifies this
      ensures State() == Apply(old(State()), UIAction.ToggleValidationPanel)
    {
      validationPanelOpen := !validationPanelOpen;
    }

    method SetValidationPanelOpen(open: bool)
      modifies this
      ensures State() == Apply(old(State()), UIAction.SetValidationPanelOpen(open))
    {
      validationPanelOpen := open;
    }
  }
}
