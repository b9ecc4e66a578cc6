/**
 * The building list page: its filter and pagination state, the list query it
 * derives from that state, the quick-create modal, and the delete and
 * duplicate actions of each row.
 */
module BatimentList {
  import opened Common
  import opened Types
  import opened QueryKeys
  import Wizard
  import Sidebar

  // ---------------------------------------------------------------------------
  // String.prototype.trim
  // ---------------------------------------------------------------------------

  /** The characters `trim` removes: white space and line terminators. */
  predicate IsJsSpace(c: char) {
    c == ' ' || c == '\t' || c == '\n' || c == '\r' || c == '\U{000B}' || c == '\U{000C}'
    || c == '\U{00A0}' || c == '\U{FEFF}' || c == '\U{1680}' || ('\U{2000}' <= c <= '\U{200A}')
    || c == '\U{2028}' || c == '\U{2029}' || c == '\U{202F}' || c == '\U{205F}' || c == '\U{3000}'
  }

  predicate AllSpace(s: string) {
    forall i :: 0 <= i < |s| ==> IsJsSpace(s[i])
  }

  /** `s` without its leading white space. */
  function TrimStart(s: string): (r: string)
    ensures |r| <= |s| && r == s[|s| - |r|..]
    ensures AllSpace(s[..|s| - |r|])
    ensures |r| > 0 ==> !IsJsSpace(r[0])
  {
    if |s| > 0 && IsJsSpace(s[0]) then
      var r := TrimStart(s[1..]);
      assert forall i :: 1 <= i < |s| - |r| ==> s[i] == s[1..][i - 1];
      r
    else s
  }

  /** `s` without its trailing white space. */
  function TrimEnd(s: string): (r: string)
    ensures |r| <= |s| && r == s[..|r|]
    ensures AllSpace(s[|r|..])
    ensures |r| > 0 ==> !IsJsSpace(r[|r| - 1])
  {
    if |s| > 0 && IsJsSpace(s[|s| - 1]) then
      var r := TrimEnd(s[..|s| - 1]);
      assert s[|r|..] == s[..|s| - 1][|r|..] + [s[|s| - 1]];
      r
    else s
  }

  function Trim(s: string): string {
    TrimEnd(TrimStart(s))
  }

  /** `!s.trim()` holds exactly for the strings made only of white space (the empty one included). */
  lemma TrimEmptyIffBlank(s: string)
    ensures Trim(s) == "" <==> AllSpace(s)
  {
    var a := TrimStart(s);
    if AllSpace(s) && |a| > 0 {
      assert false;
    }
    if Trim(s) == "" && |a| > 0 {
      assert false;
    }
    if Trim(s) == "" {
      assert |a| == 0;
      assert s == s[..|s| - |a|];
    }
  }

  // ---------------------------------------------------------------------------
  // The list query
  // ---------------------------------------------------------------------------

  /** The filters the query sends: `searchText || undefined` for the name. */
  function QueryFilters(searchText: string, typeFilter: Option<TypeBatiment>, statutFilter: Option<StatutBatiment>)
    : BatimentFilters
  {
    BatimentFilters(if searchText == "" then None else Some(searchText), typeFilter, statutFilter)
  }

  /**
   * Distinct searches and filter choices ask for distinct lists (so none is
   * served another's cache entry), and an empty search sends no name filter.
   */
  lemma QueryFiltersInjective(a: string, t: Option<TypeBatiment>, st: Option<StatutBatiment>,
                              b: string, u: Option<TypeBatiment>, su: Option<StatutBatiment>)
    ensures QueryFilters(a, t, st) == QueryFilters(b, u, su) <==> a == b && t == u && st == su
    ensures QueryFilters("", t, st).nom.None?
  {
  }

  /** `(pagination.current || 1) - 1`: the 0-based page from the table's 1-based page. */
  function PageOf(current: Option<int>): int {
    (if current.Some? && current.value != 0 then current.value else 1) - 1
  }

  /** `pagination.pageSize || 10`. */
  function SizeOf(pageSize: Option<int>): int {
    if pageSize.Some? && pageSize.value != 0 then pageSize.value else 10
  }

  /**
   * The table shows `page + 1`; handing that back gives the same page, and the
   * reverse. A change that reports no page goes back to the first one.
   */
  lemma PageRoundTrip(page: nat, current: int)
    ensures PageOf(Some(page + 1)) == page
    ensures current >= 1 ==> PageOf(Some(current)) + 1 == current
    ensures PageOf(None) == 0
  {
  }

  /**
   * A page size the table reports is kept as it is; a change that reports
   * none falls back to 10, the page's initial size.
   */
  lemma SizeOfKeepsChosen(size: nat)
    ensures size >= 1 ==> SizeOf(Some(size)) == size
    ensures SizeOf(None) == 10 && SizeOf(Some(0)) == 10
  {
  }

  /** The name a duplicate is given. */
  function CopyName(nom: string): string {
    nom + " (copie)"
  }

  /** Distinct names give distinct copy names, and a copy's name is never its original's. */
  lemma CopyNameInjective(a: string, b: string)
    requires CopyName(a) == CopyName(b)
    ensures a == b
    ensures CopyName(a) != a
  {
    assert a == CopyName(a)[..|a|] == CopyName(b)[..|b|] == b;
    assert |CopyName(a)| == |a| + 8;
  }

  datatype ListCall =
    | Init(nom: string, typeBatiment: TypeBatiment)
    | DeleteBatiment(id: Id)
    | DuplicateBatiment(id: Id, nouveauNom: string)

  /** The page's state. */
  class ListPage {
    var searchText: string
    var typeFilter: Option<TypeBatiment>
    var statutFilter: Option<StatutBatiment>
    /** The 0-based page the query asks for. */
    var page: int
    var pageSize: int
    var isCreateModalOpen: bool
    var newBatimentNom: string
    var newBatimentType: TypeBatiment
    var isWizardOpen: bool
    /** Every server call the page made. */
    var sent: seq<ListCall>
    /** The query-key prefixes the page marked stale, in order. */
    var invalidated: seq<Key>
    /** The paths the page navigated to, in order. */
    var navigated: seq<string>

    constructor ()
      ensures searchText == "" && typeFilter.None? && statutFilter.None? && page == 0 && pageSize == 10
      ensures !isCreateModalOpen && newBatimentNom == "" && newBatimentType == MAISON_INDIVIDUELLE
      ensures !isWizardOpen && sent == [] && invalidated == [] && navigated == []
    {
      searchText := "";
      typeFilter := None;
      statutFilter := None;
      page := 0;
      pageSize := 10;
      isCreateModalOpen := false;
      newBatimentNom := "";
      newBatimentType := MAISON_INDIVIDUELLE;
      isWizardOpen := false;
      sent := [];
      invalidated := [];
      navigated := [];
    }

    /** The key the list query is cached under. */
    function QueryKey(): (k: Key)
      reads this
      ensures Refreshes(Lists(), k)
    {
      ListExtendsLists(QueryFilters(searchText, typeFilter, statutFilter), Pagination(Some(page), Some(pageSize)));
      List(QueryFilters(searchText, typeFilter, statutFilter), Pagination(Some(page), Some(pageSize)))
    }

    /** The 1-based page the table displays. */
    function DisplayedPage(): (current: int)
      reads this
      ensures page >= 0 ==> current >= 1 && PageOf(Some(current)) == page
    {
      page + 1
    }

    /** The search box submits a text: only the name filter changes, and the first page is shown. */
    method HandleSearch(value: string)
      modifies this
      ensures searchText == value && page == 0
      ensures typeFilter == old(typeFilter) && statutFilter == old(statutFilter) && pageSize == old(pageSize)
      ensures isCreateModalOpen == old(isCreateModalOpen) && newBatimentNom == old(newBatimentNom)
      ensures newBatimentType == old(newBatimentType) && isWizardOpen == old(isWizardOpen)
      ensures sent == old(sent) && invalidated == old(invalidated) && navigated == old(navigated)
    {
      searchText := value;
      page := 0;
    }

    /** Typing in the search box: clearing it searches for the empty text, anything else waits for a submit. */
    method SearchInputChange(value: string)
      modifies this
      ensures value == "" ==> searchText == "" && page == 0
      ensures value != "" ==> searchText == old(searchText) && page == old(page)
      ensures typeFilter == old(typeFilter) && statutFilter == old(statutFilter) && pageSize == old(pageSize)
      ensures isCreateModalOpen == old(isCreateModalOpen) && newBatimentNom == old(newBatimentNom)
      ensures newBatimentType == old(newBatimentType) && isWizardOpen == old(isWizardOpen)
      ensures sent == old(sent) && invalidated == old(invalidated) && navigated == old(navigated)
    {
      if value == "" {
        HandleSearch("");
      }
    }

    /** The type select changes (cleared to `undefined` by its clear icon). */
    method HandleTypeFilterChange(value: Option<TypeBatiment>)
      modifies this
      ensures typeFilter == value && page == 0
      ensures searchText == old(searchText) && statutFilter == old(statutFilter) && pageSize == old(pageSize)
      ensures isCreateModalOpen == old(isCreateModalOpen) && newBatimentNom == old(newBatimentNom)
      ensures newBatimentType == old(newBatimentType) && isWizardOpen == old(isWizardOpen)
      ensures sent == old(sent) && invalidated == old(invalidated) && navigated == old(navigated)
    {
      typeFilter := value;
      page := 0;
    }

    /** The status select changes. */
    method HandleStatutFilterChange(value: Option<StatutBatiment>)
      modifies this
      ensures statutFilter == value && page == 0
      ensures searchText == old(searchText) && typeFilter == old(typeFilter) && pageSize == old(pageSize)
      ensures isCreateModalOpen == old(isCreateModalOpen) && newBatimentNom == old(newBatimentNom)
      ensures newBatimentType == old(newBatimentType) && isWizardOpen == old(isWizardOpen)
      ensures sent == old(sent) && invalidated == old(invalidated) && navigated == old(navigated)
    {
      statutFilter := value;
      page := 0;
    }

    /** The table's pager or size changer: the filters stay, page and size follow the table. */
    method HandleTableChange(current: Option<int>, newPageSize: Option<int>)
      modifies this
      ensures page == PageOf(current) && pageSize == SizeOf(newPageSize)
      ensures searchText == old(searchText) && typeFilter == old(typeFilter) && statutFilter == old(statutFilter)
      ensures isCreateModalOpen == old(isCreateModalOpen) && newBatimentNom == old(newBatimentNom)
      ensures newBatimentType == old(newBatimentType) && isWizardOpen == old(isWizardOpen)
      ensures sent == old(sent) && invalidated == old(invalidated) && navigated == old(navigated)
    {
      page := PageOf(current);
      pageSize := SizeOf(newPageSize);
    }

    /** "Création rapide" opens the modal with whatever name and type it last held. */
    method OpenCreateModal()
      modifies this
      ensures isCreateModalOpen
      ensures newBatimentNom == old(newBatimentNom) && newBatimentType == old(newBatimentType)
      ensures searchText == old(searchText) && typeFilter == old(typeFilter) && statutFilter == old(statutFilter)
      ensures page == old(page) && pageSize == old(pageSize) && isWizardOpen == old(isWizardOpen)
      ensures sent == old(sent) && invalidated == old(invalidated) && navigated == old(navigated)
    {
      isCreateModalOpen := true;
    }

    method SetNewBatimentNom(nom: string)
      requires isCreateModalOpen
      modifies this
      ensures newBatimentNom == nom && newBatimentType == old(newBatimentType) && isCreateModalOpen
      ensures searchText == old(searchText) && typeFilter == old(typeFilter) && statutFilter == old(statutFilter)
      ensures page == old(page) && pageSize == old(pageSize) && isWizardOpen == old(isWizardOpen)
      ensures sent == old(sent) && invalidated == old(invalidated) && navigated == old(navigated)
    {
      newBatimentNom := nom;
    }

    method SetNewBatimentType(t: TypeBatiment)
      requires isCreateModalOpen
      modifies this
      ensures newBatimentType == t && newBatimentNom == old(newBatimentNom) && isCreateModalOpen
      ensures searchText == old(searchText) && typeFilter == old(typeFilter) && statutFilter == old(statutFilter)
      ensures page == old(page) && pageSize == old(pageSize) && isWizardOpen == old(isWizardOpen)
      ensures sent == old(sent) && invalidated == old(invalidated) && navigated == old(navigated)
    {
      newBatimentType := t;
    }

    /**
     * "Créer" (or Enter in the name field). A name that is empty after
     * trimming issues nothing; otherwise the name is sent as typed. Success
     * refreshes the lists, closes the modal, clears the name (the type is
     * kept) and opens the new building.
     */
    method HandleCreate(succeeds: bool, newId: Id) returns (issued: bool)
      requires isCreateModalOpen
      modifies this
      ensures issued <==> Trim(old(newBatimentNom)) != ""
      ensures sent == old(sent) + (if issued then [Init(old(newBatimentNom), old(newBatimentType))] else [])
      ensures invalidated == old(invalidated) + (if issued && succeeds then [Lists()] else [])
      ensures navigated == old(navigated) + (if issued && succeeds then [Wizard.BatimentPath(newId)] else [])
      ensures isCreateModalOpen <==> !(issued && succeeds)
      ensures newBatimentNom == (if issued && succeeds then "" else old(newBatimentNom))
      ensures newBatimentType == old(newBatimentType)
      ensures searchText == old(searchText) && typeFilter == old(typeFilter) && statutFilter == old(statutFilter)
      ensures page == old(page) && pageSize == old(pageSize) && isWizardOpen == old(isWizardOpen)
    {
      issued := Trim(newBatimentNom) != "";
      if issued {
        SendCreate(succeeds, newId);
      }
    }

    /** The create mutation for the name and type the modal holds, and what its success does. */
    method SendCreate(succeeds: bool, newId: Id)
      requires isCreateModalOpen
      modifies this
      ensures sent == old(sent) + [Init(old(newBatimentNom), old(newBatimentType))]
      ensures invalidated == old(invalidated) + (if succeeds then [Lists()] else [])
      ensures navigated == old(navigated) + (if succeeds then [Wizard.BatimentPath(newId)] else [])
      ensures isCreateModalOpen <==> !succeeds
      ensures newBatimentNom == (if succeeds then "" else old(newBatimentNom))
      ensures newBatimentType == old(newBatimentType)
      ensures searchText == old(searchText) && typeFilter == old(typeFilter) && statutFilter == old(statutFilter)
      ensures page == old(page) && pageSize == old(pageSize) && isWizardOpen == old(isWizardOpen)
    {
      sent := sent + [Init(newBatimentNom, newBatimentType)];
      if succeeds {
        invalidated := invalidated + [Lists()];
        isCreateModalOpen := false;
        newBatimentNom := "";
        navigated := navigated + [Wizard.BatimentPath(newId)];
      }
    }

    /** "Annuler" on the modal: closed, with the name cleared and the type back to a single house. */
    method CancelCreate()
      modifies this
      ensures !isCreateModalOpen && newBatimentNom == "" && newBatimentType == MAISON_INDIVIDUELLE
      ensures searchText == old(searchText) && typeFilter == old(typeFilter) && statutFilter == old(statutFilter)
      ensures page == old(page) && pageSize == old(pageSize) && isWizardOpen == old(isWizardOpen)
      ensures sent == old(sent) && invalidated == old(invalidated) && navigated == old(navigated)
    {
      isCreateModalOpen := false;
      newBatimentNom := "";
      newBatimentType := MAISON_INDIVIDUELLE;
    }

    /** "Supprimer" on a row, behind a confirmation; success refreshes the lists. */
    method HandleDelete(id: Id, confirmed: bool, succeeds: bool)
      modifies this
      ensures sent == old(sent) + (if confirmed then [DeleteBatiment(id)] else [])
      ensures invalidated == old(invalidated) + (if confirmed && succeeds then [Lists()] else [])
      ensures navigated == old(navigated)
      ensures searchText == old(searchText) && typeFilter == old(typeFilter) && statutFilter == old(statutFilter)
      ensures page == old(page) && pageSize == old(pageSize)
      ensures isCreateModalOpen == old(isCreateModalOpen) && newBatimentNom == old(newBatimentNom)
      ensures newBatimentType == old(newBatimentType) && isWizardOpen == old(isWizardOpen)
    {
      if confirmed {
        sent := sent + [DeleteBatiment(id)];
        if succeeds {
          invalidated := invalidated + [Lists()];
        }
      }
    }

    /** "Dupliquer" on a row, without confirmation; success refreshes the lists and opens the copy. */
    method HandleDuplicate(id: Id, nom: string, succeeds: bool, copyId: Id)
      modifies this
      ensures sent == old(sent) + [DuplicateBatiment(id, CopyName(nom))]
      ensures invalidated == old(invalidated) + (if succeeds then [Lists()] else [])
      ensures navigated == old(navigated) + (if succeeds then [Wizard.BatimentPath(copyId)] else [])
      ensures searchText == old(searchText) && typeFilter == old(typeFilter) && statutFilter == old(statutFilter)
      ensures page == old(page) && pageSize == old(pageSize)
      ensures isCreateModalOpen == old(isCreateModalOpen) && newBatimentNom == old(newBatimentNom)
      ensures newBatimentType == old(newBatimentType) && isWizardOpen == old(isWizardOpen)
    {
      sent := sent + [DuplicateBatiment(id, CopyName(nom))];
      if succeeds {
        invalidated := invalidated + [Lists()];
        navigated := navigated + [Wizard.BatimentPath(copyId)];
      }
    }

    /** "Voir" on a row opens the building's page. */
    method View(id: Id)
      modifies this
      ensures navigated == old(navigated) + [Wizard.BatimentPath(id)]
      ensures searchText == old(searchText) && typeFilter == old(typeFilter) && statutFilter == old(statutFilter)
      ensures page == old(page) && pageSize == old(pageSize)
      ensures isCreateModalOpen == old(isCreateModalOpen) && newBatimentNom == old(newBatimentNom)
      ensures newBatimentType == old(newBatimentType) && isWizardOpen == old(isWizardOpen)
      ensures sent == old(sent) && invalidated == old(invalidated)
    {
      navigated := navigated + [Wizard.BatimentPath(id)];
    }

    /** "Assistant de configuration" opens the wizard drawer; its close button and the wizard close it. */
    method SetWizardOpen(open: bool)
      modifies this
      ensures isWizardOpen == open
      ensures searchText == old(searchText) && typeFilter == old(typeFilter) && statutFilter == old(statutFilter)
      ensures page == old(page) && pageSize == old(pageSize)
      ensures isCreateModalOpen == old(isCreateModalOpen) && newBatimentNom == old(newBatimentNom)
      ensures newBatimentType == old(newBatimentType)
      ensures sent == old(sent) && invalidated == old(invalidated) && navigated == old(navigated)
    {
      isWizardOpen := open;
    }
  }

  /**
   * A building's page, where "Voir" and a successful duplicate lead, lies
   * under the buildings entry of the menu: the corrected sidebar highlights
   * that entry there, the sidebar as written highlights the root.
   */
  lemma BuildingPageHighlightsBuildings(id: Id)
    ensures Sidebar.SelectedKey(Wizard.BatimentPath(id)) == "/batiments"
    ensures Sidebar.SelectedKeyAsWritten(Wizard.BatimentPath(id)) == "/"
  {
    assert "/batiments" <= Wizard.BatimentPath(id);
    Sidebar.AsWrittenAlwaysRoot(Wizard.BatimentPath(id));
  }

  /** Whatever filters and page the list shows, a mutation's invalidation of `lists()` refreshes it. */
  lemma MutationRefreshesShownList(searchText: string, typeFilter: Option<TypeBatiment>,
                                   statutFilter: Option<StatutBatiment>, page: int, pageSize: int, id: Id)
    ensures var k := List(QueryFilters(searchText, typeFilter, statutFilter), Pagination(Some(page), Some(pageSize)));
      Refreshes(Lists(), k) && !Refreshes(Detail(id), k)
  {
    var k := List(QueryFilters(searchText, typeFilter, statutFilter), Pagination(Some(page), Some(pageSize)));
    assert k[1] == Str("list") && Detail(id)[1] == Str("detail");
  }
}
