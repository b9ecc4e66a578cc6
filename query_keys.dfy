/**
 * Cache keys of the building queries. A key is a sequence of parts built by
 * appending to a parent key; invalidating a key marks stale every cached query
 * whose key starts with it.
 */
module QueryKeys {
  import opened Common
  import opened Types

  /** One element of a key: a literal or id, or the `{ filters, pagination }` object of a list query. */
  datatype KeyPart = Str(s: string) | ListParams(filters: BatimentFilters, pagination: Pagination)

  type Key = seq<KeyPart>

  function All(): Key { [Str("batiments")] }
  function Lists(): Key { All() + [Str("list")] }
  function List(f: BatimentFilters, p: Pagination): Key { Lists() + [ListParams(f, p)] }
  function AllNoPagination(): Key { All() + [Str("no-pagination")] }
  function Details(): Key { All() + [Str("detail")] }
  function Detail(id: Id): Key { Details() + [Str(id)] }
  function Validation(id: Id): Key { Detail(id) + [Str("validation")] }

  function NiveauxAll(batimentId: Id): Key { [Str("batiments"), Str(batimentId), Str("niveaux")] }
  function NiveauDetail(batimentId: Id, niveauId: Id): Key { NiveauxAll(batimentId) + [Str(niveauId)] }
  function PiecesAll(batimentId: Id, niveauId: Id): Key {
    [Str("batiments"), Str(batimentId), Str("niveaux"), Str(niveauId), Str("pieces")]
  }
  function PieceDetail(batimentId: Id, niveauId: Id, pieceId: Id): Key {
    PiecesAll(batimentId, niveauId) + [Str(pieceId)]
  }

  /** `invalidateQueries({ queryKey: prefix })` refreshes the query cached under `key`. */
  predicate Refreshes(prefix: Key, key: Key) {
    prefix <= key
  }

  /** A cached query is stale once one of the invalidated prefixes starts its key. */
  predicate Stale(invalidated: seq<Key>, key: Key) {
    exists i :: 0 <= i < |invalidated| && Refreshes(invalidated[i], key)
  }

  /** Every building key, including the level and room keys, starts with `all`. */
  lemma EveryKeyUnderAll(f: BatimentFilters, p: Pagination, b: Id, n: Id, r: Id)
    ensures Refreshes(All(), Lists()) && Refreshes(All(), List(f, p))
    ensures Refreshes(All(), AllNoPagination()) && Refreshes(All(), Details())
    ensures Refreshes(All(), Detail(b)) && Refreshes(All(), Validation(b))
    ensures Refreshes(All(), NiveauxAll(b)) && Refreshes(All(), NiveauDetail(b, n))
    ensures Refreshes(All(), PiecesAll(b, n)) && Refreshes(All(), PieceDetail(b, n, r))
  {
  }

  /** A list key is `lists()` followed by exactly one parameter object. */
  lemma ListExtendsLists(f: BatimentFilters, p: Pagination)
    ensures Refreshes(Lists(), List(f, p)) && Lists() != List(f, p)
    ensures |List(f, p)| == |Lists()| + 1 && List(f, p)[|Lists()|] == ListParams(f, p)
  {
  }

  /** Invalidating a building's detail also refreshes its validation report. */
  lemma DetailCoversValidation(id: Id)
    ensures Validation(id) == Detail(id) + [Str("validation")]
    ensures Refreshes(Detail(id), Validation(id)) && Detail(id) != Validation(id)
    ensures Refreshes(Details(), Detail(id))
  {
  }

  /** Invalidating `lists()` leaves the unpaginated list, the details and the validation reports alone. */
  lemma ListsSparesOthers(id: Id)
    ensures !Refreshes(Lists(), AllNoPagination())
    ensures !Refreshes(Lists(), Detail(id)) && !Refreshes(Lists(), Validation(id))
  {
    assert AllNoPagination()[1] != Lists()[1];
    assert Detail(id)[1] != Lists()[1];
    assert Validation(id)[1] != Lists()[1];
  }

  /** Invalidating one building's detail does not refresh another's, nor any list. */
  lemma DetailSparesOthers(id: Id, other: Id, f: BatimentFilters, p: Pagination)
    requires id != other
    ensures !Refreshes(Detail(id), Detail(other)) && !Refreshes(Detail(id), Validation(other))
    ensures !Refreshes(Detail(id), List(f, p)) && !Refreshes(Detail(id), Lists())
  {
    assert Detail(id)[2] != Detail(other)[2];
    assert Detail(id)[2] != Validation(other)[2];
    assert Detail(id)[1] != List(f, p)[1];
  }

  /** Distinct ids give distinct detail and validation keys. */
  lemma DetailInjective(a: Id, b: Id)
    ensures Detail(a) == Detail(b) <==> a == b
    ensures Validation(a) == Validation(b) <==> a == b
  {
    if Detail(a) == Detail(b) {
      assert Detail(a)[2] == Detail(b)[2];
    }
    if Validation(a) == Validation(b) {
      assert Validation(a)[2] == Validation(b)[2];
    }
  }

  /**
   * The level and room keys hang under their parents; `lists()` reaches a
   * level key only in the degenerate case of a building whose id is "list".
   */
  lemma NestedKeys(b: Id, n: Id, r: Id)
    ensures Refreshes(NiveauxAll(b), NiveauDetail(b, n))
    ensures Refreshes(PiecesAll(b, n), PieceDetail(b, n, r))
    ensures Refreshes(Lists(), NiveauxAll(b)) <==> b == "list"
    ensures !Refreshes(Detail(b), NiveauxAll(b))
  {
    if Refreshes(Lists(), NiveauxAll(b)) {
      assert NiveauxAll(b)[1] == Lists()[1];
    }
    if Refreshes(Detail(b), NiveauxAll(b)) {
      assert Detail(b)[1] == NiveauxAll(b)[1] && Detail(b)[2] == NiveauxAll(b)[2];
    }
  }
}
