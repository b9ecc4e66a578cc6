/**
 * The sidebar menu: which of its two entries is highlighted for the current
 * path, and where a click on an entry leads.
 */
module Sidebar {
  import opened Common

  /** The menu entries' keys, in the order the menu lists them. */
  const MenuKeys: seq<string> := ["/", "/batiments"]

  /** `pathname.startsWith(key)`. */
  predicate StartsWith(pathname: string, key: string) {
    key <= pathname
  }

  /** `keys.find(k => pathname.startsWith(k))`: the first key that starts the path, if any. */
  function FirstPrefix(keys: seq<string>, pathname: string): (k: Option<string>)
    ensures k.Some? ==> k.value in keys && StartsWith(pathname, k.value)
    ensures k.Some? ==> exists i :: 0 <= i < |keys| && keys[i] == k.value &&
                                    (forall j :: 0 <= j < i ==> !StartsWith(pathname, keys[j]))
    ensures k.None? <==> forall i :: 0 <= i < |keys| ==> !StartsWith(pathname, keys[i])
  {
    if |keys| == 0 then None
    else if StartsWith(pathname, keys[0]) then Some(keys[0])
    else
      var k := FirstPrefix(keys[1..], pathname);
      assert forall i :: 1 <= i < |keys| ==> keys[1..][i - 1] == keys[i];
      if k.Some? then
        var i :| 0 <= i < |keys[1..]| && keys[1..][i] == k.value &&
                 (forall j :: 0 <= j < i ==> !StartsWith(pathname, keys[1..][j]));
        assert keys[i + 1] == k.value;
        k
      else k
  }

  /** `find(...)?.key || '/'`. */
  function KeyOrRoot(k: Option<string>): string {
    if k.Some? && k.value != "" then k.value else "/"
  }

  /** The highlighted entry as the sidebar computes it. */
  function SelectedKeyAsWritten(pathname: string): (key: string)
    ensures key in MenuKeys
  {
    KeyOrRoot(FirstPrefix(MenuKeys, pathname))
  }

  /** '/' comes first and starts every path that starts with '/', so it is always the one highlighted. */
  lemma AsWrittenAlwaysRoot(pathname: string)
    ensures SelectedKeyAsWritten(pathname) == "/"
  {
  }

  /** The buildings entry is never highlighted, not even on the buildings page itself. */
  lemma AsWrittenMissesBuildings()
    ensures SelectedKeyAsWritten("/batiments") != "/batiments"
    ensures SelectedKeyAsWritten("/batiments/42") != "/batiments"
  {
    AsWrittenAlwaysRoot("/batiments");
    AsWrittenAlwaysRoot("/batiments/42");
  }

  /** The same search over the entries, most specific first. */
  function SelectedKey(pathname: string): (key: string)
    ensures key in MenuKeys
    ensures StartsWith(pathname, "/batiments") ==> key == "/batiments"
    ensures !StartsWith(pathname, "/batiments") ==> key == "/"
  {
    KeyOrRoot(FirstPrefix(["/batiments", "/"], pathname))
  }

  /** The entry highlighted is the longest key that starts the path. */
  lemma SelectedKeyIsLongestMatch(pathname: string, k: string)
    requires k in MenuKeys && StartsWith(pathname, k)
    ensures StartsWith(pathname, SelectedKey(pathname)) && |k| <= |SelectedKey(pathname)|
  {
  }

  /** A click on an entry navigates to its key. */
  function ClickTarget(key: string): string
    requires key in MenuKeys
  {
    key
  }

  /** After a click, the entry clicked is the one highlighted. */
  lemma ClickSelectsEntry(key: string)
    requires key in MenuKeys
    ensures SelectedKey(ClickTarget(key)) == key
  {
  }

  /** The sidebar as written fails that for the buildings entry. */
  lemma AsWrittenClickLosesEntry()
    ensures SelectedKeyAsWritten(ClickTarget("/batiments")) != "/batiments"
  {
    AsWrittenMissesBuildings();
  }
}
