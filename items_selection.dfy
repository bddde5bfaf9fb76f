/** `useItemsSelection`: the one selection set that the files list and the
    folders list share, and the operations that change it. Every change is
    followed by one 'select-change' event carrying the set. */
module ItemsSelection {
  import opened Drive

  /** A listed file or folder as the client holds it. The selection set
      keeps these objects themselves, so two records with equal fields are
      still two different members. */
  class ClientItem {
    const id: int
    /** Folders have none; files carry their MIME type. */
    const mimeType: Option<string>

    constructor (id: int, mimeType: Option<string>)
      ensures this.id == id && this.mimeType == mimeType
    {
      this.id := id;
      this.mimeType := mimeType;
    }
  }

  /** JavaScript truthiness of an optional string. */
  predicate Truthy(s: Option<string>) {
    s.Some? && s.value != ""
  }

  /** `has(item) ? delete(item) : add(item)` on a set. */
  function Toggle(s: set<ClientItem>, item: ClientItem): (r: set<ClientItem>)
    ensures item in r <==> item !in s
    ensures r - {item} == s - {item}
  {
    if item in s then s - {item} else s + {item}
  }

  /** Toggling the same item twice restores the selection. */
  lemma ToggleTwice(s: set<ClientItem>, item: ClientItem)
    ensures Toggle(Toggle(s, item), item) == s
  {
  }

  /** Toggling changes the selection's size by exactly one. */
  lemma ToggleSize(s: set<ClientItem>, item: ClientItem)
    ensures item in s ==> |Toggle(s, item)| == |s| - 1
    ensures item !in s ==> |Toggle(s, item)| == |s| + 1
  {
  }

  class Selection {
    /** The shared `selectedItems` set. */
    var selectedItems: set<ClientItem>
    /** The 'select-change' events emitted so far, each with the contents
        the set had when its listeners ran. */
    var emitted: seq<set<ClientItem>>

    constructor ()
      ensures selectedItems == {} && emitted == []
    {
      selectedItems := {};
      emitted := [];
    }

    /** `selectOne`: the item becomes the only selected item. */
    method SelectOne(item: ClientItem)
      modifies this
      ensures selectedItems == {item}
      ensures emitted == old(emitted) + [{item}]
    {
      selectedItems := {};
      selectedItems := selectedItems + {item};
      emitted := emitted + [selectedItems];
    }

    /** `selectMultiple`: the item's membership flips, the rest stay. */
    method SelectMultiple(item: ClientItem)
      modifies this
      ensures selectedItems == Toggle(old(selectedItems), item)
      ensures emitted == old(emitted) + [selectedItems]
    {
      if item in selectedItems {
        selectedItems := selectedItems - {item};
      } else {
        selectedItems := selectedItems + {item};
      }
      emitted := emitted + [selectedItems];
    }

    /** `isSelected`: the item is in the set, or it has the id of the first
        entry of `selected` and that entry has a MIME type (it is a file). */
    function IsSelected(selected: seq<ClientItem>, item: ClientItem): (r: bool)
      reads this
      ensures item in selectedItems ==> r
      ensures |selected| > 0 && selected[0].id == item.id && Truthy(selected[0].mimeType) ==> r
      ensures r && item !in selectedItems ==> |selected| > 0 && selected[0].id == item.id && Truthy(selected[0].mimeType)
      ensures |selected| > 0 && !Truthy(selected[0].mimeType) ==> (r <==> item in selectedItems)
      ensures selected == [] ==> (r <==> item in selectedItems)
    {
      item in selectedItems || (|selected| > 0 && selected[0].id == item.id && Truthy(selected[0].mimeType))
    }

    /** `clearSelected`: nothing is selected any more. */
    method ClearSelected()
      modifies this
      ensures selectedItems == {}
      ensures emitted == old(emitted) + [{}]
    {
      selectedItems := {};
      emitted := emitted + [selectedItems];
    }
  }
}
