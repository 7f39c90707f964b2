// The file list of the main window: a tree of maps and mods whose leaves carry a
// check box, and the two searches over it that collect what the user ticked.

module FileTree {
  import opened Wrappers

  /** The item type stored under Qt::UserRole: ML_ITEM_UNKNOWN, ML_ITEM_MAP, ML_ITEM_MOD. */
  datatype ItemKind = Unknown | MapItem | ModItem

  /** One tree widget item: its column-0 text, its type tag, its check state and its children. */
  datatype Item = Item(text: string, kind: ItemKind, checked: bool, children: seq<Item>)

  /**
   * A collected item together with the text of its parent item; `None` when the
   * parent is the tree's invisible root (QTreeWidgetItem::parent() is null there).
   */
  datatype Found = Found(item: Item, parent: Option<string>)

  /**
   * Reference definition of the items SearchCheckedItems collects from `children`,
   * whose parent has text `parent`: a checked child is taken and not descended into,
   * an unchecked child is searched in turn, in child order.
   */
  function CheckedIn(children: seq<Item>, parent: Option<string>): seq<Found>
    decreases children
  {
    if |children| == 0 then []
    else
      var child := children[0];
      (if child.checked then [Found(child, parent)] else CheckedIn(child.children, Some(child.text)))
      + CheckedIn(children[1..], parent)
  }

  lemma {:induction false} CheckedInAppend(children: seq<Item>, child: Item, parent: Option<string>)
    ensures CheckedIn(children + [child], parent)
         == CheckedIn(children, parent)
            + (if child.checked then [Found(child, parent)] else CheckedIn(child.children, Some(child.text)))
    decreases |children|
  {
    if |children| == 0 {
      assert children + [child] == [child];
      assert [child][1..] == [];
    } else {
      assert (children + [child])[1..] == children[1..] + [child];
      CheckedInAppend(children[1..], child, parent);
    }
  }

  /**
   * SearchCheckedItems (the recursive lambda of OnEditBuild): walks the children of
   * `node`, appending every checked child to `found` and searching every unchecked one.
   * `parent` is the text `node` reports as a parent, `None` for the invisible root.
   */
  method SearchCheckedItems(node: Item, parent: Option<string>, found: seq<Found>) returns (found': seq<Found>)
    ensures found' == found + CheckedIn(node.children, parent)
    decreases node
  {
    found' := found;
    var i := 0;
    while i < |node.children|
      invariant 0 <= i <= |node.children|
      invariant found' == found + CheckedIn(node.children[..i], parent)
    {
      var child := node.children[i];
      ghost var done := node.children[..i];
      ghost var add := if child.checked then [Found(child, parent)] else CheckedIn(child.children, Some(child.text));
      assert node.children[..i + 1] == done + [child];
      CheckedInAppend(done, child, parent);
      if child.checked {
        found' := found' + [Found(child, parent)];
      } else {
        found' := SearchCheckedItems(child, Some(child.text), found');
      }
      assert found' == found + CheckedIn(done, parent) + add;
      i := i + 1;
    }
    assert node.children[..i] == node.children;
  }

  /** The tree's top level: the children of the invisible root. */
  method CheckedItems(topLevel: seq<Item>) returns (items: seq<Found>)
    ensures items == CheckedIn(topLevel, None)
  {
    items := SearchCheckedItems(Item("", Unknown, false, topLevel), None, []);
  }

  /**
   * SearchCheckedItem (OnEditPublish): the first checked item in the same walk,
   * or nothing when no item is checked.
   */
  function FirstChecked(children: seq<Item>): (r: Option<Item>)
    ensures r.Some? ==> r.value.checked
    decreases children
  {
    if |children| == 0 then None
    else if children[0].checked then Some(children[0])
    else
      match FirstChecked(children[0].children)
      case Some(c) => Some(c)
      case None => FirstChecked(children[1..])
  }

  /** The first-match search returns the head of the collecting search, for any parent label. */
  lemma {:induction false} FirstCheckedIsHead(children: seq<Item>, parent: Option<string>)
    ensures FirstChecked(children)
         == (if CheckedIn(children, parent) == [] then None else Some(CheckedIn(children, parent)[0].item))
    decreases children
  {
    if |children| > 0 {
      var child := children[0];
      FirstCheckedIsHead(children[1..], parent);
      if !child.checked {
        FirstCheckedIsHead(child.children, Some(child.text));
      }
    }
  }

  /** Every collected item is a checked one. */
  lemma {:induction false} CheckedInAreChecked(children: seq<Item>, parent: Option<string>)
    ensures forall f :: f in CheckedIn(children, parent) ==> f.item.checked
    decreases children
  {
    if |children| > 0 {
      var child := children[0];
      CheckedInAreChecked(children[1..], parent);
      if !child.checked {
        CheckedInAreChecked(child.children, Some(child.text));
      }
    }
  }

  /** Conversely, every checked child of a searched item is collected, with that item's text as parent. */
  lemma {:induction false} CheckedChildCollected(children: seq<Item>, parent: Option<string>, i: nat)
    requires i < |children| && children[i].checked
    ensures Found(children[i], parent) in CheckedIn(children, parent)
    decreases i
  {
    if i > 0 {
      assert children[1..][i - 1] == children[i];
      CheckedChildCollected(children[1..], parent, i - 1);
    }
  }

  /** No item in the forest `children` is checked. */
  predicate NoneChecked(children: seq<Item>)
    decreases children
  {
    forall i :: 0 <= i < |children| ==> !children[i].checked && NoneChecked(children[i].children)
  }

  /** With no checked item anywhere, the search collects nothing. */
  lemma {:induction false} NothingCheckedNothingFound(children: seq<Item>, parent: Option<string>)
    requires NoneChecked(children)
    ensures CheckedIn(children, parent) == []
    decreases children
  {
    if |children| > 0 {
      assert !children[0].checked && NoneChecked(children[0].children);
      NothingCheckedNothingFound(children[0].children, Some(children[0].text));
      assert NoneChecked(children[1..]) by {
        forall i | 0 <= i < |children[1..]|
          ensures !children[1..][i].checked && NoneChecked(children[1..][i].children)
        {
          assert children[1..][i] == children[i + 1];
        }
      }
      NothingCheckedNothingFound(children[1..], parent);
    }
  }

  /**
   * The list is populated with check boxes only below the "Maps" and "Mods" roots,
   * so no top-level item is checked; then every collected item has a parent, which
   * OnEditBuild relies on when it reads a mod zone's parent text.
   */
  lemma {:induction false} CollectedItemsHaveParents(topLevel: seq<Item>)
    requires forall i :: 0 <= i < |topLevel| ==> !topLevel[i].checked
    ensures forall f :: f in CheckedIn(topLevel, None) ==> f.parent.Some?
    decreases topLevel
  {
    if |topLevel| > 0 {
      ParentsBelow(topLevel[0].children, topLevel[0].text);
      CollectedItemsHaveParents(topLevel[1..]);
    }
  }

  lemma {:induction false} ParentsBelow(children: seq<Item>, text: string)
    ensures forall f :: f in CheckedIn(children, Some(text)) ==> f.parent.Some?
    decreases children
  {
    if |children| > 0 {
      var child := children[0];
      if !child.checked {
        ParentsBelow(child.children, child.text);
      }
      ParentsBelow(children[1..], text);
    }
  }
}
