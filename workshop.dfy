// Workshop publishing: the tags of an item, filtered against the tags the Workshop
// knows before they are handed to SetItemTags.

module Workshop {

  /** gTags: the tags the Workshop knows. */
  const KnownTags: seq<string> := [
    "Animation", "Audio", "Character", "Map", "Mod", "Mode", "Model", "Multiplayer", "Scorestreak", "Skin",
    "Specialist", "Texture", "UI", "Vehicle", "Visual Effect", "Weapon", "WIP", "Zombies"]

  /** Reference definition: the item's tags that are known tags, in the item's order. */
  function KnownOf(tags: seq<string>): seq<string>
    decreases |tags|
  {
    if |tags| == 0 then []
    else KnownOf(tags[..|tags| - 1]) + (if tags[|tags| - 1] in KnownTags then [tags[|tags| - 1]] else [])
  }

  predicate Distinct(s: seq<string>) {
    forall i, j :: 0 <= i < j < |s| ==> s[i] != s[j]
  }

  /** Two distinct sequences with no element in common join into a distinct one. */
  lemma DistinctAppend(a: seq<string>, b: seq<string>)
    requires Distinct(a) && Distinct(b)
    requires forall i, j :: 0 <= i < |a| && 0 <= j < |b| ==> a[i] != b[j]
    ensures Distinct(a + b)
  {
    var t := a + b;
    forall i, j | 0 <= i < j < |t|
      ensures t[i] != t[j]
    {
      if j < |a| {
        assert t[i] == a[i] && t[j] == a[j];
      } else if i < |a| {
        assert t[i] == a[i] && t[j] == b[j - |a|];
      } else {
        assert t[i] == b[i - |a|] && t[j] == b[j - |a|];
      }
    }
  }

  lemma KnownTagsDistinct()
    ensures Distinct(KnownTags)
  {
    // The first half's tags start with A, C or M, the second half's with S to Z.
    var a := ["Animation", "Audio", "Character", "Map", "Mod", "Mode", "Model", "Multiplayer"];
    var b := ["Scorestreak", "Skin", "Specialist", "Texture", "UI", "Vehicle", "Visual Effect", "Weapon", "WIP", "Zombies"];
    assert Distinct(a);
    assert Distinct(b);
    assert forall i, j :: 0 <= i < |a| && 0 <= j < |b| ==> a[i][0] != b[j][0];
    DistinctAppend(a, b);
    assert a + b == KnownTags;
  }

  /**
   * One pass of the inner loop over the tag table `known`: the tag is compared with
   * every entry and stored once when it is one; the pass breaks when the array is full.
   */
  method MatchTag(tag: string, known: seq<string>, tagList: array<string>, count: nat) returns (count': nat)
    requires Distinct(known) && tagList.Length == |known| && count <= tagList.Length
    requires tag in known ==> count < tagList.Length
    modifies tagList
    ensures count' == count + (if tag in known then 1 else 0)
    ensures tagList[..count] == old(tagList[..count])
    ensures tag in known ==> tagList[count] == tag
  {
    count' := count;
    var j := 0;
    while j < |known|
      invariant 0 <= j <= |known|
      invariant count' == count + (if tag in known[..j] then 1 else 0)
      invariant tagList[..count] == old(tagList[..count])
      invariant tag in known[..j] ==> tagList[count] == tag
    {
      assert known[..j + 1] == known[..j] + [known[j]];
      if tag == known[j] {
        tagList[count'] := known[j];
        count' := count' + 1;
        if count' == tagList.Length {
          return;
        }
      }
      j := j + 1;
    }
    assert known[..j] == known;
  }

  lemma {:induction false} KnownOfPrefix(tags: seq<string>, i: nat)
    requires i < |tags|
    ensures KnownOf(tags[..i + 1]) == KnownOf(tags[..i]) + (if tags[i] in KnownTags then [tags[i]] else [])
  {
    assert tags[..i + 1][..i] == tags[..i];
  }

  lemma {:induction false} KnownOfMonotone(tags: seq<string>, i: nat)
    requires i <= |tags|
    ensures |KnownOf(tags[..i])| <= |KnownOf(tags)|
    decreases |tags| - i
  {
    if i < |tags| {
      KnownOfPrefix(tags, i);
      KnownOfMonotone(tags, i + 1);
    } else {
      assert tags[..i] == tags;
    }
  }

  /**
   * The tag filter of UpdateWorkshopItem: the known tags of the item, in order, in the
   * first `count` slots of an array with one slot per known tag. The array only has
   * room when no more tags match than there are known tags.
   */
  method FilterTags(tags: seq<string>) returns (tagList: array<string>, count: nat)
    requires |KnownOf(tags)| <= |KnownTags|
    ensures tagList.Length == |KnownTags| && count <= tagList.Length
    ensures tagList[..count] == KnownOf(tags)
  {
    tagList := new string[|KnownTags|];
    count := 0;
    var i := 0;
    while i < |tags|
      invariant 0 <= i <= |tags|
      invariant count == |KnownOf(tags[..i])| && count <= tagList.Length
      invariant tagList[..count] == KnownOf(tags[..i])
      modifies tagList
    {
      KnownOfPrefix(tags, i);
      KnownOfMonotone(tags, i + 1);
      ghost var before := tagList[..count];
      KnownTagsDistinct();
      count := MatchTag(tags[i], KnownTags, tagList, count);
      assert tagList[..count] == before + (if tags[i] in KnownTags then [tags[i]] else []);
      i := i + 1;
    }
    assert tags[..i] == tags;
  }

  /** Each known tag kept is one of the item's tags, and each of the item's known tags is kept. */
  lemma {:induction false} KnownOfExact(tags: seq<string>)
    ensures forall t :: t in KnownOf(tags) <==> t in tags && t in KnownTags
    decreases |tags|
  {
    if |tags| > 0 {
      var init := tags[..|tags| - 1];
      KnownOfExact(init);
      assert tags == init + [tags[|tags| - 1]];
    }
  }

  /** The tags are gathered from the dialog's check boxes, one per known tag, so none repeats. */
  lemma DistinctTagsFit(tags: seq<string>)
    requires Distinct(tags)
    ensures |KnownOf(tags)| <= |KnownTags|
  {
    DistinctKnownOf(tags);
    KnownOfExact(tags);
    DistinctWithin(KnownOf(tags), set t | t in KnownTags);
    SetOfSeqSize(KnownTags);
  }

  lemma {:induction false} DistinctKnownOf(tags: seq<string>)
    requires Distinct(tags)
    ensures Distinct(KnownOf(tags))
    decreases |tags|
  {
    if |tags| > 0 {
      var init := tags[..|tags| - 1];
      var last := tags[|tags| - 1];
      assert Distinct(init);
      DistinctKnownOf(init);
      KnownOfExact(init);
      assert last !in init;
    }
  }

  /** A sequence without repeats drawn from a set is no longer than the set. */
  lemma {:induction false} DistinctWithin(s: seq<string>, universe: set<string>)
    requires Distinct(s) && forall i :: 0 <= i < |s| ==> s[i] in universe
    ensures |s| <= |universe|
    decreases |s|
  {
    if |s| > 0 {
      assert forall i :: 1 <= i < |s| ==> s[i] != s[0];
      DistinctWithin(s[1..], universe - {s[0]});
    }
  }

  lemma {:induction false} SetOfSeqSize(s: seq<string>)
    ensures |set t | t in s| <= |s|
    decreases |s|
  {
    if |s| > 0 {
      SetOfSeqSize(s[1..]);
      assert (set t | t in s) == (set t | t in s[1..]) + {s[0]};
    }
  }
}
