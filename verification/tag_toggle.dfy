/** The tag-selection toggle, written identically on the create page
    (`handleTagSelection`) and on the home page (`handleTagClick`): a selected tag is
    filtered out, an unselected one is appended. */
module TagToggle {
  import opened Seqs

  /** `tags.includes(tag) ? tags.filter(t => t !== tag) : [...tags, tag]` */
  function Toggle(tags: seq<string>, tag: string): (r: seq<string>)
    ensures tag in r <==> tag !in tags
    ensures tag !in tags ==> r == tags + [tag]
  {
    if tag in tags then
      FilterMembers(tags, t => t != tag, tag);
      Filter(tags, t => t != tag)
    else tags + [tag]
  }

  /** Every other tag keeps its selection status. */
  lemma ToggleOthers(tags: seq<string>, tag: string, other: string)
    requires other != tag
    ensures other in Toggle(tags, tag) <==> other in tags
  {
    if tag in tags {
      FilterMembers(tags, t => t != tag, other);
    }
  }

  /** Toggling never creates a duplicate. */
  lemma ToggleNoDup(tags: seq<string>, tag: string)
    requires NoDup(tags)
    ensures NoDup(Toggle(tags, tag))
  {
    if tag in tags {
      FilterNoDup(tags, t => t != tag);
    }
  }

  /** Toggling an unselected tag twice gives back exactly the same list. */
  lemma ToggleTwiceAbsent(tags: seq<string>, tag: string)
    requires tag !in tags
    ensures Toggle(Toggle(tags, tag), tag) == tags
  {
    FilterAppend(tags, [tag], t => t != tag);
    FilterKeepsAll(tags, t => t != tag);
  }

  /** Toggling twice restores the selection as a set of tags; with no duplicates it
      restores it as a multiset (only the position of a selected tag may move). */
  lemma ToggleTwice(tags: seq<string>, tag: string)
    requires NoDup(tags)
    ensures multiset(Toggle(Toggle(tags, tag), tag)) == multiset(tags)
  {
    if tag in tags {
      var once := Filter(tags, t => t != tag);
      FilterMultiset(tags, t => t != tag);
      FilterMembers(tags, t => t != tag, tag);
      NoDupOccursOnce(tags, tag);
      assert Toggle(once, tag) == once + [tag];
      assert multiset(once + [tag]) == multiset(tags);
    } else {
      ToggleTwiceAbsent(tags, tag);
    }
  }
}
