/** The home page: a tag filter over the itinerary feed, and the "Save" dialog that
    lists the user's boards and creates new ones locally. */
module Homepage {
  import opened Seqs
  import opened Text
  import opened TagToggle

  datatype Option<T> = None | Some(value: T)

  /** A feed entry; only its tags matter to the filter. */
  datatype Itinerary = Itinerary(id: int, title: string, tags: seq<string>)

  /** A board of saved itineraries; the cover image is an object URL or absent (`null`). */
  datatype Board = Board(id: int, name: string, coverImage: Option<string>)

  /** `itinerary.tags.some((tag) => selectedTags.includes(tag))` */
  predicate SharesTag(it: Itinerary, selected: seq<string>) {
    exists i :: 0 <= i < |it.tags| && it.tags[i] in selected
  }

  /** `filteredItineraries`: everything when no tag is selected, otherwise the
      itineraries sharing at least one tag with the selection. */
  function FilteredItineraries(itineraries: seq<Itinerary>, selected: seq<string>): (r: seq<Itinerary>)
    ensures |selected| == 0 ==> r == itineraries
    ensures |selected| > 0 ==> forall i :: 0 <= i < |r| ==> SharesTag(r[i], selected)
  {
    if |selected| > 0 then Filter(itineraries, it => SharesTag(it, selected)) else itineraries
  }

  /** With a selection, an itinerary is shown exactly when it is in the feed and shares
      a tag with the selection. */
  lemma FilteredMembers(itineraries: seq<Itinerary>, selected: seq<string>, it: Itinerary)
    requires |selected| > 0
    ensures it in FilteredItineraries(itineraries, selected) <==> it in itineraries && SharesTag(it, selected)
  {
    FilterMembers(itineraries, x => SharesTag(x, selected), it);
  }

  /** The filter keeps the feed's order: it works entry by entry, and a feed split in
      two is filtered part by part. */
  lemma FilteredInOrder(a: seq<Itinerary>, b: seq<Itinerary>, selected: seq<string>)
    ensures FilteredItineraries(a + b, selected) == FilteredItineraries(a, selected) + FilteredItineraries(b, selected)
  {
    if |selected| > 0 {
      FilterAppend(a, b, it => SharesTag(it, selected));
    }
  }

  /** A single entry is kept exactly when it shares a tag (or nothing is selected). */
  lemma FilteredSingle(it: Itinerary, selected: seq<string>)
    ensures FilteredItineraries([it], selected) == if |selected| == 0 || SharesTag(it, selected) then [it] else []
  {
    if |selected| > 0 {
      assert [it][1..] == [];
    }
  }

  /** Board `i` (from 0) has id `i + 1`. */
  ghost predicate IdsSequential(boards: seq<Board>) {
    forall i :: 0 <= i < |boards| ==> boards[i].id == i + 1
  }

  /** The page's state. */
  class HomePage {
    var selectedTags: seq<string>
    var itineraries: seq<Itinerary>
    var boards: seq<Board>
    var showModal: bool
    var newBoardName: string
    var newBoardImage: Option<string>

    /** What every reachable state satisfies: no tag selected twice, board ids 1..n. */
    ghost predicate Valid()
      reads this
    {
      NoDup(selectedTags) && IdsSequential(boards)
    }

    /** The feed as displayed. */
    function Feed(): seq<Itinerary>
      reads this
    {
      FilteredItineraries(itineraries, selectedTags)
    }

    /** The state after `useState`: nothing selected, no itineraries or boards (their
        fetches are left unimplemented), dialog closed, empty new-board inputs. */
    constructor ()
      ensures Valid()
      ensures selectedTags == [] && itineraries == [] && boards == []
      ensures !showModal && newBoardName == "" && newBoardImage == None
    {
      selectedTags, itineraries, boards := [], [], [];
      showModal, newBoardName, newBoardImage := false, "", None;
    }

    /** `handleTagClick`: toggles one tag of the filter. */
    method HandleTagClick(tag: string)
      requires Valid()
      modifies this
      ensures Valid()
      ensures selectedTags == Toggle(old(selectedTags), tag)
      ensures Feed() == FilteredItineraries(old(itineraries), Toggle(old(selectedTags), tag))
      ensures itineraries == old(itineraries) && boards == old(boards)
      ensures showModal == old(showModal) && newBoardName == old(newBoardName) && newBoardImage == old(newBoardImage)
    {
      ToggleNoDup(selectedTags, tag);
      selectedTags := Toggle(selectedTags, tag);
    }

    /** `handleSave`: opens the dialog. */
    method HandleSave(itineraryId: int)
      requires Valid()
      modifies this
      ensures Valid()
      ensures showModal
      ensures selectedTags == old(selectedTags) && itineraries == old(itineraries) && boards == old(boards)
      ensures newBoardName == old(newBoardName) && newBoardImage == old(newBoardImage)
    {
      showModal := true;
    }

    /** `handleCloseModal`: closes the dialog and clears the new-board inputs. */
    method HandleCloseModal()
      requires Valid()
      modifies this
      ensures Valid()
      ensures !showModal && newBoardName == "" && newBoardImage == None
      ensures selectedTags == old(selectedTags) && itineraries == old(itineraries) && boards == old(boards)
    {
      showModal := false;
      newBoardName := "";
      newBoardImage := None;
    }

    /** `handleSelectBoard`: the request that would save to the board is not made; the
        dialog is closed. */
    method HandleSelectBoard(boardId: int)
      requires Valid()
      modifies this
      ensures Valid()
      ensures !showModal && newBoardName == "" && newBoardImage == None
      ensures selectedTags == old(selectedTags) && itineraries == old(itineraries) && boards == old(boards)
    {
      HandleCloseModal();
    }

    /** The new-board name input's `onChange`. */
    method SetNewBoardName(name: string)
      requires Valid()
      modifies this
      ensures Valid()
      ensures newBoardName == name
      ensures selectedTags == old(selectedTags) && itineraries == old(itineraries) && boards == old(boards)
      ensures showModal == old(showModal) && newBoardImage == old(newBoardImage)
    {
      newBoardName := name;
    }

    /** `handleCreateNewBoard`: with a name that is not blank, appends a board numbered
        one past the current count, keeping the name as typed, and clears the inputs;
        with a blank name nothing changes. */
    method HandleCreateNewBoard()
      requires Valid()
      modifies this
      ensures Valid()
      ensures Trim(old(newBoardName)) == "" ==>
        boards == old(boards) && newBoardName == old(newBoardName) && newBoardImage == old(newBoardImage)
      ensures Trim(old(newBoardName)) != "" ==>
        boards == old(boards) + [Board(|old(boards)| + 1, old(newBoardName), old(newBoardImage))]
        && newBoardName == "" && newBoardImage == None
      ensures selectedTags == old(selectedTags) && itineraries == old(itineraries) && showModal == old(showModal)
    {
      if Trim(newBoardName) != "" {
        var newBoard := Board(|boards| + 1, newBoardName, newBoardImage);
        boards := boards + [newBoard];
        newBoardName := "";
        newBoardImage := None;
      }
    }
  }
}
