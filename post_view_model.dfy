/**
 * The feed's view state and the view model that drives it.
 *
 * The view model holds one mutable state cell (`_uiState.value`). Loading is a
 * coroutine that writes Loading at once and, after a delay, writes Success with
 * the mock posts. The coroutine is split here into its two writes, `LoadPosts`
 * (the launch and the first write, which the main dispatcher runs immediately)
 * and `CompleteLoad` (the write after the delay). A ghost counter `pending`
 * records how many launched loads have not written their result yet, and a
 * ghost `history` records every value written to the cell.
 */
module ViewModel {
  import opened PostModel
  import opened Decimal

  /** `PostUiState`: exactly one of three variants at any time. */
  datatype PostUiState = Loading | Success(posts: seq<Post>) | Error(message: string)

  /** The pull-to-refresh spinner shows exactly while the state is Loading. */
  predicate IsRefreshing(s: PostUiState) {
    s.Loading?
  }

  /**
   * `getMockPosts()`: eight fixed posts with ids "1" to "8" in this order. The
   * ids are pairwise distinct, so they are usable as list keys, and every like
   * and comment count is non-negative.
   */
  function MockPosts(): (r: seq<Post>)
    ensures |r| == 8
    ensures forall i :: 0 <= i < |r| ==> r[i].id == [DigitChar(i + 1)]
    ensures forall i, j :: 0 <= i < |r| && 0 <= j < |r| && i != j ==> r[i].id != r[j].id
    ensures forall i :: 0 <= i < |r| ==> r[i].likes >= 0 && r[i].comments >= 0
  {
    [
        Post("1", "https://images.unsplash.com/photo-1506905925346-21bda4d32df4", "nature_lover", "2 hours ago", "Beautiful mountain sunrise üèîÔ∏è‚ú®", 1247, 43, "https://i.pravatar.cc/150?img=1"),
        Post("2", "https://images.unsplash.com/photo-1511300636408-a63a89df3482", "travel_wanderer", "5 hours ago", "Exploring ancient temples in Asia üõï", 892, 27, "https://i.pravatar.cc/150?img=2"),
        Post("3", "https://images.unsplash.com/photo-1501594907352-04cda38ebc29", "ocean_vibes", "8 hours ago", "Sunset by the beach never gets old üåÖüåä", 2156, 89, "https://i.pravatar.cc/150?img=3"),
        Post("4", "https://images.unsplash.com/photo-1493246507139-91e8fad9978e", "foodie_adventures", "12 hours ago", "The perfect breakfast spread ü•ê‚òï", 3421, 156, "https://i.pravatar.cc/150?img=4"),
        Post("5", "https://images.unsplash.com/photo-1469474968028-56623f02e42e", "wild_explorer", "1 day ago", "Lost in the wilderness üå≤üèïÔ∏è", 1876, 64, "https://i.pravatar.cc/150?img=5"),
        Post("6", "https://images.unsplash.com/photo-1480714378408-67cf0d13bc1b", "city_lights", "1 day ago", "Urban photography at its finest üèôÔ∏èüì∏", 945, 32, "https://i.pravatar.cc/150?img=6"),
        Post("7", "https://images.unsplash.com/photo-1518791841217-8f162f1e1131", "pet_lover", "2 days ago", "My furry best friend üê±‚ù§Ô∏è", 4532, 234, "https://i.pravatar.cc/150?img=7"),
        Post("8", "https://images.unsplash.com/photo-1464822759023-fed622ff2c3b", "peak_seekers", "3 days ago", "Above the clouds ‚õ∞Ô∏è‚òÅÔ∏è", 2987, 112, "https://i.pravatar.cc/150?img=8")
    ]
  }

  class PostViewModel {
    var state: PostUiState
    ghost var pending: nat
    ghost var history: seq<PostUiState>

    /**
     * The cell only ever holds Loading or the mock list: the active code never
     * writes Error. Once a load has been launched and every launched load has
     * finished, the cell holds the mock list.
     */
    ghost predicate Valid()
      reads this
    {
      |history| > 0 && state == history[|history| - 1] &&
      (forall i :: 0 <= i < |history| ==> history[i] == Loading || history[i] == Success(MockPosts())) &&
      (pending == 0 && history != [Loading] ==> state == Success(MockPosts()))
    }

    /** The cell starts at Loading and the initialiser launches a load. */
    constructor ()
      ensures Valid()
      ensures state == Loading && IsRefreshing(state)
      ensures pending == 1
      ensures history == [Loading, Loading]
    {
      state := Loading;
      pending := 0;
      history := [Loading];
      new;
      LoadPosts();
    }

    /** `loadPosts()` up to its delay: the state is Loading before any result is produced. */
    method LoadPosts()
      requires Valid()
      modifies this
      ensures Valid()
      ensures state == Loading
      ensures pending == old(pending) + 1
      ensures history == old(history) + [Loading]
    {
      state := Loading;
      history := history + [state];
      pending := pending + 1;
    }

    /** The rest of a launched load: its result, always Success with the mock list in source order. */
    method CompleteLoad()
      requires Valid() && pending > 0
      modifies this
      ensures Valid()
      ensures state == Success(MockPosts())
      ensures pending == old(pending) - 1
      ensures history == old(history) + [Success(MockPosts())]
    {
      var mockPosts := MockPosts();
      state := Success(mockPosts);
      history := history + [state];
      pending := pending - 1;
    }

    /** `refresh()` is `loadPosts()`: the same new state, the same pending load. */
    method Refresh()
      requires Valid()
      modifies this
      ensures Valid()
      ensures state == Loading
      ensures pending == old(pending) + 1
      ensures history == old(history) + [Loading]
    {
      LoadPosts();
    }
  }

  /**
   * A run of the screen: construction, the first result, a pull-to-refresh and
   * overlapping loads. Every load passes through Loading and every result is
   * the same Success value.
   */
  method RefreshScenario()
  {
    var vm := new PostViewModel();
    assert vm.history == [Loading, Loading];
    assert IsRefreshing(vm.state);
    vm.CompleteLoad();
    var first := vm.state;
    vm.Refresh();
    assert vm.state == Loading;
    vm.CompleteLoad();
    assert vm.state == first == Success(MockPosts());
    vm.LoadPosts();
    vm.Refresh();
    vm.CompleteLoad();
    assert vm.pending == 1 && vm.state == first;
    vm.CompleteLoad();
    assert vm.state == first;
  }
}
