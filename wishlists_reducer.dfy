/**
 * The wish-list slice of the application state (src/app/wishlists/reducer.ts):
 * the reducer, its two selectors, the decision the IndexedDB loader takes on
 * the stored record, and the shape of the record the saver writes.
 */
module WishListsReducer {
  import opened Wrappers

  /** A JavaScript `Date`, as milliseconds since the epoch (negative before 1970). */
  type Timestamp = int

  /** One wished-for roll of an item. Only `itemHash` is read by this slice. */
  datatype WishListRoll = WishListRoll(itemHash: int, recommendedPerks: set<nat>)

  /**
   * A wish list and its description. Entries of `wishListRolls` may be
   * missing (`None`): the by-hash selector filters falsy entries out.
   */
  datatype WishListAndInfo = WishListAndInfo(
    title: Option<string>,
    description: Option<string>,
    wishListRolls: seq<Option<WishListRoll>>)

  datatype WishListsState = WishListsState(
    loaded: bool,
    wishListAndInfo: WishListAndInfo,
    lastFetched: Option<Timestamp>)

  /** The actions the reducer sees: its own two, and any other action of the store. */
  datatype WishListAction =
    | LoadWishLists(wishList: WishListAndInfo, lastFetched: Option<Timestamp>)
    | ClearWishLists
    | OtherAction(actionType: string)

  const EmptyWishList := WishListAndInfo(None, None, [])

  const InitialState := WishListsState(false, EmptyWishList, None)

  // ---------------------------------------------------------------------------
  // The reducer
  // ---------------------------------------------------------------------------

  /**
   * The reducer. `state` is `None` when the store is being initialised (the
   * reducer then starts from `InitialState`); `now` is the time `new Date()`
   * would read. No action ever resets `loaded`.
   */
  function WishLists(state: Option<WishListsState>, action: WishListAction, now: Timestamp): (next: WishListsState)
    ensures next.loaded <==> state.GetOr(InitialState).loaded || action.LoadWishLists?
    ensures next.lastFetched.None? <==> action.ClearWishLists? || (action.OtherAction? && state.GetOr(InitialState).lastFetched.None?)
  {
    var s := state.GetOr(InitialState);
    match action
    case LoadWishLists(wishList, lastFetched) =>
      s.(wishListAndInfo := wishList, loaded := true, lastFetched := Some(lastFetched.GetOr(now)))
    case ClearWishLists =>
      s.(wishListAndInfo := EmptyWishList, lastFetched := None)
    case OtherAction(_) =>
      s
  }

  // ---------------------------------------------------------------------------
  // Selectors
  // ---------------------------------------------------------------------------

  /**
   * `wishListsEnabledSelector`: enabled when the list holds at least one
   * entry, falsy ones included. Any present roll, and so any group of the
   * by-hash selector, makes it enabled; a disabled slice has no groups.
   */
  predicate WishListsEnabled(state: WishListsState): (enabled: bool)
    ensures NonNullRolls(state.wishListAndInfo.wishListRolls) != [] ==> enabled
    ensures !enabled ==> WishListsByHash(state) == map[]
  {
    |state.wishListAndInfo.wishListRolls| > 0
  }

  /** `rolls.filter(Boolean)`: the present rolls, every copy, in their order. */
  function NonNullRolls(rolls: seq<Option<WishListRoll>>): (kept: seq<WishListRoll>)
    ensures |kept| == |rolls| - multiset(rolls)[None]
    ensures forall r :: r in kept <==> Some(r) in rolls
  {
    if rolls == [] then []
    else
      var init := NonNullRolls(rolls[..|rolls| - 1]);
      assert rolls == rolls[..|rolls| - 1] + [rolls[|rolls| - 1]];
      match rolls[|rolls| - 1]
      case None => init
      case Some(r) => init + [r]
  }

  /** Filtering works piece by piece, so the present rolls keep their order. */
  lemma {:induction false} NonNullRollsKeepsOrder(front: seq<Option<WishListRoll>>, back: seq<Option<WishListRoll>>)
    ensures NonNullRolls(front + back) == NonNullRolls(front) + NonNullRolls(back)
    decreases |back|
  {
    if back == [] {
      assert front + back == front;
    } else {
      var init := back[..|back| - 1];
      var whole := front + back;
      assert whole[..|whole| - 1] == front + init && whole[|whole| - 1] == back[|back| - 1];
      NonNullRollsKeepsOrder(front, init);
      match back[|back| - 1]
      case None =>
      case Some(r) =>
        assert NonNullRolls(whole) == NonNullRolls(front + init) + [r];
        assert NonNullRolls(back) == NonNullRolls(init) + [r];
    }
  }

  /** Reference definition of one group: the rolls whose `itemHash` is `k`, in their order. */
  function RollsWithHash(rolls: seq<WishListRoll>, k: int): (group: seq<WishListRoll>)
    ensures |group| <= |rolls|
    ensures forall r :: r in group <==> r in rolls && r.itemHash == k
  {
    if rolls == [] then []
    else
      var init := RollsWithHash(rolls[..|rolls| - 1], k);
      var last := rolls[|rolls| - 1];
      assert rolls == rolls[..|rolls| - 1] + [last];
      if last.itemHash == k then init + [last] else init
  }

  /**
   * `_.groupBy(rolls, r => r.itemHash)`: walks the rolls in order and appends
   * each to the group of its hash. A key is present exactly when some roll
   * has that hash, and its group is the reference group of that hash.
   */
  function GroupByHash(rolls: seq<WishListRoll>): (groups: map<int, seq<WishListRoll>>)
    ensures forall k :: k in groups <==> exists r :: r in rolls && r.itemHash == k
    ensures forall k :: k in groups ==> groups[k] == RollsWithHash(rolls, k)
    ensures forall k :: k !in groups ==> RollsWithHash(rolls, k) == []
  {
    if rolls == [] then map[]
    else
      var init := rolls[..|rolls| - 1];
      var groups := GroupByHash(init);
      var last := rolls[|rolls| - 1];
      assert rolls == init + [last];
      var h := last.itemHash;
      groups[h := (if h in groups then groups[h] else []) + [last]]
  }

  /** `wishListsByHashSelector`: the present rolls of the slice grouped by item hash. */
  function WishListsByHash(state: WishListsState): (groups: map<int, seq<WishListRoll>>)
    ensures forall k :: k in groups ==> groups[k] != []
    ensures forall k, r :: k in groups && r in groups[k] ==> r.itemHash == k && Some(r) in state.wishListAndInfo.wishListRolls
  {
    GroupByHash(NonNullRolls(state.wishListAndInfo.wishListRolls))
  }

  // ---------------------------------------------------------------------------
  // Group sizes
  // ---------------------------------------------------------------------------

  ghost function PickKey(groups: map<int, seq<WishListRoll>>): (k: int)
    requires groups != map[]
    ensures k in groups
  {
    assert (forall k :: k !in groups) ==> groups == map[];
    var k :| k in groups; k
  }

  /** The sum of the sizes of all groups. */
  ghost function TotalSize(groups: map<int, seq<WishListRoll>>): nat
    decreases |groups|
  {
    if groups == map[] then 0
    else
      var k := PickKey(groups);
      |groups[k]| + TotalSize(groups - {k})
  }

  /** The sum does not depend on which key is taken first. */
  lemma {:induction false} TotalSizeRemove(groups: map<int, seq<WishListRoll>>, k: int)
    requires k in groups
    ensures TotalSize(groups) == |groups[k]| + TotalSize(groups - {k})
    decreases |groups|
  {
    var j := PickKey(groups);
    if j != k {
      var rest := groups - {j};
      TotalSizeRemove(rest, k);
      TotalSizeRemove(groups - {k}, j);
      assert rest - {k} == (groups - {k}) - {j};
    }
  }

  /** Appending one roll to the group of key `h` adds one to the total. */
  lemma TotalSizeAppend(groups: map<int, seq<WishListRoll>>, h: int, roll: WishListRoll)
    ensures TotalSize(groups[h := (if h in groups then groups[h] else []) + [roll]]) == TotalSize(groups) + 1
  {
    var next := groups[h := (if h in groups then groups[h] else []) + [roll]];
    TotalSizeRemove(next, h);
    if h in groups {
      TotalSizeRemove(groups, h);
      assert next - {h} == groups - {h};
    } else {
      assert next - {h} == groups;
    }
  }

  /** Grouping loses and duplicates nothing: the group sizes add up to the number of rolls. */
  lemma {:induction false} GroupSizesSum(rolls: seq<WishListRoll>)
    ensures TotalSize(GroupByHash(rolls)) == |rolls|
  {
    if rolls != [] {
      var init := rolls[..|rolls| - 1];
      GroupSizesSum(init);
      TotalSizeAppend(GroupByHash(init), rolls[|rolls| - 1].itemHash, rolls[|rolls| - 1]);
    }
  }

  /** The selector's group sizes add up to the number of entries of the slice that are not missing. */
  lemma WishListsByHashSizes(state: WishListsState)
    ensures TotalSize(WishListsByHash(state)) == |state.wishListAndInfo.wishListRolls| - multiset(state.wishListAndInfo.wishListRolls)[None]
  {
    GroupSizesSum(NonNullRolls(state.wishListAndInfo.wishListRolls));
  }

  /** A non-empty grouping implies the slice is enabled (the converse fails when every entry is missing). */
  lemma GroupsImplyEnabled(state: WishListsState)
    requires WishListsByHash(state) != map[]
    ensures WishListsEnabled(state)
  {
  }

  // ---------------------------------------------------------------------------
  // What each action does
  // ---------------------------------------------------------------------------

  /** The initial state: not loaded, no rolls, no title or description, never fetched. */
  lemma InitialStateIsEmpty()
    ensures !InitialState.loaded && InitialState.lastFetched.None?
    ensures InitialState.wishListAndInfo.title.None? && InitialState.wishListAndInfo.description.None?
    ensures InitialState.wishListAndInfo.wishListRolls == []
    ensures !WishListsEnabled(InitialState) && WishListsByHash(InitialState) == map[]
  {
  }

  /** Loading installs the payload's list exactly, marks the slice loaded, and stamps it. */
  lemma LoadInstallsPayload(state: Option<WishListsState>, wishList: WishListAndInfo, lastFetched: Option<Timestamp>, now: Timestamp)
    ensures var next := WishLists(state, LoadWishLists(wishList, lastFetched), now);
      && next.loaded
      && next.wishListAndInfo == wishList
      && next.lastFetched == (if lastFetched.Some? then lastFetched else Some(now))
      && (WishListsEnabled(next) <==> |wishList.wishListRolls| > 0)
  {
  }

  /** Clearing empties the list and forgets the fetch time, keeps `loaded`, and disables wish lists. */
  lemma ClearEmptiesList(state: Option<WishListsState>, now: Timestamp)
    ensures var next := WishLists(state, ClearWishLists, now);
      && next.wishListAndInfo == WishListAndInfo(None, None, [])
      && next.lastFetched.None?
      && next.loaded == state.GetOr(InitialState).loaded
      && !WishListsEnabled(next)
      && WishListsByHash(next) == map[]
  {
  }

  /** Any other action leaves the state as it was; applying it again changes nothing more. */
  lemma OtherActionIsIdentity(state: WishListsState, actionType: string, now: Timestamp, later: Timestamp)
    ensures WishLists(Some(state), OtherAction(actionType), now) == state
    ensures WishLists(Some(WishLists(Some(state), OtherAction(actionType), now)), OtherAction(actionType), later)
         == WishLists(Some(state), OtherAction(actionType), now)
  {
  }

  /** Clearing twice is clearing once. */
  lemma ClearIsIdempotent(state: WishListsState, now: Timestamp, later: Timestamp)
    ensures WishLists(Some(WishLists(Some(state), ClearWishLists, now)), ClearWishLists, later)
         == WishLists(Some(state), ClearWishLists, now)
  {
  }

  // ---------------------------------------------------------------------------
  // Persistence: the stored record and the loader's decision
  // ---------------------------------------------------------------------------

  /** The stored `wishListRolls` field: an array, or anything else (missing, old format). */
  datatype StoredRolls = RollsArray(rolls: seq<Option<WishListRoll>>) | NotAnArray

  datatype StoredInfo = StoredInfo(title: Option<string>, description: Option<string>, wishListRolls: StoredRolls)

  /** The record under the key `wishlist`; `wishListAndInfo` is absent in records of the old format. */
  datatype StoredWishList = StoredWishList(wishListAndInfo: Option<StoredInfo>, lastFetched: Option<Timestamp>)

  /**
   * What the loader does after reading the store: `Skip` returns early;
   * `Proceed` dispatches `load` when present and then asks for a refresh
   * from the wish list's source.
   */
  datatype RestoreStep = Skip | Proceed(load: Option<WishListAction>)

  /** `wishListState?.wishListAndInfo?.wishListRolls` when it is an array. */
  function StoredRollArray(stored: Option<StoredWishList>): Option<seq<Option<WishListRoll>>> {
    if stored.Some? && stored.value.wishListAndInfo.Some? && stored.value.wishListAndInfo.value.wishListRolls.RollsArray?
    then Some(stored.value.wishListAndInfo.value.wishListRolls.rolls)
    else None
  }

  /**
   * The decision inside `loadWishListAndInfoFromIndexedDB`: `loadedBeforeRead`
   * and `loadedAfterRead` are the slice's `loaded` flag before and after the
   * asynchronous read of `stored`.
   */
  function RestoreStepFor(loadedBeforeRead: bool, stored: Option<StoredWishList>, loadedAfterRead: bool): (step: RestoreStep)
    ensures step.Skip? <==> loadedBeforeRead || loadedAfterRead
    ensures step.Proceed? ==> (step.load.Some? <==> StoredRollArray(stored).Some?)
    ensures step.Proceed? && step.load.Some? ==>
      && step.load.value.LoadWishLists?
      && step.load.value.wishList == WishListAndInfo(None, None, StoredRollArray(stored).value)
      && step.load.value.lastFetched == stored.value.lastFetched
  {
    if loadedBeforeRead || loadedAfterRead then Skip
    else
      match StoredRollArray(stored)
      case Some(rolls) => Proceed(Some(LoadWishLists(WishListAndInfo(None, None, rolls), stored.value.lastFetched)))
      case None => Proceed(None)
  }

  /** The record `saveWishListToIndexedDB` writes for a state, if it writes one. */
  function SavedRecord(state: WishListsState): (record: Option<StoredWishList>)
    ensures record.Some? <==> state.loaded
  {
    if state.loaded then
      Some(StoredWishList(
        Some(StoredInfo(state.wishListAndInfo.title, state.wishListAndInfo.description,
                        RollsArray(state.wishListAndInfo.wishListRolls))),
        state.lastFetched))
    else None
  }

  /**
   * Saving a loaded slice and loading it into a fresh one restores its rolls
   * and fetch time but drops the title and description.
   */
  lemma SaveThenRestore(saved: WishListsState, current: WishListsState, now: Timestamp)
    requires saved.loaded && !current.loaded
    ensures var step := RestoreStepFor(false, SavedRecord(saved), false);
      && step.Proceed? && step.load.Some?
      && var next := WishLists(Some(current), step.load.value, now);
      && next.loaded
      && next.wishListAndInfo == WishListAndInfo(None, None, saved.wishListAndInfo.wishListRolls)
      && next.lastFetched == Some(saved.lastFetched.GetOr(now))
      && WishListsByHash(next) == WishListsByHash(saved)
  {
  }
}
