/**
 * The tribute wall of app/page.tsx: the mount-time session check, the
 * effect that saves the list, `handleAddTribute`, the tab switch, the
 * success toast, and which parts of the page are rendered.
 */
module TributeWall {
  import opened Wrappers
  import opened Text
  import opened Browser
  import opened TributeStore
  import opened Login

  /** `deceasedInfo.fullName`: every load and save of the wall uses it. */
  const DeceasedFullName := "Lerato Nomvula Mnguni"

  datatype Tab = TributesTab | AboutTab | FavoritesTab

  /** The `tabs` array, in display order. */
  const AllTabs: seq<Tab> := [TributesTab, AboutTab, FavoritesTab]

  /** `CurrentUser`: the stored record plus `isSignedIn`. */
  datatype CurrentUser = CurrentUser(fullName: string, relationship: string, isSignedIn: bool)

  /** The three things the page can render: the loader, the
      "Redirecting to login..." note, or the wall itself. */
  datatype Screen = LoadingScreen | RedirectingScreen | WallScreen

  /** What the mount effect makes of the stored session record. */
  datatype SessionCheck = NoSession | BadSession | SignedIn(user: MockUserData)

  /**
   * The mount effect's reading of `localStorage.getItem(MOCK_USER_STORAGE_KEY)`:
   * nothing (absent or "") is no session; a record with truthy `fullName`
   * and `relationship` signs the visitor in; anything else (text that does
   * not parse, `null` whose field access throws, an array or an object
   * lacking a field) is a bad session.
   */
  function CheckSession(v: Option<StoredValue>): (r: SessionCheck)
    ensures r.NoSession? <==> v.None? || v == Some(Blank)
    ensures r.SignedIn? <==> v.Some? && v.value.JsonObject? && v.value.fullName != [] && v.value.relationship != []
    ensures r.SignedIn? ==> r.user.fullName != [] && r.user.relationship != []
    ensures r.SignedIn? ==> Serialized(r.user) == v.value
  {
    match v
    case None => NoSession
    case Some(Blank) => NoSession
    case Some(JsonObject(fullName, relationship)) =>
      if fullName != [] && relationship != [] then SignedIn(MockUserData(fullName, relationship))
      else BadSession
    case Some(_) => BadSession
  }

  /** The record a successful login stores is one the wall accepts, with the
      same trimmed name and relationship. */
  lemma LoginRecordSignsIn(fullName: string, password: string, relationship: string)
    requires ValidationError(fullName, password, relationship).None?
    ensures CheckSession(Some(Serialized(MockUserData(Trim(fullName), Trim(relationship)))))
         == SignedIn(MockUserData(Trim(fullName), Trim(relationship)))
  {
    TrimEmptyIff(fullName);
    TrimEmptyIff(relationship);
  }

  /** Whether the persist effect writes: `isInitialLoadComplete && currentUser?.isSignedIn`. */
  predicate SaveEnabled(isInitialLoadComplete: bool, user: Option<CurrentUser>) {
    isInitialLoadComplete && user.Some? && user.value.isSignedIn
  }

  /**
   * The store after the persist effect has run once. It writes only the
   * deceased's slot, whoever is signed in, and only once the initial load
   * is complete and a user is signed in; a successful write is read back as
   * the list in newest-first order.
   */
  function PersistedItems(items: map<string, StoredValue>, deceasedFullName: string, isInitialLoadComplete: bool,
                          user: Option<CurrentUser>, tributes: seq<Tribute>, accepted: bool)
    : (r: map<string, StoredValue>)
    ensures !SaveEnabled(isInitialLoadComplete, user) || !accepted ==> r == items
    ensures r.Keys <= items.Keys + {StorageKey(deceasedFullName)}
    ensures forall k :: k != StorageKey(deceasedFullName) && k in items ==> k in r && r[k] == items[k]
    ensures SaveEnabled(isInitialLoadComplete, user) && accepted ==>
              LoadTributes(r, deceasedFullName) == SortNewestFirst(tributes)
  {
    if SaveEnabled(isInitialLoadComplete, user) then
      SaveThenLoad(items, deceasedFullName, tributes);
      ItemsAfterSave(items, deceasedFullName, tributes, accepted)
    else
      items
  }

  /** The save that follows a successful mount writes back exactly the list
      that was just loaded, so reloading the page shows the same wall. */
  lemma PersistAfterMountKeepsWall(items: map<string, StoredValue>, name: string, user: CurrentUser)
    requires user.isSignedIn
    ensures var loaded := LoadTributes(items, name);
      LoadTributes(PersistedItems(items, name, true, Some(user), loaded, true), name) == loaded
  {
    SortOfSorted(LoadTributes(items, name));
  }

  /** A tribute no older than the rest, prepended to a newest-first list and
      saved, is read back first, with the rest behind it unchanged. */
  lemma PersistAfterAddKeepsOrder(items: map<string, StoredValue>, name: string, user: CurrentUser,
                                  t: Tribute, rest: seq<Tribute>)
    requires user.isSignedIn && NewestFirst(rest)
    requires forall i :: 0 <= i < |rest| ==> rest[i].timestamp <= t.timestamp
    ensures LoadTributes(PersistedItems(items, name, true, Some(user), [t] + rest, true), name) == [t] + rest
  {
    var s := [t] + rest;
    assert s[1..] == rest;
    SortOfSorted(rest);
    assert SortNewestFirst(s) == InsertNewestFirst(t, rest);
  }

  class TributePage {
    var activeTab: Tab
    var tributes: seq<Tribute>
    var isInitialLoadComplete: bool
    var currentUser: Option<CurrentUser>
    var isLoadingPage: bool
    var showPostSuccessToast: bool
    /** Toast timers started and not yet fired; each one hides the toast. */
    var toastTimers: nat
    var navigation: Option<Navigation>
    /** Whether the "please sign in again" alert has been shown. */
    var alertShown: bool
    const storage: LocalStorage
    /** `deceasedInfo.fullName`, fixed to `DeceasedFullName` at construction;
        the proofs below hold for whatever name the page is built with. */
    const deceasedFullName: string

    /**
     * The states the page reaches. A user is present exactly once the
     * initial load is complete, which is exactly when the loader is gone;
     * that user is signed in with both fields; until then the list is the
     * initial empty one; the toast is up only while a timer is pending.
     */
    ghost predicate Valid()
      reads this
    {
      && (currentUser.Some? <==> isInitialLoadComplete)
      && (isInitialLoadComplete <==> !isLoadingPage)
      && (currentUser.Some? ==>
            currentUser.value.isSignedIn && currentUser.value.fullName != [] && currentUser.value.relationship != [])
      && (!isInitialLoadComplete ==> tributes == [])
      && (showPostSuccessToast ==> toastTimers > 0)
    }

    /** The initial `useState` values. */
    constructor (storage: LocalStorage)
      ensures Valid() && this.storage == storage && deceasedFullName == DeceasedFullName
      ensures activeTab == TributesTab && tributes == [] && !isInitialLoadComplete && currentUser == None
      ensures isLoadingPage && !showPostSuccessToast && toastTimers == 0
      ensures navigation == None && !alertShown
    {
      this.storage := storage;
      deceasedFullName := DeceasedFullName;
      activeTab, tributes := TributesTab, [];
      isInitialLoadComplete, currentUser, isLoadingPage := false, None, true;
      showPostSuccessToast, toastTimers := false, 0;
      navigation, alertShown := None, false;
    }

    /**
     * The mount effect. A signed-in visitor gets `isSignedIn` set, the
     * deceased's tributes loaded, and only then the load marked complete
     * and the loader dropped. Otherwise the page redirects to the login
     * route, loads nothing and keeps the loader up; a bad record is also
     * removed.
     */
    method Mount()
      requires Valid() && isLoadingPage
      modifies this`currentUser, this`tributes, this`isInitialLoadComplete, this`isLoadingPage,
               this`navigation, storage
      ensures Valid()
      ensures var session := CheckSession(old(storage.GetItem(MockUserStorageKey)));
        session.SignedIn? ==>
          && currentUser == Some(CurrentUser(session.user.fullName, session.user.relationship, true))
          && tributes == LoadTributes(old(storage.items), deceasedFullName)
          && isInitialLoadComplete && !isLoadingPage
          && navigation == old(navigation) && storage.items == old(storage.items)
      ensures CheckSession(old(storage.GetItem(MockUserStorageKey))).NoSession? ==>
          && currentUser == None && tributes == [] && !isInitialLoadComplete && isLoadingPage
          && navigation == Some(Replace(LoginRoute)) && storage.items == old(storage.items)
      ensures CheckSession(old(storage.GetItem(MockUserStorageKey))).BadSession? ==>
          && currentUser == None && tributes == [] && !isInitialLoadComplete && isLoadingPage
          && navigation == Some(Replace(LoginRoute))
          && storage.items == old(storage.items) - {MockUserStorageKey}
    {
      var storedUserData := storage.GetItem(MockUserStorageKey);
      ghost var session := CheckSession(storedUserData);
      if storedUserData.Some? && storedUserData.value != Blank {
        var parsed := storedUserData.value;
        if parsed.JsonObject? && parsed.fullName != [] && parsed.relationship != [] {
          assert session == SignedIn(MockUserData(parsed.fullName, parsed.relationship));
          currentUser := Some(CurrentUser(parsed.fullName, parsed.relationship, true));
          var loadedTributes := LoadTributes(storage.items, deceasedFullName);
          tributes := loadedTributes;
        } else {
          assert session == BadSession;
          storage.RemoveItem(MockUserStorageKey);
          navigation := Some(Replace(LoginRoute));
          return;
        }
      } else {
        assert session == NoSession;
        navigation := Some(Replace(LoginRoute));
        return;
      }
      isInitialLoadComplete := true;
      isLoadingPage := false;
    }

    /** The persist effect, run after a change to the list, the load flag or
        the user; `accepted` is false when `setItem` throws. */
    method PersistEffect(accepted: bool)
      requires Valid()
      modifies storage
      ensures storage.items == PersistedItems(old(storage.items), deceasedFullName, isInitialLoadComplete,
                                              currentUser, tributes, accepted)
    {
      if isInitialLoadComplete && currentUser.Some? && currentUser.value.isSignedIn {
        SaveTributes(storage, deceasedFullName, tributes, accepted);
      }
    }

    method HandleTabClick(tab: Tab)
      modifies this`activeTab
      ensures activeTab == tab
    {
      activeTab := tab;
    }

    /**
     * `handleAddTribute`. Without a signed-in user holding both fields it
     * alerts, sends the visitor to the login route and leaves the list
     * alone. Otherwise the new record goes in front of the list, the rest
     * of which is unchanged, and the success toast shows with its timer
     * started. `freshId` is `uuidv4()` and `now` is `Date.now()`.
     */
    method HandleAddTribute(data: NewTributeInput, freshId: string, now: int)
      requires Valid()
      modifies this`tributes, this`showPostSuccessToast, this`toastTimers, this`navigation, this`alertShown
      ensures Valid()
      ensures var ok := old(currentUser).Some? && old(currentUser).value.isSignedIn
                        && old(currentUser).value.fullName != [] && old(currentUser).value.relationship != [];
        if ok then
          && |tributes| == |old(tributes)| + 1 && tributes[1..] == old(tributes)
          && tributes[0] == Tribute(freshId, currentUser.value.fullName, data.message, now,
                                    currentUser.value.relationship, data.attachmentType, data.attachmentValue)
          && showPostSuccessToast && toastTimers == old(toastTimers) + 1
          && navigation == old(navigation) && alertShown == old(alertShown)
        else
          && tributes == old(tributes) && navigation == Some(Push(LoginRoute)) && alertShown
          && showPostSuccessToast == old(showPostSuccessToast) && toastTimers == old(toastTimers)
    {
      if currentUser.None? || !currentUser.value.isSignedIn
         || currentUser.value.fullName == [] || currentUser.value.relationship == [] {
        alertShown := true;
        navigation := Some(Push(LoginRoute));
        return;
      }
      var newTribute := Tribute(freshId, currentUser.value.fullName, data.message, now,
                                currentUser.value.relationship, data.attachmentType, data.attachmentValue);
      tributes := [newTribute] + tributes;
      showPostSuccessToast := true;
      toastTimers := toastTimers + 1;
    }

    /** One of the toast's 3000 ms timers fires and hides it, even when a
        later post started another timer. */
    method ToastTimerElapsed()
      requires Valid() && toastTimers > 0
      modifies this`showPostSuccessToast, this`toastTimers
      ensures Valid()
      ensures !showPostSuccessToast && toastTimers == old(toastTimers) - 1
    {
      showPostSuccessToast := false;
      toastTimers := toastTimers - 1;
    }

    /** Which of the three screens renders. On a page in a reachable state
        the redirect note never shows: the loader stays up until a user is
        signed in. */
    function CurrentScreen(): (s: Screen)
      reads this
      ensures Valid() ==> s != RedirectingScreen
      ensures Valid() ==> (s == WallScreen <==> isInitialLoadComplete)
    {
      if isLoadingPage then LoadingScreen
      else if !(currentUser.Some? && currentUser.value.isSignedIn) then RedirectingScreen
      else WallScreen
    }

    /** "Be the first to share a memory." is in the markup. */
    predicate EmptyFeedHintInMarkup()
      reads this
    {
      isInitialLoadComplete && activeTab == TributesTab && |tributes| == 0
    }

    /** The hint is seen exactly when the wall is up, the Tributes tab is
        active and there are no tributes. */
    function EmptyFeedHintShown(): (shown: bool)
      reads this
      ensures Valid() ==> (shown <==> isInitialLoadComplete && activeTab == TributesTab && tributes == [])
      ensures shown ==> tributes == []
    {
      CurrentScreen() == WallScreen && EmptyFeedHintInMarkup()
    }

    /** The panels whose content renders: none while the loader or the
        redirect note replaces the page, otherwise only the active tab's. */
    function RenderedPanels(): (r: set<Tab>)
      reads this
      ensures r <= {activeTab}
      ensures Valid() ==> r == if isInitialLoadComplete then {activeTab} else {}
    {
      if CurrentScreen() != WallScreen then {}
      else
        var r := set t | t in AllTabs && t == activeTab;
        assert activeTab in r by {
          assert activeTab == AllTabs[0] || activeTab == AllTabs[1] || activeTab == AllTabs[2];
        }
        r
    }

    /** The tributes the feed receives, when the Tributes panel renders; on
        a reachable page, exactly when the wall is up on the Tributes tab. */
    function FeedContents(): (r: Option<seq<Tribute>>)
      reads this
      ensures Valid() ==> (r.Some? <==> isInitialLoadComplete && activeTab == TributesTab)
      ensures r.Some? ==> r.value == tributes && CurrentScreen() == WallScreen
    {
      if TributesTab in RenderedPanels() then Some(tributes) else None
    }

    /** The tribute input renders on the Tributes tab for a signed-in user,
        below the wall; on a reachable page, exactly when the wall is up on
        that tab. */
    function TributeInputShown(): (shown: bool)
      reads this
      ensures shown ==> CurrentScreen() == WallScreen && activeTab == TributesTab
      ensures Valid() ==> (shown <==> isInitialLoadComplete && activeTab == TributesTab)
    {
      CurrentScreen() == WallScreen && activeTab == TributesTab && currentUser.Some? && currentUser.value.isSignedIn
    }
  }

  /** On a reachable page the empty-feed hint shows exactly when the feed
      renders and has nothing to show, and the tribute input shows exactly
      when the feed renders. */
  lemma FeedAgreesWithHintAndInput(page: TributePage)
    requires page.Valid()
    ensures page.EmptyFeedHintShown() <==> page.FeedContents() == Some([])
    ensures page.TributeInputShown() <==> page.FeedContents().Some?
  {
  }

  /** A signed-in visitor opens a fresh wall and the save effect runs: the
      page shows the stored list newest first, and the slot still loads as
      exactly that list. */
  method OpenWall(page: TributePage)
    requires page.Valid() && page.isLoadingPage
    requires CheckSession(page.storage.GetItem(MockUserStorageKey)).SignedIn?
    modifies page`currentUser, page`tributes, page`isInitialLoadComplete, page`isLoadingPage, page`navigation,
             page.storage
    ensures page.Valid() && page.isInitialLoadComplete && page.currentUser.Some?
    ensures var user := CheckSession(old(page.storage.GetItem(MockUserStorageKey))).user;
      page.currentUser.value.fullName == user.fullName && page.currentUser.value.relationship == user.relationship
    ensures page.tributes == LoadTributes(old(page.storage.items), page.deceasedFullName)
    ensures LoadTributes(page.storage.items, page.deceasedFullName) == page.tributes
    ensures page.activeTab == old(page.activeTab) && page.navigation == old(page.navigation)
    ensures page.showPostSuccessToast == old(page.showPostSuccessToast) && page.toastTimers == old(page.toastTimers)
    ensures page.alertShown == old(page.alertShown)
  {
    ghost var items := page.storage.items;
    ghost var user := CheckSession(page.storage.GetItem(MockUserStorageKey)).user;
    page.Mount();
    assert page.currentUser == Some(CurrentUser(user.fullName, user.relationship, true));
    assert page.tributes == LoadTributes(items, page.deceasedFullName) && page.storage.items == items;
    PersistAfterMountKeepsWall(page.storage.items, page.deceasedFullName, page.currentUser.value);
    page.PersistEffect(true);
  }

  /** A signed-in visitor posts a tribute no older than those shown, and the
      save effect runs: the page and the slot both hold the new tribute in
      front of the previous list. */
  method PostAndSave(page: TributePage, data: NewTributeInput, freshId: string, now: int)
    requires page.Valid() && page.isInitialLoadComplete && NewestFirst(page.tributes)
    requires forall i :: 0 <= i < |page.tributes| ==> page.tributes[i].timestamp <= now
    modifies page`tributes, page`showPostSuccessToast, page`toastTimers, page`navigation, page`alertShown,
             page.storage
    ensures page.Valid() && page.currentUser == old(page.currentUser)
    ensures var u := page.currentUser.value;
      page.tributes == [Tribute(freshId, u.fullName, data.message, now, u.relationship,
                                data.attachmentType, data.attachmentValue)] + old(page.tributes)
    ensures LoadTributes(page.storage.items, page.deceasedFullName) == page.tributes
    ensures page.activeTab == old(page.activeTab) && page.navigation == old(page.navigation)
    ensures page.showPostSuccessToast && page.toastTimers == old(page.toastTimers) + 1
    ensures page.alertShown == old(page.alertShown)
  {
    var before := page.tributes;
    page.HandleAddTribute(data, freshId, now);
    var t := page.tributes[0];
    assert page.tributes == [t] + before;
    PersistAfterAddKeepsOrder(page.storage.items, page.deceasedFullName, page.currentUser.value, t, before);
    page.PersistEffect(true);
  }

  /**
   * A visit: a signed-in visitor opens a fresh wall and posts one tribute,
   * no older than the stored ones, with the save effect running after each
   * change. The slot then loads as the new tribute in front of exactly what
   * was stored before.
   */
  method VisitAndPost(page: TributePage, data: NewTributeInput, freshId: string, now: int)
    requires page.Valid() && page.isLoadingPage
    requires CheckSession(page.storage.GetItem(MockUserStorageKey)).SignedIn?
    requires forall i :: 0 <= i < |LoadTributes(page.storage.items, page.deceasedFullName)| ==>
               LoadTributes(page.storage.items, page.deceasedFullName)[i].timestamp <= now
    modifies page, page.storage
    ensures var before := LoadTributes(old(page.storage.items), page.deceasedFullName);
      var user := CheckSession(old(page.storage.GetItem(MockUserStorageKey))).user;
      var t := Tribute(freshId, user.fullName, data.message, now, user.relationship,
                       data.attachmentType, data.attachmentValue);
      page.tributes == [t] + before
      && LoadTributes(page.storage.items, page.deceasedFullName) == [t] + before
    ensures page.activeTab == old(page.activeTab) && page.navigation == old(page.navigation)
    ensures page.showPostSuccessToast && page.toastTimers == old(page.toastTimers) + 1
    ensures page.alertShown == old(page.alertShown)
  {
    OpenWall(page);
    PostAndSave(page, data, freshId, now);
  }
}
