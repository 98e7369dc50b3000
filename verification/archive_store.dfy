/** The archive store: the in-memory state of the active tenant, the load
    pass that fills it from the shared medium, the persist pass that merges it
    back, the post mutations, the three derived selections and the reset.
    React's effects become explicit functions from state and storage to new
    state or storage; the caller runs the load pass when the tenant changes
    and the persist pass after every change of the collections. */
module ArchiveStore {
  import opened Wrappers
  import opened Records
  import opened Selection
  import opened Medium

  /** The in-memory state: three collections, three selection pointers and
      the feed settings. */
  datatype State = State(
    profiles: seq<Profile>,
    trees: seq<FamilyTree>,
    activeProfileId: Option<Id>,
    selectedTreeId: Option<Id>,
    treeViewId: Option<Id>,
    posts: seq<CirclePost>,
    settings: CircleSettings)

  /** The settings value used before any load and after a reset; its owner
      is the empty tenant id. */
  const UnownedSettings: CircleSettings := CircleSettings("", DefaultTitle, "")

  /** The state of a freshly mounted store. */
  const Initial: State := State([], [], None, None, None, [], UnownedSettings)

  /** Every collection and the settings belong to tenant `u`. Load always
      establishes this; the persist round trip depends on it. */
  predicate Owned(st: State, u: UserId) {
    && AllMatch(st.profiles, ProfileOwner, u)
    && AllMatch(st.trees, TreeOwner, u)
    && AllMatch(st.posts, PostOwner, u)
    && st.settings.userId == u
  }

  /** No in-memory record belongs to tenant `v`. */
  predicate HoldsNoneOf(st: State, v: UserId) {
    && NoneMatch(st.profiles, ProfileOwner, v)
    && NoneMatch(st.trees, TreeOwner, v)
    && NoneMatch(st.posts, PostOwner, v)
    && st.settings.userId != v
  }

  /** The defaulting applied to each loaded profile, in place. */
  function NormalizeAll(ps: seq<Profile>): (r: seq<Profile>)
    ensures |r| == |ps|
    ensures forall i :: 0 <= i < |ps| ==> r[i] == Normalize(ps[i])
    ensures forall i :: 0 <= i < |r| ==> Normalized(r[i]) && r[i].id == ps[i].id && r[i].userId == ps[i].userId
  {
    seq(|ps|, i requires 0 <= i < |ps| => Normalize(ps[i]))
  }

  /** The settings a tenant loads: its first stored settings record, or the
      default settings scoped to it when it has none. */
  function SettingsFor(stored: seq<CircleSettings>, u: UserId): (r: CircleSettings)
    ensures r.userId == u
    ensures NoneMatch(stored, SettingsOwner, u) ==> r == DefaultSettings(u)
    ensures !NoneMatch(stored, SettingsOwner, u) ==>
              exists i :: 0 <= i < |stored| && stored[i] == r && NoneMatch(stored[..i], SettingsOwner, u)
  {
    Or(FindFirst(stored, SettingsOwner, u), DefaultSettings(u))
  }

  /** The profiles a load keeps: the tenant's own, each with its defaults. */
  lemma LoadedProfiles(ps: seq<Profile>, u: UserId)
    ensures var r := NormalizeAll(Select(ps, ProfileOwner, u));
            && AllMatch(r, ProfileOwner, u)
            && (forall i :: 0 <= i < |r| ==> Normalized(r[i]))
            && (forall i :: 0 <= i < |ps| && ProfileOwner(ps[i]) == u ==> Normalize(ps[i]) in r)
  {
    var mine := Select(ps, ProfileOwner, u);
    var r := NormalizeAll(mine);
    forall i | 0 <= i < |ps| && ProfileOwner(ps[i]) == u
      ensures Normalize(ps[i]) in r
    {
      var j :| 0 <= j < |mine| && mine[j] == ps[i];
      assert r[j] == Normalize(ps[i]);
    }
  }

  /** What the load pass makes of the four lists it read for tenant `u`:
      the tenant's profiles, trees and posts in their stored order, profiles
      with their defaults filled in, and the tenant's settings. The selection
      pointers are left as they were. */
  function LoadFrom(c: Collections, u: UserId, st: State): (r: State)
    ensures Owned(r, u)
    ensures forall i :: 0 <= i < |r.profiles| ==> Normalized(r.profiles[i])
    ensures r.activeProfileId == st.activeProfileId && r.selectedTreeId == st.selectedTreeId && r.treeViewId == st.treeViewId
    ensures forall i :: 0 <= i < |c.profiles| && ProfileOwner(c.profiles[i]) == u ==> Normalize(c.profiles[i]) in r.profiles
    ensures forall i :: 0 <= i < |c.trees| && TreeOwner(c.trees[i]) == u ==> c.trees[i] in r.trees
    ensures forall i :: 0 <= i < |c.posts| && PostOwner(c.posts[i]) == u ==> c.posts[i] in r.posts
  {
    LoadedProfiles(c.profiles, u);
    st.(profiles := NormalizeAll(Select(c.profiles, ProfileOwner, u)),
        trees := Select(c.trees, TreeOwner, u),
        posts := Select(c.posts, PostOwner, u),
        settings := SettingsFor(c.settings, u))
  }

  /** The load pass. Without a tenant it does nothing. Otherwise it reads all
      four keys; a corrupt one aborts the pass and leaves the state as it
      was. */
  function Load(user: Option<UserId>, s: Storage, st: State): (r: Result<State, StoreError>)
    ensures user.None? ==> r == Ok(st)
    ensures user.Some? ==> (r.Err? <==> ReadAll(s).Err?)
    ensures user.Some? && r.Err? ==> r.error == ReadAll(s).error
    ensures r.Ok? && user.Some? ==> Owned(r.value, user.value)
    ensures r.Ok? && user.Some? ==> forall i :: 0 <= i < |r.value.profiles| ==> Normalized(r.value.profiles[i])
    ensures r.Ok? ==> (r.value.activeProfileId == st.activeProfileId
                       && r.value.selectedTreeId == st.selectedTreeId
                       && r.value.treeViewId == st.treeViewId)
  {
    if user.None? then Ok(st)
    else
      match ReadAll(s)
      case Err(e) => Err(e)
      case Ok(c) => Ok(LoadFrom(c, user.value, st))
  }

  /** The four lists the persist pass writes: for each key, the other
      tenants' stored records followed by the tenant's in-memory collection
      (for settings, the single in-memory settings record). */
  function MergeAll(stored: Collections, u: UserId, st: State): (r: Collections)
    ensures |r.profiles| >= |st.profiles| && |r.trees| >= |st.trees| && |r.posts| >= |st.posts|
    ensures r.profiles[|r.profiles| - |st.profiles|..] == st.profiles
    ensures r.trees[|r.trees| - |st.trees|..] == st.trees
    ensures r.posts[|r.posts| - |st.posts|..] == st.posts
    ensures |r.settings| > 0 && r.settings[|r.settings| - 1] == st.settings
    ensures NoneMatch(r.profiles[..|r.profiles| - |st.profiles|], ProfileOwner, u)
    ensures NoneMatch(r.trees[..|r.trees| - |st.trees|], TreeOwner, u)
    ensures NoneMatch(r.posts[..|r.posts| - |st.posts|], PostOwner, u)
    ensures NoneMatch(r.settings[..|r.settings| - 1], SettingsOwner, u)
  {
    Collections(
      Merge(stored.profiles, ProfileOwner, u, st.profiles),
      Merge(stored.trees, TreeOwner, u, st.trees),
      Merge(stored.posts, PostOwner, u, st.posts),
      Merge(stored.settings, SettingsOwner, u, [st.settings]))
  }

  /** The fallback after a refused write: write the merged trees alone, and
      give up silently if the medium refuses that too. */
  function RetryTrees(fits: Storage -> bool, s: Storage, c: Collections): (r: Storage)
    ensures r == s || r == Write(s, TreesKey, c)
    ensures r == Write(s, TreesKey, c) <==> fits(Write(s, TreesKey, c)) || s == Write(s, TreesKey, c)
  {
    var t := Write(s, TreesKey, c);
    if fits(t) then t else s
  }

  /** The writes of one persist pass: attempt the four writes in order; if
      the medium refuses one, the earlier writes stay, the later ones are
      skipped, and the merged trees are written once more on their own. A
      refusal never reaches the caller. */
  function Commit(fits: Storage -> bool, s: Storage, merged: Collections): (r: Storage)
    ensures r.profiles == s.profiles || r.profiles == Parsed(merged.profiles)
    ensures r.trees == s.trees || r.trees == Parsed(merged.trees)
    ensures r.posts == s.posts || r.posts == Parsed(merged.posts)
    ensures r.settings == s.settings || r.settings == Parsed(merged.settings)
  {
    var run := Attempt(fits, s, merged, WriteOrder);
    if run.committed == |WriteOrder| then run.storage
    else RetryTrees(fits, run.storage, merged)
  }

  /** The persist pass. Without a tenant it does nothing. Otherwise it reads
      all four keys (a corrupt one aborts the pass before any write), merges
      each list by replacement, and commits the merged lists. */
  function Persist(fits: Storage -> bool, user: Option<UserId>, st: State, s: Storage): (r: Result<Storage, StoreError>)
    ensures user.None? ==> r == Ok(s)
    ensures user.Some? ==> (r.Err? <==> ReadAll(s).Err?)
    ensures user.Some? && r.Err? ==> r.error == ReadAll(s).error
    ensures r.Ok? && user.Some? ==>
              var u := user.value;
              && (r.value.profiles == s.profiles || r.value.profiles == Parsed(Merge(Items(s.profiles), ProfileOwner, u, st.profiles)))
              && (r.value.trees == s.trees || r.value.trees == Parsed(Merge(Items(s.trees), TreeOwner, u, st.trees)))
              && (r.value.posts == s.posts || r.value.posts == Parsed(Merge(Items(s.posts), PostOwner, u, st.posts)))
              && (r.value.settings == s.settings || r.value.settings == Parsed(Merge(Items(s.settings), SettingsOwner, u, [st.settings])))
  {
    if user.None? then Ok(s)
    else
      match ReadAll(s)
      case Err(e) => Err(e)
      case Ok(stored) => Ok(Commit(fits, s, MergeAll(stored, user.value, st)))
  }

  /** A persist pass over readable storage leaves readable storage. */
  lemma PersistReadable(fits: Storage -> bool, user: Option<UserId>, st: State, s: Storage)
    requires ReadAll(s).Ok?
    ensures Persist(fits, user, st, s).Ok?
    ensures ReadAll(Persist(fits, user, st, s).value).Ok?
  {
    var t := Persist(fits, user, st, s).value;
    assert !t.profiles.Unparseable? && !t.trees.Unparseable? && !t.posts.Unparseable? && !t.settings.Unparseable?;
  }

  /** `addCirclePost`: the new post goes in front of the feed. */
  function AddPost(st: State, p: CirclePost): (r: State)
    ensures |r.posts| == |st.posts| + 1 && r.posts[0] == p && r.posts[1..] == st.posts
    ensures r == st.(posts := r.posts)
  {
    st.(posts := [p] + st.posts)
  }

  /** `deleteCirclePost`: every post with the id goes, the rest stay in order. */
  function DeletePost(st: State, id: Id): (r: State)
    ensures NoneMatch(r.posts, PostId, id)
    ensures forall j :: 0 <= j < |r.posts| ==> r.posts[j] in st.posts
    ensures forall i :: 0 <= i < |st.posts| && st.posts[i].id != id ==> st.posts[i] in r.posts
    ensures r == st.(posts := r.posts)
  {
    var kept := Reject(st.posts, PostId, id);
    assert forall i :: 0 <= i < |st.posts| && st.posts[i].id != id ==> st.posts[i] in kept by {
      forall i | 0 <= i < |st.posts| && st.posts[i].id != id
        ensures st.posts[i] in kept
      {
        assert PostId(st.posts[i]) != id;
      }
    }
    st.(posts := kept)
  }

  /** `updateCirclePost`: each post with the id gets the patch merged in; the
      others, and the length and order of the feed, stay. */
  function UpdatePost(st: State, id: Id, patch: PostPatch): (r: State)
    ensures |r.posts| == |st.posts|
    ensures forall i :: 0 <= i < |st.posts| && st.posts[i].id != id ==> r.posts[i] == st.posts[i]
    ensures forall i :: 0 <= i < |st.posts| && st.posts[i].id == id ==> r.posts[i] == ApplyPatch(st.posts[i], patch)
    ensures r == st.(posts := r.posts)
  {
    st.(posts := seq(|st.posts|, i requires 0 <= i < |st.posts| =>
                       if st.posts[i].id == id then ApplyPatch(st.posts[i], patch) else st.posts[i]))
  }

  /** A selection pointer resolved against a collection: nothing for a null
      pointer or an id no record has, else the first record with that id. */
  function Resolve<T(==)>(xs: seq<T>, id: T -> string, ptr: Option<Id>): (r: Option<T>)
    ensures r.None? <==> ptr.None? || NoneMatch(xs, id, ptr.value)
    ensures r.Some? ==> exists i :: 0 <= i < |xs| && xs[i] == r.value && id(xs[i]) == ptr.value && NoneMatch(xs[..i], id, ptr.value)
  {
    if ptr.None? then None else FindFirst(xs, id, ptr.value)
  }

  /** `activeProfile`. */
  function ActiveProfile(st: State): (r: Option<Profile>)
    ensures r.None? <==> st.activeProfileId.None? || NoneMatch(st.profiles, ProfileId, st.activeProfileId.value)
    ensures r.Some? ==> r.value in st.profiles && st.activeProfileId == Some(r.value.id)
  {
    Resolve(st.profiles, ProfileId, st.activeProfileId)
  }

  /** `selectedTree`. */
  function SelectedTree(st: State): (r: Option<FamilyTree>)
    ensures r.None? <==> st.selectedTreeId.None? || NoneMatch(st.trees, TreeId, st.selectedTreeId.value)
    ensures r.Some? ==> r.value in st.trees && st.selectedTreeId == Some(r.value.id)
  {
    Resolve(st.trees, TreeId, st.selectedTreeId)
  }

  /** `selectedTreeForView`. */
  function SelectedTreeForView(st: State): (r: Option<FamilyTree>)
    ensures r.None? <==> st.treeViewId.None? || NoneMatch(st.trees, TreeId, st.treeViewId.value)
    ensures r.Some? ==> r.value in st.trees && st.treeViewId == Some(r.value.id)
  {
    Resolve(st.trees, TreeId, st.treeViewId)
  }

  /** `clearAll`: every collection empty, every pointer null, and the
      settings reset to the defaults with the empty tenant id as owner, which
      is the state of a fresh mount. */
  function ClearAll(st: State): (r: State)
    ensures r.profiles == [] && r.trees == [] && r.posts == []
    ensures r.activeProfileId.None? && r.selectedTreeId.None? && r.treeViewId.None?
    ensures r.settings.userId == "" && r.settings.title == "Family Circle" && r.settings.bannerUrl == ""
    ensures r == Initial
  {
    State([], [], None, None, None, [], CircleSettings("", DefaultTitle, ""))
  }

  /** The reset as evidently intended: as `ClearAll`, but the default
      settings stay owned by the active tenant. */
  function ClearAllFor(st: State, u: UserId): (r: State)
    ensures r.profiles == [] && r.trees == [] && r.posts == []
    ensures r.activeProfileId.None? && r.selectedTreeId.None? && r.treeViewId.None?
    ensures r.settings == DefaultSettings(u)
    ensures Owned(r, u)
  {
    State([], [], None, None, None, [], DefaultSettings(u))
  }
}
