/** A change of the active tenant. The hook runs its load pass when the
    tenant changes and its persist pass when the tenant or a collection
    changes; both effects of one commit see the state of the render that
    produced it. When the tenant changes, the persist pass of that same
    commit therefore still sees the previous tenant's collections, and only
    the following commit, after the loaded state has been rendered, persists
    the loaded collections. */
module Session {
  import opened Wrappers
  import opened Records
  import opened Selection
  import opened Medium
  import opened ArchiveStore
  import opened StoreProperties

  /** The tenant change as the hook performs it, from in-memory state `st`
      to tenant `u`: load from the storage as found, persist `st` under `u`,
      then persist the loaded state under `u`. A corrupt key aborts both
      effects before anything is written. */
  function SwitchUserAsWritten(fits: Storage -> bool, s: Storage, st: State, u: UserId): (r: Result<(State, Storage), StoreError>)
    ensures r.Err? <==> ReadAll(s).Err?
    ensures r.Ok? ==> Owned(r.value.0, u)
  {
    match Load(Some(u), s, st)
    case Err(e) => Err(e)
    case Ok(loaded) =>
      match Persist(fits, Some(u), st, s)
      case Err(e) => Err(e)
      case Ok(s1) =>
        PersistReadable(fits, Some(u), st, s);
        match Persist(fits, Some(u), loaded, s1)
        case Err(e) => Err(e)
        case Ok(s2) => Ok((loaded, s2))
  }

  /** The tenant change as evidently intended: load, then persist only the
      loaded state. */
  function SwitchUser(fits: Storage -> bool, s: Storage, st: State, u: UserId): (r: Result<(State, Storage), StoreError>)
    ensures r.Err? <==> ReadAll(s).Err?
    ensures r.Ok? ==> Owned(r.value.0, u)
  {
    match Load(Some(u), s, st)
    case Err(e) => Err(e)
    case Ok(loaded) =>
      match Persist(fits, Some(u), loaded, s)
      case Err(e) => Err(e)
      case Ok(s1) => Ok((loaded, s1))
  }

  /** With the intended tenant change, whatever the medium accepts, no
      other tenant's records change in any key. */
  lemma SwitchUserIsolation(fits: Storage -> bool, s: Storage, st: State, u: UserId, v: UserId)
    requires v != u && SwitchUser(fits, s, st, u).Ok?
    ensures var t := SwitchUser(fits, s, st, u).value.1;
            && Select(Items(t.profiles), ProfileOwner, v) == Select(Items(s.profiles), ProfileOwner, v)
            && Select(Items(t.trees), TreeOwner, v) == Select(Items(s.trees), TreeOwner, v)
            && Select(Items(t.posts), PostOwner, v) == Select(Items(s.posts), PostOwner, v)
            && Select(Items(t.settings), SettingsOwner, v) == Select(Items(s.settings), SettingsOwner, v)
  {
    var loaded := Load(Some(u), s, st).value;
    OwnedHoldsNoneOfOthers(loaded, u, v);
    PersistIsolation(fits, u, loaded, s, v);
  }

  /** With the intended tenant change and no capacity limit, the new
      tenant's own trees and posts are stored exactly as before. */
  lemma SwitchUserKeepsOwn(s: Storage, st: State, u: UserId)
    requires ReadAll(s).Ok?
    ensures SwitchUser(Unbounded, s, st, u).Ok?
    ensures var t := SwitchUser(Unbounded, s, st, u).value.1;
            && Select(Items(t.trees), TreeOwner, u) == Select(Items(s.trees), TreeOwner, u)
            && Select(Items(t.posts), PostOwner, u) == Select(Items(s.posts), PostOwner, u)
  {
    var loaded := Load(Some(u), s, st).value;
    UnboundedFullyWritten(u, loaded, s);
    PersistWritesAll(Unbounded, u, loaded, s);
    var c := ReadAll(s).value;
    MergeOwnPart(c.trees, TreeOwner, u, loaded.trees);
    MergeOwnPart(c.posts, PostOwner, u, loaded.posts);
    SelectAllIff(loaded.trees, TreeOwner, u);
    SelectAllIff(loaded.posts, PostOwner, u);
  }

  /** Storage holding a single profile and nothing else. */
  function OnlyProfile(p: Profile): (r: Storage)
    ensures ReadAll(r) == Ok(Collections([p], [], [], []))
  {
    Storage(Parsed([p]), Missing, Missing, Missing)
  }

  /** Tenant `a`'s state after loading `OnlyProfile(p)`. */
  function StateOf(p: Profile, a: UserId): (r: State)
    requires p.userId == a
    ensures Owned(r, a)
  {
    Initial.(profiles := [p], settings := DefaultSettings(a))
  }

  /** What tenant `b` loads from `OnlyProfile(p)` when `p` is not its own. */
  lemma LoadOther(p: Profile, a: UserId, b: UserId)
    requires p.userId == a && a != b
    ensures Load(Some(b), OnlyProfile(p), StateOf(p, a)) == Ok(StateOf(p, a).(profiles := [], settings := DefaultSettings(b)))
  {
    assert [p][1..] == [];
    assert Select([p], ProfileOwner, b) == [];
  }

  /** The persist pass of the switching commit appends `p` a second time. */
  lemma StalePass(p: Profile, a: UserId, b: UserId)
    requires p.userId == a && a != b
    ensures Persist(Unbounded, Some(b), StateOf(p, a), OnlyProfile(p)).Ok?
    ensures Persist(Unbounded, Some(b), StateOf(p, a), OnlyProfile(p)).value.profiles == Parsed([p, p])
  {
    PersistUnbounded(b, StateOf(p, a), OnlyProfile(p));
    MergeForeign(p, b);
  }

  /** Neither one nor two copies of a profile of another tenant belong to `b`. */
  lemma NotOwnedBy(p: Profile, b: UserId)
    requires p.userId != b
    ensures NoneMatch([p], ProfileOwner, b) && NoneMatch([p, p], ProfileOwner, b)
  {
    assert ProfileOwner(p) != b;
  }

  /** Merging a profile of another tenant with itself keeps both copies. */
  lemma MergeForeign(p: Profile, b: UserId)
    requires p.userId != b
    ensures Merge([p], ProfileOwner, b, [p]) == [p, p]
  {
    assert [p][1..] == [];
    assert Reject([p], ProfileOwner, b) == [p];
  }

  /** A persist pass for `b` of a state without profiles, whatever the
      medium accepts, keeps the stored profiles when none of them is `b`'s. */
  lemma KeepsProfiles(fits: Storage -> bool, t: Storage, st: State, b: UserId)
    requires ReadAll(t).Ok? && t.profiles.Parsed? && st.profiles == [] && NoneMatch(Items(t.profiles), ProfileOwner, b)
    ensures Persist(fits, Some(b), st, t).Ok?
    ensures Persist(fits, Some(b), st, t).value.profiles == t.profiles
  {
    RejectNoneIff(Items(t.profiles), ProfileOwner, b);
    assert Merge(Items(t.profiles), ProfileOwner, b, st.profiles) == Items(t.profiles);
  }

  /** Over readable storage the tenant change as written is its three steps
      in order. */
  lemma AsWrittenSteps(fits: Storage -> bool, s: Storage, st: State, u: UserId)
    requires ReadAll(s).Ok?
    ensures Load(Some(u), s, st).Ok? && Persist(fits, Some(u), st, s).Ok?
    ensures ReadAll(Persist(fits, Some(u), st, s).value).Ok?
    ensures SwitchUserAsWritten(fits, s, st, u)
            == Ok((Load(Some(u), s, st).value,
                   Persist(fits, Some(u), Load(Some(u), s, st).value, Persist(fits, Some(u), st, s).value).value))
  {
    PersistReadable(fits, Some(u), st, s);
  }

  /** The tenant change as written ends with `p` stored twice. */
  lemma AsWrittenTwice(p: Profile, a: UserId, b: UserId)
    requires p.userId == a && a != b
    ensures SwitchUserAsWritten(Unbounded, OnlyProfile(p), StateOf(p, a), b).Ok?
    ensures SwitchUserAsWritten(Unbounded, OnlyProfile(p), StateOf(p, a), b).value.1.profiles == Parsed([p, p])
  {
    var s := OnlyProfile(p);
    var st := StateOf(p, a);
    AsWrittenSteps(Unbounded, s, st, b);
    LoadOther(p, a, b);
    StalePass(p, a, b);
    var s1 := Persist(Unbounded, Some(b), st, s).value;
    NotOwnedBy(p, b);
    KeepsProfiles(Unbounded, s1, st.(profiles := [], settings := DefaultSettings(b)), b);
  }

  /** The intended tenant change leaves `p` stored once. */
  lemma IntendedOnce(p: Profile, a: UserId, b: UserId)
    requires p.userId == a && a != b
    ensures SwitchUser(Unbounded, OnlyProfile(p), StateOf(p, a), b).Ok?
    ensures SwitchUser(Unbounded, OnlyProfile(p), StateOf(p, a), b).value.1.profiles == Parsed([p])
  {
    var s := OnlyProfile(p);
    var st := StateOf(p, a);
    var loaded := st.(profiles := [], settings := DefaultSettings(b));
    LoadOther(p, a, b);
    NotOwnedBy(p, b);
    KeepsProfiles(Unbounded, s, loaded, b);
    var s1 := Persist(Unbounded, Some(b), loaded, s).value;
    assert SwitchUser(Unbounded, s, st, b) == Ok((loaded, s1));
  }

  /** Switching from tenant `a`, which holds one profile, to tenant `b` as
      written leaves that profile stored twice although tenant `a` changed
      nothing; the intended switch leaves it stored once. */
  lemma SwitchUserAsWrittenDuplicates(p: Profile, a: UserId, b: UserId)
    requires p.userId == a && a != b
    ensures SwitchUserAsWritten(Unbounded, OnlyProfile(p), StateOf(p, a), b).Ok?
    ensures SwitchUser(Unbounded, OnlyProfile(p), StateOf(p, a), b).Ok?
    ensures SwitchUserAsWritten(Unbounded, OnlyProfile(p), StateOf(p, a), b).value.1.profiles
            != SwitchUser(Unbounded, OnlyProfile(p), StateOf(p, a), b).value.1.profiles
  {
    AsWrittenTwice(p, a, b);
    IntendedOnce(p, a, b);
    assert [p, p] != [p];
  }

  /** The stale pass of the first commit after mounting writes the fresh
      state's settings record, owned by the empty id, next to the stored
      ones. */
  lemma StaleMountPass(s: Storage, u: UserId)
    requires u != "" && ReadAll(s).Ok?
    ensures Persist(Unbounded, Some(u), Initial, s).Ok?
    ensures ReadAll(Persist(Unbounded, Some(u), Initial, s).value).Ok?
    ensures Select(Items(Persist(Unbounded, Some(u), Initial, s).value.settings), SettingsOwner, "")
            == Select(Items(s.settings), SettingsOwner, "") + [UnownedSettings]
  {
    PersistUnbounded(u, Initial, s);
    PersistReadable(Unbounded, Some(u), Initial, s);
    ClearedSettings(u, Items(s.settings));
  }

  /** Mounting the store with a tenant present is the switch from the fresh
      state; as written it stores one more settings record owned by the
      empty id, the same stray record the reset leaves behind. */
  lemma MountAddsUnowned(s: Storage, u: UserId)
    requires u != "" && ReadAll(s).Ok?
    ensures SwitchUserAsWritten(Unbounded, s, Initial, u).Ok?
    ensures Select(Items(SwitchUserAsWritten(Unbounded, s, Initial, u).value.1.settings), SettingsOwner, "")
            == Select(Items(s.settings), SettingsOwner, "") + [UnownedSettings]
  {
    AsWrittenSteps(Unbounded, s, Initial, u);
    StaleMountPass(s, u);
    var loaded := Load(Some(u), s, Initial).value;
    var s1 := Persist(Unbounded, Some(u), Initial, s).value;
    OwnedHoldsNoneOfOthers(loaded, u, "");
    PersistIsolation(Unbounded, u, loaded, s1, "");
  }
}
