/** Properties of the archive store that relate several of its operations:
    the persist/load round trip, idempotence of the persist pass, tenant
    isolation, the quota fallback, the post mutations and the reset. */
module StoreProperties {
  import opened Wrappers
  import opened Records
  import opened Selection
  import opened Medium
  import opened ArchiveStore

  /** The lists a persist pass for tenant `u` writes, given readable storage. */
  function MergedFor(u: UserId, st: State, s: Storage): (c: Collections)
    requires ReadAll(s).Ok?
    ensures c.trees == Merge(Items(s.trees), TreeOwner, u, st.trees)
    ensures c.settings == Merge(Items(s.settings), SettingsOwner, u, [st.settings])
  {
    MergeAll(ReadAll(s).value, u, st)
  }

  /** The storage is readable and the medium accepts all four writes of the
      persist pass's main block. */
  predicate FullyWritten(fits: Storage -> bool, u: UserId, st: State, s: Storage) {
    ReadAll(s).Ok? && Attempt(fits, s, MergedFor(u, st, s), WriteOrder).committed == |WriteOrder|
  }

  /** A fully written persist pass leaves every key holding its merged list. */
  lemma PersistWritesAll(fits: Storage -> bool, u: UserId, st: State, s: Storage)
    requires FullyWritten(fits, u, st, s)
    ensures Persist(fits, Some(u), st, s).Ok?
    ensures Holds(Persist(fits, Some(u), st, s).value, MergedFor(u, st, s))
  {
    var m := MergedFor(u, st, s);
    assert Persist(fits, Some(u), st, s) == Ok(Commit(fits, s, m));
    CommitFull(fits, s, m);
  }

  /** When the medium accepts all four writes, the commit leaves every key
      holding its list. */
  lemma CommitFull(fits: Storage -> bool, s: Storage, m: Collections)
    requires Attempt(fits, s, m, WriteOrder).committed == |WriteOrder|
    ensures Holds(Commit(fits, s, m), m)
  {
    WriteAllInOrder(s, m);
    assert WriteOrder[..|WriteOrder|] == WriteOrder;
  }

  /** Without a capacity limit, every persist pass over readable storage is
      fully written. */
  lemma UnboundedFullyWritten(u: UserId, st: State, s: Storage)
    requires ReadAll(s).Ok?
    ensures FullyWritten(Unbounded, u, st, s)
  {
    AttemptUnbounded(s, MergedFor(u, st, s), WriteOrder);
  }

  /** Without a capacity limit, a pass over readable storage leaves every key
      holding its merged list. */
  lemma PersistUnbounded(u: UserId, st: State, s: Storage)
    requires ReadAll(s).Ok?
    ensures Persist(Unbounded, Some(u), st, s)
            == Ok(Storage(Parsed(Merge(Items(s.profiles), ProfileOwner, u, st.profiles)),
                          Parsed(Merge(Items(s.trees), TreeOwner, u, st.trees)),
                          Parsed(Merge(Items(s.posts), PostOwner, u, st.posts)),
                          Parsed(Merge(Items(s.settings), SettingsOwner, u, [st.settings]))))
  {
    UnboundedFullyWritten(u, st, s);
    PersistWritesAll(Unbounded, u, st, s);
  }

  /** Loading from storage that holds the lists `c`. */
  lemma LoadHeld(t: Storage, c: Collections, u: UserId, other: State)
    requires Holds(t, c)
    ensures Load(Some(u), t, other)
            == Ok(other.(profiles := NormalizeAll(Select(c.profiles, ProfileOwner, u)),
                         trees := Select(c.trees, TreeOwner, u),
                         posts := Select(c.posts, PostOwner, u),
                         settings := SettingsFor(c.settings, u)))
  {
    assert ReadAll(t) == Ok(c);
  }

  /** Tenant `u`'s part of the lists a persist pass for `u` writes. */
  lemma MergedOwnParts(u: UserId, st: State, s: Storage)
    requires ReadAll(s).Ok? && Owned(st, u)
    ensures var m := MergedFor(u, st, s);
            && Select(m.profiles, ProfileOwner, u) == st.profiles
            && Select(m.trees, TreeOwner, u) == st.trees
            && Select(m.posts, PostOwner, u) == st.posts
            && SettingsFor(m.settings, u) == st.settings
  {
    var c := ReadAll(s).value;
    MergeOwnPart(c.profiles, ProfileOwner, u, st.profiles);
    MergeOwnPart(c.trees, TreeOwner, u, st.trees);
    MergeOwnPart(c.posts, PostOwner, u, st.posts);
    SelectAllIff(st.profiles, ProfileOwner, u);
    SelectAllIff(st.trees, TreeOwner, u);
    SelectAllIff(st.posts, PostOwner, u);
    MergeFindFirst(c.settings, SettingsOwner, u, [st.settings]);
    assert FindFirst([st.settings], SettingsOwner, u) == Some(st.settings);
  }

  /** Load after a fully written persist gives back the tenant's collections
      and settings, profiles with their defaults filled in; pointers come from
      whatever state the load runs in. */
  lemma LoadAfterPersist(fits: Storage -> bool, u: UserId, st: State, s: Storage, other: State)
    requires FullyWritten(fits, u, st, s)
    requires Owned(st, u)
    ensures Persist(fits, Some(u), st, s).Ok?
    ensures Load(Some(u), Persist(fits, Some(u), st, s).value, other)
            == Ok(other.(profiles := NormalizeAll(st.profiles), trees := st.trees, posts := st.posts, settings := st.settings))
  {
    PersistWritesAll(fits, u, st, s);
    LoadHeld(Persist(fits, Some(u), st, s).value, MergedFor(u, st, s), u, other);
    MergedOwnParts(u, st, s);
  }

  lemma NormalizeAllFixpoint(ps: seq<Profile>)
    requires forall i :: 0 <= i < |ps| ==> Normalized(ps[i])
    ensures NormalizeAll(ps) == ps
  {
    forall i | 0 <= i < |ps|
      ensures NormalizeAll(ps)[i] == ps[i]
    {
      NormalizeFixpoint(ps[i]);
    }
  }

  /** The exact round trip: a load right after a fully written persist
      returns the very state persisted exactly when every in-memory record
      belongs to the tenant and every profile already has its defaults. */
  lemma RoundTripIff(fits: Storage -> bool, u: UserId, st: State, s: Storage)
    requires FullyWritten(fits, u, st, s)
    ensures Persist(fits, Some(u), st, s).Ok?
    ensures Load(Some(u), Persist(fits, Some(u), st, s).value, st) == Ok(st)
            <==> Owned(st, u) && forall i :: 0 <= i < |st.profiles| ==> Normalized(st.profiles[i])
  {
    PersistWritesAll(fits, u, st, s);
    if Owned(st, u) && forall i :: 0 <= i < |st.profiles| ==> Normalized(st.profiles[i]) {
      LoadAfterPersist(fits, u, st, s, st);
      NormalizeAllFixpoint(st.profiles);
    }
  }

  /** A fully written pass ends in storage the medium accepted. */
  lemma FullyWrittenFits(fits: Storage -> bool, u: UserId, st: State, s: Storage)
    requires FullyWritten(fits, u, st, s)
    ensures Persist(fits, Some(u), st, s).Ok?
    ensures fits(Persist(fits, Some(u), st, s).value)
  {
    var m := MergedFor(u, st, s);
    var run := Attempt(fits, s, m, WriteOrder);
    PersistFull(fits, u, st, s);
    assert 0 < |WriteOrder| <= run.committed;
    assert fits(WriteAll(s, m, WriteOrder[..|WriteOrder|]));
  }

  /** A fully written pass ends where its main block ends. */
  lemma PersistFull(fits: Storage -> bool, u: UserId, st: State, s: Storage)
    requires FullyWritten(fits, u, st, s)
    ensures Persist(fits, Some(u), st, s) == Ok(Attempt(fits, s, MergedFor(u, st, s), WriteOrder).storage)
  {
  }

  /** Re-merging the lists a pass wrote changes nothing exactly when the
      state is owned by the tenant. */
  lemma MergedStableIff(u: UserId, st: State, s: Storage)
    requires ReadAll(s).Ok?
    ensures MergeAll(MergedFor(u, st, s), u, st) == MergedFor(u, st, s) <==> Owned(st, u)
  {
    var c := ReadAll(s).value;
    var m := MergedFor(u, st, s);
    var m2 := MergeAll(m, u, st);
    var p := Merge(c.profiles, ProfileOwner, u, st.profiles);
    var t := Merge(c.trees, TreeOwner, u, st.trees);
    var q := Merge(c.posts, PostOwner, u, st.posts);
    var g := Merge(c.settings, SettingsOwner, u, [st.settings]);
    assert m == Collections(p, t, q, g);
    assert m2 == Collections(Merge(p, ProfileOwner, u, st.profiles), Merge(t, TreeOwner, u, st.trees),
                             Merge(q, PostOwner, u, st.posts), Merge(g, SettingsOwner, u, [st.settings]));
    MergeTwiceIff(c.profiles, ProfileOwner, u, st.profiles);
    MergeTwiceIff(c.trees, TreeOwner, u, st.trees);
    MergeTwiceIff(c.posts, PostOwner, u, st.posts);
    MergeTwiceIff(c.settings, SettingsOwner, u, [st.settings]);
    AllMatchOne(st.settings, SettingsOwner, u);
  }

  /** Persisting over storage that already holds what the pass would write,
      and that the medium accepts, changes nothing. */
  lemma PersistHeld(fits: Storage -> bool, u: UserId, st: State, t: Storage, m: Collections)
    requires Holds(t, m) && fits(t) && MergeAll(m, u, st) == m
    ensures Persist(fits, Some(u), st, t) == Ok(t)
  {
    assert ReadAll(t) == Ok(m);
    AttemptStable(fits, t, m, WriteOrder);
  }

  /** Persisting the same state a second time, after a fully written first
      pass, leaves the storage as the first pass left it, provided every
      in-memory record belongs to the tenant. */
  lemma PersistIdempotent(fits: Storage -> bool, u: UserId, st: State, s: Storage)
    requires FullyWritten(fits, u, st, s)
    requires Owned(st, u)
    ensures Persist(fits, Some(u), st, s).Ok?
    ensures Persist(fits, Some(u), st, Persist(fits, Some(u), st, s).value) == Persist(fits, Some(u), st, s)
  {
    PersistWritesAll(fits, u, st, s);
    FullyWrittenFits(fits, u, st, s);
    MergedStableIff(u, st, s);
    PersistHeld(fits, u, st, Persist(fits, Some(u), st, s).value, MergedFor(u, st, s));
  }

  /** Without a capacity limit, a second persist of the same state changes
      nothing exactly when every in-memory record belongs to the tenant; a
      record of another owner (such as the reset settings) is appended again
      on every pass. */
  lemma PersistTwiceIff(u: UserId, st: State, s: Storage)
    requires ReadAll(s).Ok?
    ensures Persist(Unbounded, Some(u), st, s).Ok?
    ensures Persist(Unbounded, Some(u), st, Persist(Unbounded, Some(u), st, s).value) == Persist(Unbounded, Some(u), st, s)
            <==> Owned(st, u)
  {
    UnboundedFullyWritten(u, st, s);
    PersistWritesAll(Unbounded, u, st, s);
    var m := MergedFor(u, st, s);
    var s1 := Persist(Unbounded, Some(u), st, s).value;
    assert ReadAll(s1) == Ok(m);
    UnboundedFullyWritten(u, st, s1);
    PersistWritesAll(Unbounded, u, st, s1);
    MergedStableIff(u, st, s);
    if Owned(st, u) {
      PersistIdempotent(Unbounded, u, st, s);
    }
  }

  /** A state owned by `u` holds no record of any other tenant. */
  lemma OwnedHoldsNoneOfOthers(st: State, u: UserId, v: UserId)
    requires Owned(st, u) && v != u
    ensures HoldsNoneOf(st, v)
  {
  }

  /** One key's view of isolation: a key that kept its value or received
      the merged list shows tenant `v` the same records as before. */
  lemma SlotIsolation<T>(before: Slot<T>, after: Slot<T>, f: T -> string, u: UserId, mine: seq<T>, v: UserId)
    requires after == before || after == Parsed(Merge(Items(before), f, u, mine))
    requires v != u && NoneMatch(mine, f, v)
    ensures Select(Items(after), f, v) == Select(Items(before), f, v)
  {
    if after != before {
      MergeOtherPart(Items(before), f, u, mine, v);
      SelectEmptyIff(mine, f, v);
    }
  }

  /** Tenant isolation: whatever the medium accepts, a persist pass for `u`
      leaves every other tenant's records, in every key, exactly as they
      were, as long as the in-memory state holds none of that tenant's
      records. */
  lemma PersistIsolation(fits: Storage -> bool, u: UserId, st: State, s: Storage, v: UserId)
    requires v != u && HoldsNoneOf(st, v)
    requires Persist(fits, Some(u), st, s).Ok?
    ensures var t := Persist(fits, Some(u), st, s).value;
            && Select(Items(t.profiles), ProfileOwner, v) == Select(Items(s.profiles), ProfileOwner, v)
            && Select(Items(t.trees), TreeOwner, v) == Select(Items(s.trees), TreeOwner, v)
            && Select(Items(t.posts), PostOwner, v) == Select(Items(s.posts), PostOwner, v)
            && Select(Items(t.settings), SettingsOwner, v) == Select(Items(s.settings), SettingsOwner, v)
  {
    var t := Persist(fits, Some(u), st, s).value;
    SlotIsolation(s.profiles, t.profiles, ProfileOwner, u, st.profiles, v);
    SlotIsolation(s.trees, t.trees, TreeOwner, u, st.trees, v);
    SlotIsolation(s.posts, t.posts, PostOwner, u, st.posts, v);
    SlotIsolation(s.settings, t.settings, SettingsOwner, u, [st.settings], v);
  }

  /** One key's view of the other tenants: a key that kept its value or
      received the merged list of records all owned by `u` holds the same
      records of other tenants, in the same relative order. */
  lemma SlotKeepsOthers<T>(before: Slot<T>, after: Slot<T>, f: T -> string, u: UserId, mine: seq<T>)
    requires after == before || after == Parsed(Merge(Items(before), f, u, mine))
    requires AllMatch(mine, f, u)
    ensures Reject(Items(after), f, u) == Reject(Items(before), f, u)
  {
    if after != before {
      var stored := Items(before);
      RejectAppend(Reject(stored, f, u), mine, f, u);
      RejectIdempotent(stored, f, u);
      RejectEmptyIff(mine, f, u);
    }
  }

  /** Whatever the medium accepts, a persist pass for `u` of a state owned by
      `u` leaves the subsequence of records of every other tenant, in every
      key, exactly as it was, interleaving of different tenants included. */
  lemma PersistKeepsOthers(fits: Storage -> bool, u: UserId, st: State, s: Storage)
    requires Owned(st, u) && Persist(fits, Some(u), st, s).Ok?
    ensures var t := Persist(fits, Some(u), st, s).value;
            && Reject(Items(t.profiles), ProfileOwner, u) == Reject(Items(s.profiles), ProfileOwner, u)
            && Reject(Items(t.trees), TreeOwner, u) == Reject(Items(s.trees), TreeOwner, u)
            && Reject(Items(t.posts), PostOwner, u) == Reject(Items(s.posts), PostOwner, u)
            && Reject(Items(t.settings), SettingsOwner, u) == Reject(Items(s.settings), SettingsOwner, u)
  {
    var t := Persist(fits, Some(u), st, s).value;
    SlotKeepsOthers(s.profiles, t.profiles, ProfileOwner, u, st.profiles);
    SlotKeepsOthers(s.trees, t.trees, TreeOwner, u, st.trees);
    SlotKeepsOthers(s.posts, t.posts, PostOwner, u, st.posts);
    AllMatchOne(st.settings, SettingsOwner, u);
    SlotKeepsOthers(s.settings, t.settings, SettingsOwner, u, [st.settings]);
  }

  /** A pass whose main block was refused part-way ends with the trees
      retry. */
  lemma PersistPartial(fits: Storage -> bool, u: UserId, st: State, s: Storage)
    requires ReadAll(s).Ok? && !FullyWritten(fits, u, st, s)
    ensures Persist(fits, Some(u), st, s)
            == Ok(RetryTrees(fits, Attempt(fits, s, MergedFor(u, st, s), WriteOrder).storage, MergedFor(u, st, s)))
  {
  }

  /** The storage after the first `n` writes of the main block. */
  lemma WritePrefixes(s: Storage, c: Collections)
    ensures WriteAll(s, c, WriteOrder[..0]) == s
    ensures WriteAll(s, c, WriteOrder[..1]) == s.(profiles := Parsed(c.profiles))
    ensures WriteAll(s, c, WriteOrder[..2]) == s.(profiles := Parsed(c.profiles), trees := Parsed(c.trees))
    ensures WriteAll(s, c, WriteOrder[..3]) == s.(profiles := Parsed(c.profiles), trees := Parsed(c.trees), posts := Parsed(c.posts))
  {
    assert WriteOrder[..0] == [];
    assert WriteOrder[..1] == [ProfilesKey];
    assert WriteOrder[..2] == [ProfilesKey, TreesKey];
    assert WriteOrder[..3] == [ProfilesKey, TreesKey, PostsKey];
    assert [ProfilesKey, TreesKey][1..] == [TreesKey];
    assert [ProfilesKey, TreesKey, PostsKey][1..] == [TreesKey, PostsKey];
    assert [TreesKey, PostsKey][1..] == [PostsKey];
  }

  /** The quota fallback. When the medium refuses the write at position `n`
      of the main block, the writes before it stay committed, the ones after
      it are skipped, and the merged trees are then written on their own;
      that retry only matters when the profiles write was refused, because
      otherwise the trees either are already written or were just refused in
      the same storage. */
  lemma QuotaFallback(fits: Storage -> bool, u: UserId, st: State, s: Storage)
    requires ReadAll(s).Ok?
    requires !FullyWritten(fits, u, st, s)
    ensures Persist(fits, Some(u), st, s).Ok?
    ensures var c := MergedFor(u, st, s);
            var n := Attempt(fits, s, c, WriteOrder).committed;
            var r := Persist(fits, Some(u), st, s).value;
            && (n == 0 ==> && r.profiles == s.profiles && r.posts == s.posts && r.settings == s.settings
                           && (fits(Write(s, TreesKey, c)) ==> r.trees == Parsed(c.trees))
                           && (!fits(Write(s, TreesKey, c)) ==> r.trees == s.trees))
            && (n == 1 ==> && r.profiles == Parsed(c.profiles) && r.trees == s.trees
                           && r.posts == s.posts && r.settings == s.settings)
            && (n == 2 ==> && r.profiles == Parsed(c.profiles) && r.trees == Parsed(c.trees)
                           && r.posts == s.posts && r.settings == s.settings)
            && (n == 3 ==> && r.profiles == Parsed(c.profiles) && r.trees == Parsed(c.trees)
                           && r.posts == Parsed(c.posts) && r.settings == s.settings)
  {
    PersistPartial(fits, u, st, s);
    WritePrefixes(s, MergedFor(u, st, s));
  }

  /** Persisting without a tenant or with corrupt storage never writes. */
  lemma PersistWithoutWrite(fits: Storage -> bool, user: Option<UserId>, st: State, s: Storage)
    requires user.None? || ReadAll(s).Err?
    ensures Persist(fits, user, st, s) == Ok(s) || Persist(fits, user, st, s) == Err(ReadAll(s).error)
  {
  }

  /** Two posts added in turn appear newest first. */
  lemma AddPostOrder(st: State, p1: CirclePost, p2: CirclePost)
    ensures AddPost(AddPost(st, p1), p2).posts == [p2, p1] + st.posts
  {
  }

  /** Adding a post keeps the state owned by `u` exactly when the post is
      the tenant's own. */
  lemma AddPostOwnedIff(st: State, p: CirclePost, u: UserId)
    requires Owned(st, u)
    ensures Owned(AddPost(st, p), u) <==> p.userId == u
  {
    var r := AddPost(st, p);
    if p.userId != u {
      assert PostOwner(r.posts[0]) != u;
    } else {
      assert forall i :: 0 < i < |r.posts| ==> r.posts[i] == st.posts[i - 1];
    }
  }

  /** Deleting changes the feed exactly when some post has the id. */
  lemma DeletePostNoopIff(st: State, id: Id)
    ensures DeletePost(st, id) == st <==> NoneMatch(st.posts, PostId, id)
  {
    RejectNoneIff(st.posts, PostId, id);
  }

  /** Deleting from the concatenation of two feeds deletes from each, so the
      surviving posts keep their relative order. */
  lemma DeletePostOrder(st: State, a: seq<CirclePost>, b: seq<CirclePost>, id: Id)
    requires st.posts == a + b
    ensures DeletePost(st, id).posts == Reject(a, PostId, id) + Reject(b, PostId, id)
  {
    RejectAppend(a, b, PostId, id);
  }

  /** Deleting keeps a state owned by its tenant. */
  lemma DeletePostKeepsOwned(st: State, id: Id, u: UserId)
    requires Owned(st, u)
    ensures Owned(DeletePost(st, id), u)
  {
    var r := DeletePost(st, id);
    forall j | 0 <= j < |r.posts|
      ensures PostOwner(r.posts[j]) == u
    {
      assert r.posts[j] in st.posts;
    }
  }

  /** Updating an id no post has leaves the state unchanged. */
  lemma UpdatePostAbsentNoop(st: State, id: Id, patch: PostPatch)
    requires NoneMatch(st.posts, PostId, id)
    ensures UpdatePost(st, id, patch) == st
  {
    assert UpdatePost(st, id, patch).posts == st.posts;
  }

  /** When some post has the id, an update keeps the state owned by `u`
      exactly when the patch does not hand the post to another owner. */
  lemma UpdatePostOwnedIff(st: State, id: Id, patch: PostPatch, u: UserId)
    requires Owned(st, u) && !NoneMatch(st.posts, PostId, id)
    ensures Owned(UpdatePost(st, id, patch), u) <==> patch.userId.None? || patch.userId == Some(u)
  {
    var i :| 0 <= i < |st.posts| && PostId(st.posts[i]) == id;
    var r := UpdatePost(st, id, patch);
    assert r.posts[i] == ApplyPatch(st.posts[i], patch);
    if patch.userId.Some? && patch.userId != Some(u) {
      assert PostOwner(r.posts[i]) != u;
    }
  }

  /** The active profile is the first profile carrying the pointer's id. */
  lemma ActiveProfilePicksFirst(st: State, i: nat)
    requires st.activeProfileId.Some? && i < |st.profiles|
    requires st.profiles[i].id == st.activeProfileId.value
    requires NoneMatch(st.profiles[..i], ProfileId, st.activeProfileId.value)
    ensures ActiveProfile(st) == Some(st.profiles[i])
  {
    FindFirstAt(st.profiles, ProfileId, st.activeProfileId.value, i);
  }

  /** The selected tree is the first tree carrying the pointer's id. */
  lemma SelectedTreePicksFirst(st: State, i: nat)
    requires st.selectedTreeId.Some? && i < |st.trees|
    requires st.trees[i].id == st.selectedTreeId.value
    requires NoneMatch(st.trees[..i], TreeId, st.selectedTreeId.value)
    ensures SelectedTree(st) == Some(st.trees[i])
  {
    FindFirstAt(st.trees, TreeId, st.selectedTreeId.value, i);
  }

  /** The tree shown in the tree view is the first tree carrying the view
      pointer's id. */
  lemma TreeForViewPicksFirst(st: State, i: nat)
    requires st.treeViewId.Some? && i < |st.trees|
    requires st.trees[i].id == st.treeViewId.value
    requires NoneMatch(st.trees[..i], TreeId, st.treeViewId.value)
    ensures SelectedTreeForView(st) == Some(st.trees[i])
  {
    FindFirstAt(st.trees, TreeId, st.treeViewId.value, i);
  }

  /** The lists a pass writes for the reset state, as written. */
  lemma ClearedMerged(u: UserId, st: State, s: Storage)
    requires u != "" && ReadAll(s).Ok?
    ensures var m := MergedFor(u, ClearAll(st), s);
            && Select(m.profiles, ProfileOwner, u) == []
            && Select(m.trees, TreeOwner, u) == []
            && Select(m.posts, PostOwner, u) == []
            && Select(m.settings, SettingsOwner, u) == []
            && Select(m.settings, SettingsOwner, "") == Select(Items(s.settings), SettingsOwner, "") + [UnownedSettings]
  {
    var c := ReadAll(s).value;
    MergeOwnPart(c.profiles, ProfileOwner, u, []);
    MergeOwnPart(c.trees, TreeOwner, u, []);
    MergeOwnPart(c.posts, PostOwner, u, []);
    ClearedSettings(u, c.settings);
  }

  /** The settings list a pass writes for the reset state, as written. */
  lemma ClearedSettings(u: UserId, stored: seq<CircleSettings>)
    requires u != ""
    ensures Select(Merge(stored, SettingsOwner, u, [UnownedSettings]), SettingsOwner, u) == []
    ensures Select(Merge(stored, SettingsOwner, u, [UnownedSettings]), SettingsOwner, "")
            == Select(stored, SettingsOwner, "") + [UnownedSettings]
  {
    MergeOwnPart(stored, SettingsOwner, u, [UnownedSettings]);
    MergeOtherPart(stored, SettingsOwner, u, [UnownedSettings], "");
    UnownedSelected(u);
  }

  /** The reset settings record belongs to the empty tenant only. */
  lemma UnownedSelected(u: UserId)
    requires u != ""
    ensures Select([UnownedSettings], SettingsOwner, u) == []
    ensures Select([UnownedSettings], SettingsOwner, "") == [UnownedSettings]
  {
    assert [UnownedSettings][1..] == [];
  }

  /** Loading from storage in which the tenant has no records gives the
      intended reset state. */
  lemma LoadAfterClear(t: Storage, m: Collections, u: UserId, st: State)
    requires Holds(t, m)
    requires Select(m.profiles, ProfileOwner, u) == [] && Select(m.trees, TreeOwner, u) == []
    requires Select(m.posts, PostOwner, u) == [] && Select(m.settings, SettingsOwner, u) == []
    ensures Load(Some(u), t, ClearAll(st)) == Ok(ClearAllFor(st, u))
  {
    LoadHeld(t, m, u, ClearAll(st));
    SelectEmptyIff(m.settings, SettingsOwner, u);
  }

  /** Reset then persist, as written: the tenant's profiles, trees, posts
      and settings all leave storage, every tenant other than the tenant and
      the empty id keeps its records, the empty id gains one more settings
      record, and a later load sees the default settings. */
  lemma ClearThenPersist(fits: Storage -> bool, u: UserId, st: State, s: Storage, v: UserId)
    requires u != "" && FullyWritten(fits, u, ClearAll(st), s)
    ensures Persist(fits, Some(u), ClearAll(st), s).Ok?
    ensures var t := Persist(fits, Some(u), ClearAll(st), s).value;
            && Select(Items(t.profiles), ProfileOwner, u) == []
            && Select(Items(t.trees), TreeOwner, u) == []
            && Select(Items(t.posts), PostOwner, u) == []
            && Select(Items(t.settings), SettingsOwner, u) == []
            && Select(Items(t.settings), SettingsOwner, "") == Select(Items(s.settings), SettingsOwner, "") + [UnownedSettings]
            && (v != u && v != "" ==>
                  && Select(Items(t.profiles), ProfileOwner, v) == Select(Items(s.profiles), ProfileOwner, v)
                  && Select(Items(t.trees), TreeOwner, v) == Select(Items(s.trees), TreeOwner, v)
                  && Select(Items(t.posts), PostOwner, v) == Select(Items(s.posts), PostOwner, v)
                  && Select(Items(t.settings), SettingsOwner, v) == Select(Items(s.settings), SettingsOwner, v))
            && Load(Some(u), t, ClearAll(st)) == Ok(ClearAllFor(st, u))
  {
    var cl := ClearAll(st);
    PersistWritesAll(fits, u, cl, s);
    ClearedMerged(u, st, s);
    if v != u && v != "" {
      PersistIsolation(fits, u, cl, s, v);
    }
    LoadAfterClear(Persist(fits, Some(u), cl, s).value, MergedFor(u, cl, s), u, st);
  }

  /** Reset then persist, as intended: the tenant's collections leave storage,
      its settings become the single default record, every other tenant,
      the empty id included, keeps its records, and a second persist
      changes nothing. */
  lemma ClearAllForThenPersist(fits: Storage -> bool, u: UserId, st: State, s: Storage, v: UserId)
    requires FullyWritten(fits, u, ClearAllFor(st, u), s)
    ensures Persist(fits, Some(u), ClearAllFor(st, u), s).Ok?
    ensures var t := Persist(fits, Some(u), ClearAllFor(st, u), s).value;
            && Select(Items(t.profiles), ProfileOwner, u) == []
            && Select(Items(t.trees), TreeOwner, u) == []
            && Select(Items(t.posts), PostOwner, u) == []
            && Select(Items(t.settings), SettingsOwner, u) == [DefaultSettings(u)]
            && (v != u ==>
                  && Select(Items(t.profiles), ProfileOwner, v) == Select(Items(s.profiles), ProfileOwner, v)
                  && Select(Items(t.trees), TreeOwner, v) == Select(Items(s.trees), TreeOwner, v)
                  && Select(Items(t.posts), PostOwner, v) == Select(Items(s.posts), PostOwner, v)
                  && Select(Items(t.settings), SettingsOwner, v) == Select(Items(s.settings), SettingsOwner, v))
            && Persist(fits, Some(u), ClearAllFor(st, u), t) == Ok(t)
  {
    var cl := ClearAllFor(st, u);
    PersistWritesAll(fits, u, cl, s);
    var c := ReadAll(s).value;
    MergeOwnPart(c.profiles, ProfileOwner, u, []);
    MergeOwnPart(c.trees, TreeOwner, u, []);
    MergeOwnPart(c.posts, PostOwner, u, []);
    MergeOwnPart(c.settings, SettingsOwner, u, [DefaultSettings(u)]);
    assert Select([DefaultSettings(u)], SettingsOwner, u) == [DefaultSettings(u)];
    if v != u {
      PersistIsolation(fits, u, cl, s, v);
    }
    PersistIdempotent(fits, u, cl, s);
  }

  /** The reset as written makes every later persist grow the settings list:
      without a capacity limit a second pass over the reset state appends one
      more settings record owned by the empty id. */
  lemma ClearedPersistGrows(u: UserId, st: State, s: Storage)
    requires u != "" && ReadAll(s).Ok?
    ensures Persist(Unbounded, Some(u), ClearAll(st), s).Ok?
    ensures var s1 := Persist(Unbounded, Some(u), ClearAll(st), s).value;
            && Persist(Unbounded, Some(u), ClearAll(st), s1).Ok?
            && |Items(Persist(Unbounded, Some(u), ClearAll(st), s1).value.settings)| == |Items(s1.settings)| + 1
  {
    var cl := ClearAll(st);
    UnboundedFullyWritten(u, cl, s);
    PersistWritesAll(Unbounded, u, cl, s);
    var s1 := Persist(Unbounded, Some(u), cl, s).value;
    UnboundedFullyWritten(u, cl, s1);
    PersistWritesAll(Unbounded, u, cl, s1);
    var c := ReadAll(s).value;
    var others := Reject(c.settings, SettingsOwner, u);
    RejectAppend(others, [UnownedSettings], SettingsOwner, u);
    RejectIdempotent(c.settings, SettingsOwner, u);
    assert Reject([UnownedSettings], SettingsOwner, u) == [UnownedSettings];
  }
}
