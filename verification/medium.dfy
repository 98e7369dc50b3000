/** The persistence medium: four string keys of a shared, size-limited
    key-value store, each holding one JSON list with the records of every
    tenant. Reading a key yields what `JSON.parse` makes of its text; a write
    replaces a key's whole list, and the medium may refuse it for capacity. */
module Medium {
  import opened Wrappers
  import opened Records

  datatype Key = ProfilesKey | TreesKey | PostsKey | SettingsKey

  /** One key as the store sees it after `getItem` and `JSON.parse`: absent
      (`getItem` gave `null` or the empty string, both read as `'[]'`), a
      parsed list, or text that `JSON.parse` rejects. */
  datatype Slot<T> = Missing | Parsed(items: seq<T>) | Unparseable

  /** The list a readable slot stands for; an absent key reads as `[]`. */
  function Items<T>(s: Slot<T>): seq<T> {
    if s.Parsed? then s.items else []
  }

  datatype Storage = Storage(
    profiles: Slot<Profile>,
    trees: Slot<FamilyTree>,
    posts: Slot<CirclePost>,
    settings: Slot<CircleSettings>)

  /** One list per key: what was read, or what is about to be written. */
  datatype Collections = Collections(
    profiles: seq<Profile>,
    trees: seq<FamilyTree>,
    posts: seq<CirclePost>,
    settings: seq<CircleSettings>)

  /** `JSON.parse` threw on the text stored under `key`. */
  datatype StoreError = CorruptKey(key: Key)

  /** The four keys in the order the store writes them. */
  const WriteOrder: seq<Key> := [ProfilesKey, TreesKey, PostsKey, SettingsKey]

  /** Reads the four keys in the store's order (profiles, trees, posts,
      settings). Nothing catches a parse failure, so the first unreadable key
      aborts the whole read; an absent key is the empty list. */
  function ReadAll(s: Storage): (r: Result<Collections, StoreError>)
    ensures r.Ok? <==> !s.profiles.Unparseable? && !s.trees.Unparseable? && !s.posts.Unparseable? && !s.settings.Unparseable?
    ensures r.Ok? ==> (r.value.profiles == Items(s.profiles) && r.value.trees == Items(s.trees)
                    && r.value.posts == Items(s.posts) && r.value.settings == Items(s.settings))
    ensures r == Err(CorruptKey(ProfilesKey)) <==> s.profiles.Unparseable?
    ensures r == Err(CorruptKey(TreesKey)) <==> !s.profiles.Unparseable? && s.trees.Unparseable?
    ensures r == Err(CorruptKey(PostsKey)) <==> !s.profiles.Unparseable? && !s.trees.Unparseable? && s.posts.Unparseable?
    ensures r == Err(CorruptKey(SettingsKey)) <==> !s.profiles.Unparseable? && !s.trees.Unparseable? && !s.posts.Unparseable? && s.settings.Unparseable?
  {
    if s.profiles.Unparseable? then Err(CorruptKey(ProfilesKey))
    else if s.trees.Unparseable? then Err(CorruptKey(TreesKey))
    else if s.posts.Unparseable? then Err(CorruptKey(PostsKey))
    else if s.settings.Unparseable? then Err(CorruptKey(SettingsKey))
    else Ok(Collections(Items(s.profiles), Items(s.trees), Items(s.posts), Items(s.settings)))
  }

  /** An absent key and a key holding the empty list read the same. */
  lemma AbsentReadsEmpty(s: Storage)
    ensures ReadAll(s.(profiles := Missing)) == ReadAll(s.(profiles := Parsed([])))
    ensures ReadAll(s.(trees := Missing)) == ReadAll(s.(trees := Parsed([])))
    ensures ReadAll(s.(posts := Missing)) == ReadAll(s.(posts := Parsed([])))
    ensures ReadAll(s.(settings := Missing)) == ReadAll(s.(settings := Parsed([])))
  {
  }

  /** `setItem(k, JSON.stringify(list))` when the medium accepts it: key `k`
      now holds its list from `c` and the other keys are untouched. */
  function Write(s: Storage, k: Key, c: Collections): (r: Storage)
    ensures ReadAll(s).Ok? ==> ReadAll(r).Ok?
    ensures r.profiles == (if k == ProfilesKey then Parsed(c.profiles) else s.profiles)
    ensures r.trees == (if k == TreesKey then Parsed(c.trees) else s.trees)
    ensures r.posts == (if k == PostsKey then Parsed(c.posts) else s.posts)
    ensures r.settings == (if k == SettingsKey then Parsed(c.settings) else s.settings)
  {
    match k
    case ProfilesKey => s.(profiles := Parsed(c.profiles))
    case TreesKey => s.(trees := Parsed(c.trees))
    case PostsKey => s.(posts := Parsed(c.posts))
    case SettingsKey => s.(settings := Parsed(c.settings))
  }

  /** The storage after the writes of `ks`, in order, all accepted. */
  function WriteAll(s: Storage, c: Collections, ks: seq<Key>): (r: Storage)
    ensures r.profiles == (if ProfilesKey in ks then Parsed(c.profiles) else s.profiles)
    ensures r.trees == (if TreesKey in ks then Parsed(c.trees) else s.trees)
    ensures r.posts == (if PostsKey in ks then Parsed(c.posts) else s.posts)
    ensures r.settings == (if SettingsKey in ks then Parsed(c.settings) else s.settings)
    decreases |ks|
  {
    if ks == [] then s else WriteAll(Write(s, ks[0], c), c, ks[1..])
  }

  /** The storage reached by a sequence of writes and how many of them the
      medium accepted before the first refusal. */
  datatype Run = Run(storage: Storage, committed: nat)

  /** The writes of `ks` inside one `try` block: each is attempted in turn,
      the medium accepts a write exactly when `fits` holds of the storage it
      would produce, and the first refusal throws, skipping every later write
      while the earlier ones stay committed. */
  function Attempt(fits: Storage -> bool, s: Storage, c: Collections, ks: seq<Key>): (r: Run)
    ensures r.committed <= |ks|
    ensures r.storage == WriteAll(s, c, ks[..r.committed])
    ensures forall j :: 0 < j <= r.committed ==> fits(WriteAll(s, c, ks[..j]))
    ensures r.committed < |ks| ==> !fits(Write(r.storage, ks[r.committed], c))
    decreases |ks|
  {
    if ks == [] then Run(s, 0)
    else
      var t := Write(s, ks[0], c);
      if !fits(t) then Run(s, 0)
      else
        var rest := Attempt(fits, t, c, ks[1..]);
        WriteAllStep(s, c, ks, rest.committed);
        forall j | 0 < j <= rest.committed + 1
          ensures fits(WriteAll(s, c, ks[..j]))
        {
          WriteAllStep(s, c, ks, j - 1);
        }
        Run(rest.storage, rest.committed + 1)
  }

  /** The first write of a prefix can be peeled off. */
  lemma WriteAllStep(s: Storage, c: Collections, ks: seq<Key>, n: nat)
    requires n < |ks|
    ensures WriteAll(s, c, ks[..n + 1]) == WriteAll(Write(s, ks[0], c), c, ks[1..][..n])
  {
    assert ks[..n + 1][0] == ks[0];
    assert ks[..n + 1][1..] == ks[1..][..n];
  }

  /** A medium without a capacity limit. */
  function Unbounded(t: Storage): bool {
    true
  }

  /** Without a capacity limit every write is accepted. */
  lemma {:induction false} AttemptUnbounded(s: Storage, c: Collections, ks: seq<Key>)
    ensures Attempt(Unbounded, s, c, ks).committed == |ks|
    decreases |ks|
  {
    if ks != [] {
      AttemptUnbounded(Write(s, ks[0], c), c, ks[1..]);
    }
  }

  /** Every key already holds its list from `c`. */
  predicate Holds(s: Storage, c: Collections) {
    s == Storage(Parsed(c.profiles), Parsed(c.trees), Parsed(c.posts), Parsed(c.settings))
  }

  /** Rewriting what the medium already holds is accepted whenever the
      current contents fit, and changes nothing. */
  lemma {:induction false} AttemptStable(fits: Storage -> bool, s: Storage, c: Collections, ks: seq<Key>)
    requires Holds(s, c) && fits(s)
    ensures Attempt(fits, s, c, ks) == Run(s, |ks|)
    decreases |ks|
  {
    if ks != [] {
      assert Write(s, ks[0], c) == s;
      AttemptStable(fits, s, c, ks[1..]);
    }
  }

  /** When every write of the main block is accepted, each key holds its new
      list. */
  lemma WriteAllInOrder(s: Storage, c: Collections)
    ensures WriteAll(s, c, WriteOrder) == Storage(Parsed(c.profiles), Parsed(c.trees), Parsed(c.posts), Parsed(c.settings))
  {
    assert WriteOrder[1..] == [TreesKey, PostsKey, SettingsKey];
    assert WriteOrder[1..][1..] == [PostsKey, SettingsKey];
    assert WriteOrder[1..][1..][1..] == [SettingsKey];
  }
}
