# Archive store: a Dafny model

This project models the archive store of a client-side family-story
application (`hooks/useArchiveStore.ts`). The store keeps profiles, family
trees, circle posts and circle settings for the active user. It persists
them in four keys of a shared, size-limited key-value store, and every key
holds one list with the records of all users. The store has these parts:

- a **load pass** that keeps the active user's records from each key,
  fills in missing profile fields and picks the user's settings;
- a **persist pass** that does merge-by-replacement: for each key it
  re-reads the list, drops the user's stored records and appends the
  in-memory collection. It attempts four writes inside one `try`, and when
  a write is refused it writes the merged family trees again on their own;
- the **post mutations** `addCirclePost`, `deleteCirclePost` and
  `updateCirclePost`;
- three **selectors** that resolve a pointer to the first record with that
  id;
- **`clearAll`**, which resets the in-memory state.

React is replaced by explicit functions. `Load(user, storage, state)` and
`Persist(fits, user, state, storage)` are the two effects. The mutations
map a state to a new state. `Session` composes the effects the way React
runs them when the user changes: the switching commit runs the load pass,
then the persist pass over the previous state, and the next commit persists
the loaded state.

Storage is a record of four slots, one per key
(`Medium.Storage`). A slot is absent, holds a parsed list, or holds text
that `JSON.parse` rejects. The quota is a parameter `fits: Storage -> bool`:
the medium accepts a write exactly when `fits` holds of the storage that the
write would produce. `Medium.Unbounded` is the medium without a limit.

Modules, in dependency order:

- `Wrappers`: `Option`, `Result`, and `Or`, which is JavaScript's `x || d`.
- `Records`: the record datatypes, the profile defaulting and the post
  patch.
- `Selection`: generic filter, reject, find-first and merge over any
  record type and string key, with their algebra.
- `Medium`: the four keys, reading them, and the sequence of writes with
  refusals.
- `ArchiveStore`: the state, load, persist, mutations, selectors and reset.
- `StoreProperties`: properties that relate several operations.
- `Session`: switching the active user, as written and as intended.

Three behaviours of the code worth noting, each modelled as the code does
it:

- A corrupt stored value is not isolated. The `JSON.parse` calls sit
  outside any `try` (lines 17-20 and 47-65). The first corrupt key aborts
  the whole pass, so the model returns `Err(CorruptKey(k))` and changes
  nothing.
- The load pass does not reset the selection pointers. It never calls
  their setters, so `Load` leaves them as they were.
- The quota fallback happens only after the main block has thrown. The
  four writes are not attempted independently: after a refused write, the
  later writes in the block are skipped.

## Model

| member | source | states |
|---|---|---|
| `Records.DefaultSettings` | hooks/useArchiveStore.ts:40 | settings synthesised for a user without a stored record belong to that user, titled "Family Circle", with an empty banner |
| `Records.Normalize` | hooks/useArchiveStore.ts:25-34 | after load every optional profile field is present; fields that were present are unchanged, absent lists become empty and an absent banner becomes `""`; id, owner and other fields are kept |
| `Records.NormalizeFixpoint` | hooks/useArchiveStore.ts:25-34 | defaulting is the identity exactly on profiles that already have every field, and applying it twice equals applying it once |
| `Records.ApplyPatch` | hooks/useArchiveStore.ts:95 | shallow merge `{...p, ...patch}`: each field present in the patch wins, every other field is the post's own |
| `Selection.Select` | hooks/useArchiveStore.ts:24 | `filter(x => f(x) === k)`: the result holds only elements with key `k`, every such element of the input is in it, and it is no longer than the input |
| `Selection.Reject` | hooks/useArchiveStore.ts:49 | `filter(x => f(x) !== k)`: the result holds no element with key `k` and keeps every other element of the input |
| `Selection.FindFirst` | hooks/useArchiveStore.ts:39 | `find`: nothing exactly when no element has key `k`; otherwise an element with key `k` at an index before which no element has key `k` |
| `Selection.Merge` | hooks/useArchiveStore.ts:48-51 | merge-by-replacement ends with the user's collection, and every record before it belongs to another user |
| `Selection.SelectAppend` | hooks/useArchiveStore.ts:36-37 | filtering distributes over concatenation, so load keeps the user's records in their stored order |
| `Selection.RejectAppend` | hooks/useArchiveStore.ts:91 | rejecting distributes over concatenation, so the records that remain keep their relative order |
| `Selection.SelectAllIff` | hooks/useArchiveStore.ts:36 | filtering returns the whole list exactly when every element has the key |
| `Selection.RejectNoneIff` | hooks/useArchiveStore.ts:91 | rejecting returns the whole list exactly when no element has the key |
| `Selection.RejectEmptyIff` | hooks/useArchiveStore.ts:49 | rejecting yields nothing exactly when every element has the key |
| `Selection.SelectEmptyIff` | hooks/useArchiveStore.ts:36 | filtering yields nothing exactly when no element has the key |
| `Selection.SelectOfReject` | hooks/useArchiveStore.ts:49 | after dropping user `k`'s records, another user's records are exactly as before and none of `k`'s remain |
| `Selection.RejectIdempotent` | hooks/useArchiveStore.ts:49 | dropping a user's records twice equals dropping them once |
| `Selection.MergeOwnPart` | hooks/useArchiveStore.ts:48-51 | after a merge the user's part of the list is exactly the user's own records of the appended collection |
| `Selection.MergeOtherPart` | hooks/useArchiveStore.ts:48-51 | after a merge another user's part is that user's stored part followed by any of its records in the appended collection |
| `Selection.MergeTwiceIff` | hooks/useArchiveStore.ts:48-51 | merging the same collection twice equals merging it once exactly when every appended record belongs to the user |
| `Selection.FindFirstSkip` | hooks/useArchiveStore.ts:39 | records without the key in front do not change what `find` returns |
| `Selection.FindFirstAt` | hooks/useArchiveStore.ts:99 | the reference reading of `find`: the element at the first index with the key is the result |
| `Selection.MergeFindFirst` | hooks/useArchiveStore.ts:66-69 | after the settings merge, finding the user's settings finds the first of the appended records that is the user's |
| `Medium.ReadAll` | hooks/useArchiveStore.ts:17-20 | the four keys are read in order; an absent key reads as `[]`; reading fails exactly when some key is corrupt, and names the first corrupt key in the order profiles, trees, posts, settings |
| `Medium.AbsentReadsEmpty` | hooks/useArchiveStore.ts:17-20 | the fallback to `'[]'`: a key that is absent reads exactly like a key holding the empty list |
| `Medium.Write` | hooks/useArchiveStore.ts:72-75 | `setItem` replaces one key's whole list with its parsed new value and leaves the other keys alone; readable storage stays readable |
| `Medium.WriteAll` | hooks/useArchiveStore.ts:72-75 | after a sequence of accepted `setItem` calls, each key written holds its new list and every other key is unchanged |
| `Medium.Attempt` | hooks/useArchiveStore.ts:71-76 | writes in one `try`: the storage is exactly the first `n` writes applied, each of them was accepted, and if `n` is short of all of them the next write was refused |
| `Medium.WriteAllInOrder` | hooks/useArchiveStore.ts:72-75 | when all four writes are accepted, every key holds its new list |
| `Medium.AttemptUnbounded` | hooks/useArchiveStore.ts:71-76 | without a capacity limit every write of the block is committed |
| `Medium.AttemptStable` | hooks/useArchiveStore.ts:71-76 | rewriting lists the medium already holds and accepts commits every write and changes nothing |
| `ArchiveStore.SettingsFor` | hooks/useArchiveStore.ts:39-40 | the loaded settings always belong to the user; they are the default settings when no stored record is the user's, and otherwise the user's first stored record |
| `ArchiveStore.NormalizeAll` | hooks/useArchiveStore.ts:25-34 | the `map` keeps the list's length and order; every profile is defaulted in place, complete afterwards, and keeps its id and owner |
| `ArchiveStore.LoadedProfiles` | hooks/useArchiveStore.ts:22-35 | the loaded profiles all belong to the user and are complete, and every stored profile of the user is among them with its defaults |
| `ArchiveStore.LoadFrom` | hooks/useArchiveStore.ts:22-40 | from the lists read, the state holds only the user's records and settings, complete profiles, every stored profile, tree and post of the user, and the old pointers |
| `ArchiveStore.Load` | hooks/useArchiveStore.ts:15-41 | no user leaves the state unchanged; a corrupt key fails the pass with that key; otherwise every loaded record and the settings belong to the user, profiles are defaulted, and the pointers are untouched |
| `ArchiveStore.MergeAll` | hooks/useArchiveStore.ts:47-69 | each written list is other users' records followed by the in-memory collection, and for settings by the single in-memory settings record |
| `ArchiveStore.RetryTrees` | hooks/useArchiveStore.ts:78-82 | the fallback writes the merged trees if the medium accepts them and otherwise leaves storage as it is |
| `ArchiveStore.Commit` | hooks/useArchiveStore.ts:71-83 | whatever the medium accepts, after the main block and the fallback each key holds its old value or its new list |
| `ArchiveStore.Persist` | hooks/useArchiveStore.ts:44-84 | no user leaves storage unchanged; only a corrupt key reaches the caller, and then nothing is written; otherwise every key holds either its old value or its merged list |
| `ArchiveStore.PersistReadable` | hooks/useArchiveStore.ts:44-84 | a persist pass over readable storage succeeds and leaves readable storage, since every write is of a list |
| `ArchiveStore.AddPost` | hooks/useArchiveStore.ts:86-88 | the new post is first, followed by the old feed; nothing else in the state changes |
| `ArchiveStore.DeletePost` | hooks/useArchiveStore.ts:90-92 | no post with the id remains, every post with another id remains, nothing new appears, and nothing else in the state changes |
| `ArchiveStore.UpdatePost` | hooks/useArchiveStore.ts:94-96 | the feed keeps its length and order; posts with the id get the patch merged in, other posts are unchanged |
| `ArchiveStore.Resolve` | hooks/useArchiveStore.ts:98-111 | a pointer resolves to nothing exactly when it is null or no record has its id, and otherwise to the first record with that id |
| `ArchiveStore.ActiveProfile` | hooks/useArchiveStore.ts:98-101 | `activeProfile` is null exactly when the pointer is null or dangling, else a profile of the collection with the pointer's id |
| `ArchiveStore.SelectedTree` | hooks/useArchiveStore.ts:103-106 | `selectedTree` is null exactly when the pointer is null or dangling, else a tree of the collection with the pointer's id |
| `ArchiveStore.SelectedTreeForView` | hooks/useArchiveStore.ts:108-111 | `selectedTreeForView` is null exactly when the pointer is null or dangling, else a tree of the collection with the pointer's id |
| `ArchiveStore.ClearAll` | hooks/useArchiveStore.ts:113-121 | empty collections, null pointers, and default settings owned by the empty user id: the state of a fresh mount (lines 6-12) |
| `ArchiveStore.ClearAllFor` | hooks/useArchiveStore.ts:113-121 | the corrected reset: the same, but the default settings belong to the active user, so the state stays owned by that user |
| `StoreProperties.PersistWritesAll` | hooks/useArchiveStore.ts:47-75 | when all four writes are accepted, every key holds its merged list |
| `StoreProperties.CommitFull` | hooks/useArchiveStore.ts:71-75 | when the medium accepts all four writes, each key ends holding its new list |
| `StoreProperties.PersistUnbounded` | hooks/useArchiveStore.ts:44-75 | without a capacity limit, a pass over readable storage leaves every key holding its merged list |
| `StoreProperties.UnboundedFullyWritten` | hooks/useArchiveStore.ts:71-75 | without a capacity limit the main block never throws |
| `StoreProperties.FullyWrittenFits` | hooks/useArchiveStore.ts:71-75 | the storage a fully written pass leaves is storage the medium accepted |
| `StoreProperties.MergedOwnParts` | hooks/useArchiveStore.ts:48-69 | for an owned state, the user's part of every written list is the in-memory collection, and the user's settings are the in-memory settings |
| `StoreProperties.LoadAfterPersist` | hooks/useArchiveStore.ts:22-75 | after a fully written persist of a state owned by the user, load gives back its profiles (defaulted), trees, posts and settings |
| `StoreProperties.NormalizeAllFixpoint` | hooks/useArchiveStore.ts:25-34 | defaulting a list of complete profiles changes nothing |
| `StoreProperties.RoundTripIff` | hooks/useArchiveStore.ts:22-75 | load after a fully written persist returns exactly the persisted state if and only if the state is owned by the user and its profiles are complete |
| `StoreProperties.MergedStableIff` | hooks/useArchiveStore.ts:47-69 | re-merging the written lists changes nothing exactly when the state is owned by the user |
| `StoreProperties.PersistHeld` | hooks/useArchiveStore.ts:44-84 | persisting over storage that already holds the pass's lists, and that the medium accepts, changes nothing |
| `StoreProperties.PersistIdempotent` | hooks/useArchiveStore.ts:44-84 | after a fully written pass of a state owned by the user, persisting the same state again leaves storage unchanged |
| `StoreProperties.PersistTwiceIff` | hooks/useArchiveStore.ts:44-84 | without a capacity limit, a second persist of the same state changes nothing if and only if every in-memory record, the settings included, belongs to the user |
| `StoreProperties.SlotIsolation` | hooks/useArchiveStore.ts:48-51 | a key that kept its value or got the merged list shows every other user the same records as before |
| `StoreProperties.PersistIsolation` | hooks/useArchiveStore.ts:44-84 | whatever the medium accepts, a persist for one user leaves every other user's records in every key unchanged and in order, provided the in-memory state holds none of them |
| `StoreProperties.SlotKeepsOthers` | hooks/useArchiveStore.ts:48-51 | a key that kept its value or got a merged list of the user's own records holds the same records of other users, in the same relative order |
| `StoreProperties.PersistKeepsOthers` | hooks/useArchiveStore.ts:44-84 | whatever the medium accepts, a persist of a state owned by the user leaves the subsequence of other users' records in every key unchanged, including the interleaving of different users |
| `StoreProperties.WritePrefixes` | hooks/useArchiveStore.ts:72-75 | the storage after the first one, two or three writes of the block |
| `StoreProperties.QuotaFallback` | hooks/useArchiveStore.ts:71-83 | when the block stops at write `n`, the earlier writes stay, the later ones are skipped, and the trees retry helps only when the profiles write was the one refused |
| `StoreProperties.AddPostOrder` | hooks/useArchiveStore.ts:86-88 | two posts added in turn appear newest first, ahead of the old feed |
| `StoreProperties.AddPostOwnedIff` | hooks/useArchiveStore.ts:86-88 | adding a post keeps the state owned by the user exactly when the post is the user's |
| `StoreProperties.DeletePostNoopIff` | hooks/useArchiveStore.ts:90-92 | deleting leaves the state unchanged exactly when no post has the id |
| `StoreProperties.DeletePostOrder` | hooks/useArchiveStore.ts:90-92 | deleting from a concatenated feed deletes from each part, so the order of the remaining posts is kept |
| `StoreProperties.DeletePostKeepsOwned` | hooks/useArchiveStore.ts:90-92 | deleting keeps a state owned by its user |
| `StoreProperties.UpdatePostAbsentNoop` | hooks/useArchiveStore.ts:94-96 | updating an id that no post has leaves the state unchanged |
| `StoreProperties.UpdatePostOwnedIff` | hooks/useArchiveStore.ts:94-96 | when some post has the id, an update keeps the state owned by the user exactly when the patch does not move the post to another owner |
| `StoreProperties.ActiveProfilePicksFirst` | hooks/useArchiveStore.ts:98-101 | the active profile is the first profile carrying the pointer's id |
| `StoreProperties.SelectedTreePicksFirst` | hooks/useArchiveStore.ts:103-106 | the selected tree is the first tree carrying the pointer's id |
| `StoreProperties.TreeForViewPicksFirst` | hooks/useArchiveStore.ts:108-111 | the tree for the tree view is the first tree carrying the view pointer's id |
| `StoreProperties.ClearedMerged` | hooks/useArchiveStore.ts:113-121 | the lists a pass writes after the reset hold no record of the user, and the empty user id's settings gain the reset record |
| `StoreProperties.ClearedSettings` | hooks/useArchiveStore.ts:66-69 | merging the reset settings record leaves the user no settings and appends one record to the empty user id's settings |
| `StoreProperties.LoadAfterClear` | hooks/useArchiveStore.ts:15-41 | loading for a user without stored records after a reset gives the reset state with default settings owned by that user |
| `StoreProperties.ClearThenPersist` | hooks/useArchiveStore.ts:113-121 | after a reset and a fully written persist, the user has no records in any key, every other non-empty user keeps its records in all four keys, the empty user id gains one settings record, and a later load gives the corrected reset state |
| `StoreProperties.ClearAllForThenPersist` | hooks/useArchiveStore.ts:113-121 | after the corrected reset and a fully written persist, the user has no records, one default settings record, every other user keeps its records in all four keys, and a second persist changes nothing |
| `StoreProperties.ClearedPersistGrows` | hooks/useArchiveStore.ts:113-121 | after the reset as written, each further persist appends one more settings record |
| `Session.SwitchUserAsWritten` | hooks/useArchiveStore.ts:15-84 | the user change as React runs it (the switching commit's load pass and its persist pass over the previous state, followed by the next commit's persist of the loaded state) fails exactly on corrupt storage and leaves an in-memory state owned by the new user |
| `Session.SwitchUser` | hooks/useArchiveStore.ts:15-84 | the intended user change (load, then persist the loaded state) fails exactly on corrupt storage and leaves a state owned by the new user |
| `Session.SwitchUserIsolation` | hooks/useArchiveStore.ts:15-84 | with the intended user change, no other user's records change in any key, whatever the medium accepts |
| `Session.SwitchUserKeepsOwn` | hooks/useArchiveStore.ts:15-84 | with the intended user change and no capacity limit, the new user's stored trees and posts are unchanged |
| `Session.LoadOther` | hooks/useArchiveStore.ts:15-41 | a user whose storage holds only another user's profile loads no profile and default settings, keeping the pointers |
| `Session.StalePass` | hooks/useArchiveStore.ts:44-84 | the persist pass of the switching commit, run with the previous user's profile under the new user, appends that profile a second time |
| `Session.KeepsProfiles` | hooks/useArchiveStore.ts:47-51 | whatever the medium accepts, persisting a state without profiles leaves the stored profiles as they were when none of them is the user's |
| `Session.AsWrittenTwice` | hooks/useArchiveStore.ts:15-84 | switching as written from user `a`, whose only stored record is profile `p`, to another user stores `p` twice |
| `Session.IntendedOnce` | hooks/useArchiveStore.ts:15-84 | the intended switch in the same situation stores `p` once |
| `Session.StaleMountPass` | hooks/useArchiveStore.ts:44-84 | the persist pass of the first commit after mounting writes the fresh state's settings record (line 12), owned by the empty id, after the stored ones |
| `Session.MountAddsUnowned` | hooks/useArchiveStore.ts:12-84 | mounting with a user present, as written, stores exactly one more settings record owned by the empty id |
| `Session.SwitchUserAsWrittenDuplicates` | hooks/useArchiveStore.ts:15-84 | for every profile `p` of user `a` and every other user `b`, switching as written and switching as intended leave different stored profile lists |

## Left out

- React mechanics are not modelled. That covers `useState`, the
  dependency comparison of `useEffect`, and the referential stability of
  `useCallback` and `useMemo`. Load and persist are functions the caller
  applies; `Session` fixes the order in which one commit runs them.
- The raw setters the hook returns (`setProfiles`, `setActiveProfileId`
  and the others, lines 123-133) are not operations of their own. Each
  one replaces one field of `ArchiveStore.State`.
- JSON text, `JSON.stringify` and the real byte quota are abstracted. A
  slot holds the parsed list, or a marker that parsing fails. The quota is
  the `fits` predicate on the storage a write would produce, so a write
  refused once is refused again from the same storage.
- A stored value that parses but is not a list of the expected shape is
  not modelled. The source casts it without checking.
- Record contents beyond id, owner and the defaulted profile fields are an
  opaque payload. This covers names, dates, post text and tree structure.
- `Records.ApplyPatch`: a patch key set explicitly to `undefined` (which
  would clear the field) is not modelled. A patch replaces the post's
  opaque payload as a whole instead of field by field.
- `StoreProperties.PersistIdempotent`: idempotence and the round trip are
  stated only for passes whose four writes were all accepted. After a
  partial write the storage is a mix, and the source promises nothing
  about it.
- Error logging through `console.error` is not modelled. It has no effect
  on state or storage.
- The presentation view (`views/FamilyCircleView.tsx`) is not modelled. It
  only computes a title fallback and count labels.
- Referential integrity of profile relationship ids is not checked by the
  source and is not modelled.
- Concurrent writers in other tabs or windows are not modelled.

## Findings

| source | as written | input that shows it | evidently intended | confidence | as-written member | corrected member |
|---|---|---|---|---|---|---|
| hooks/useArchiveStore.ts:15-84 | When the user changes, the persist effect of that same commit still sees the previous user's collections and merges them under the new user's id. The previous user's records are appended a second time, and the new user's stored records are deleted until the next pass. | Switch from user "a", holding one profile, to user "b" with no capacity limit: "a"'s profile ends up stored twice. | A user change persists only the state loaded for the new user, so no other user's stored records change. | medium, not executed; assumes React runs both effects of the switching commit against that render's state | `Session.SwitchUserAsWritten`, shown by `Session.SwitchUserAsWrittenDuplicates` | `Session.SwitchUser`, proved by `Session.SwitchUserIsolation` |
| hooks/useArchiveStore.ts:113-121 | `clearAll` gives the settings the owner `''`. Persist never removes records of that owner, so every persist after a reset appends one more settings record. | Reset, then persist twice for user "u" with no capacity limit: the settings list grows by one on the second pass. The initial state (line 12) has the same owner, so mounting the store with a user present also stores one more such record. | The reset settings belong to the active user, so persisting is idempotent and no stray records pile up. | medium, not executed | `ArchiveStore.ClearAll`, shown by `StoreProperties.ClearedPersistGrows` and `Session.MountAddsUnowned` | `ArchiveStore.ClearAllFor`, proved by `StoreProperties.ClearAllForThenPersist` |
