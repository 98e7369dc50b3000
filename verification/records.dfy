/** The records the archive keeps, one datatype per stored entity. Only the
    fields the store reads or defaults are spelled out; the remaining fields
    travel through the store untouched as an opaque payload. */
module Records {
  import opened Wrappers

  type Id = string
  type UserId = string

  /** Fields the store never inspects (names, dates, tree structure, ...). */
  datatype Payload = Payload(json: string)

  /** A profile as it is found in storage: records written by older versions
      of the application may lack the relationship, media and banner fields,
      so each of them is optional. */
  datatype Profile = Profile(
    id: Id,
    userId: UserId,
    parentIds: Option<seq<Id>>,
    childIds: Option<seq<Id>>,
    spouseIds: Option<seq<Id>>,
    timeline: Option<seq<Payload>>,
    memories: Option<seq<Payload>>,
    media: Option<seq<Payload>>,
    bannerUrl: Option<string>,
    rest: Payload)

  datatype FamilyTree = FamilyTree(id: Id, userId: UserId, rest: Payload)

  datatype CirclePost = CirclePost(id: Id, userId: UserId, rest: Payload)

  /** A partial post: each present field overrides the post's own. */
  datatype PostPatch = PostPatch(id: Option<Id>, userId: Option<UserId>, rest: Option<Payload>)

  datatype CircleSettings = CircleSettings(userId: UserId, title: string, bannerUrl: string)

  const DefaultTitle: string := "Family Circle"

  /** The settings a tenant without a stored settings record sees. */
  function DefaultSettings(u: UserId): (r: CircleSettings)
    ensures r.userId == u && r.title == "Family Circle" && r.bannerUrl == ""
  {
    CircleSettings(u, DefaultTitle, "")
  }

  // Keys the store partitions and looks records up by.
  function ProfileOwner(p: Profile): UserId { p.userId }
  function TreeOwner(t: FamilyTree): UserId { t.userId }
  function PostOwner(p: CirclePost): UserId { p.userId }
  function SettingsOwner(s: CircleSettings): UserId { s.userId }
  function ProfileId(p: Profile): Id { p.id }
  function TreeId(t: FamilyTree): Id { t.id }
  function PostId(p: CirclePost): Id { p.id }

  /** Every optional profile field is present. */
  predicate Normalized(p: Profile) {
    && p.parentIds.Some? && p.childIds.Some? && p.spouseIds.Some?
    && p.timeline.Some? && p.memories.Some? && p.media.Some?
    && p.bannerUrl.Some?
  }

  /** The defaulting applied to each profile on load: absent lists become
      empty, an absent banner becomes the empty string, present fields stay. */
  function Normalize(p: Profile): (r: Profile)
    ensures Normalized(r)
    ensures r.id == p.id && r.userId == p.userId && r.rest == p.rest
    ensures p.parentIds.Some? ==> r.parentIds == p.parentIds
    ensures p.childIds.Some? ==> r.childIds == p.childIds
    ensures p.spouseIds.Some? ==> r.spouseIds == p.spouseIds
    ensures p.timeline.Some? ==> r.timeline == p.timeline
    ensures p.memories.Some? ==> r.memories == p.memories
    ensures p.media.Some? ==> r.media == p.media
    ensures p.bannerUrl.Some? ==> r.bannerUrl == p.bannerUrl
    ensures p.parentIds.None? ==> r.parentIds == Some([])
    ensures p.childIds.None? ==> r.childIds == Some([])
    ensures p.spouseIds.None? ==> r.spouseIds == Some([])
    ensures p.timeline.None? ==> r.timeline == Some([])
    ensures p.memories.None? ==> r.memories == Some([])
    ensures p.media.None? ==> r.media == Some([])
    ensures p.bannerUrl.None? ==> r.bannerUrl == Some("")
  {
    p.(parentIds := Some(Or(p.parentIds, [])),
       childIds := Some(Or(p.childIds, [])),
       spouseIds := Some(Or(p.spouseIds, [])),
       timeline := Some(Or(p.timeline, [])),
       memories := Some(Or(p.memories, [])),
       media := Some(Or(p.media, [])),
       bannerUrl := Some(Or(p.bannerUrl, "")))
  }

  /** Normalizing is the identity exactly on normalized profiles. */
  lemma NormalizeFixpoint(p: Profile)
    ensures Normalize(p) == p <==> Normalized(p)
    ensures Normalize(Normalize(p)) == Normalize(p)
  {
  }

  /** `{ ...post, ...patch }`: the patch's present fields win. */
  function ApplyPatch(p: CirclePost, patch: PostPatch): (r: CirclePost)
    ensures patch.id.None? ==> r.id == p.id
    ensures patch.userId.None? ==> r.userId == p.userId
    ensures patch.rest.None? ==> r.rest == p.rest
    ensures patch.id.Some? ==> r.id == patch.id.value
    ensures patch.userId.Some? ==> r.userId == patch.userId.value
    ensures patch.rest.Some? ==> r.rest == patch.rest.value
  {
    CirclePost(Or(patch.id, p.id), Or(patch.userId, p.userId), Or(patch.rest, p.rest))
  }
}
