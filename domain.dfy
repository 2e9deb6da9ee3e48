/**
 * The client-side entities of the community app and the mappers that turn the
 * server's loosely typed records into them, substituting fallback values.
 *
 * A raw record lists, as optional strings, the keys a mapper reads; the
 * server's `_id` key is called `dbId`. Where a mapper would draw a random id
 * (`Math.random().toString(36).slice(2)`) or the current time
 * (`new Date().toISOString()`), the value is a parameter.
 */
module Domain {
  import opened Wrappers
  import opened Text

  // ---------------------------------------------------------------- entities

  datatype UserRole = AdminRole | MemberRole | GuestRole

  datatype Comment = Comment(id: string, author: string, message: string, createdAt: string)

  datatype Post = Post(
    id: string, title: string, content: string, image: Option<string>,
    comments: seq<Comment>, createdAt: Option<string>)

  datatype Event = Event(
    id: string, title: string, description: string, startsAt: string,
    location: string, coverImage: Option<string>)

  datatype MediaType = Image | Video

  datatype MediaItem = MediaItem(
    id: string, mediaType: MediaType, title: string, url: string, description: Option<string>)

  datatype MemberStatus = Active | Pending | Inactive

  datatype Member = Member(
    id: string, name: string, email: string, phoneNumber: Option<string>,
    monthlyContribution: int, status: MemberStatus, avatar: Option<string>,
    roleLabel: Option<string>)

  datatype DonationRecord = DonationRecord(
    id: string, memberId: string, memberName: string, month: string,
    monthlyStatus: string, amount: int, notedBy: string)

  datatype BankDetail = BankDetail(
    bankName: string, accountName: string, accountNumber: string,
    ifsc: Option<string>, swift: Option<string>)

  datatype ReliefFund = ReliefFund(
    id: string, title: string, description: string, goal: int, raised: int,
    contactEmail: Option<string>, bankDetails: seq<BankDetail>)

  /** Keys of the collections, for the list-update rules. */
  function PostId(p: Post): string { p.id }
  function EventId(e: Event): string { e.id }
  function MediaId(m: MediaItem): string { m.id }
  function MemberId(m: Member): string { m.id }
  function DonationId(d: DonationRecord): string { d.id }
  function DonationMemberId(d: DonationRecord): string { d.memberId }

  /** The status as the server spells it (`'active' | 'pending' | 'inactive'`). */
  function StatusName(s: MemberStatus): string {
    match s
    case Active => "active"
    case Pending => "pending"
    case Inactive => "inactive"
  }

  // ------------------------------------------------------------- raw records

  /** A JSON value where the mapper only asks whether it is a string. */
  datatype FieldValue = StringValue(s: string) | OtherValue

  /** The outcome of `Number(value)` for a JSON field: absent, a number, or NaN. */
  datatype NumericField = Missing | Numeric(n: int) | NonNumeric

  datatype RawUser = RawUser(userName: Option<string>)

  datatype RawComment = RawComment(
    dbId: Option<string>, id: Option<string>, userId: Option<RawUser>,
    author: Option<string>, text: Option<string>, message: Option<string>,
    createdAt: Option<string>)

  datatype RawFeed = RawFeed(
    dbId: Option<string>, id: Option<string>, title: Option<string>,
    description: Option<string>, media: Option<string>, createdAt: Option<string>)

  datatype RawEvent = RawEvent(
    dbId: Option<string>, id: Option<string>, title: Option<string>,
    description: Option<string>, date: Option<string>, startsAt: Option<string>,
    location: Option<string>, cover: Option<string>, coverImage: Option<string>,
    media: Option<string>)

  datatype RawMedia = RawMedia(
    dbId: Option<string>, id: Option<string>, title: Option<string>,
    description: Option<string>, media: Option<string>, url: Option<string>)

  datatype RawMember = RawMember(
    dbId: Option<string>, id: Option<string>, userName: Option<string>,
    name: Option<string>, email: Option<string>, phoneNumber: Option<string>,
    role: Option<string>, status: Option<string>, media: Option<string>)

  datatype RawMemberRef = RawMemberRef(
    dbId: Option<string>, id: Option<string>, userName: Option<string>, name: Option<string>)

  datatype RawCollection = RawCollection(
    dbId: Option<string>, id: Option<string>, member: Option<RawMemberRef>,
    monthlyAmount: Option<FieldValue>, bhawanAmount: NumericField, date: Option<string>)

  datatype RawBankDetail = RawBankDetail(
    bankName: Option<string>, accountName: Option<string>, accountNumber: Option<string>,
    ifsc: Option<string>, swift: Option<string>)

  datatype RawFund = RawFund(
    dbId: Option<string>, id: Option<string>, title: Option<string>,
    description: Option<string>, goal: NumericField, raised: NumericField,
    contactEmail: Option<string>, bankDetails: Option<seq<RawBankDetail>>)

  // ----------------------------------------------------------------- mappers

  /** `_id ?? id ?? <random>`. */
  function RecordId(dbId: Option<string>, id: Option<string>, freshId: string): string {
    dbId.Or(id).GetOr(freshId)
  }

  /** `Number(x ?? 0) || 0`: NaN and absence both give 0. */
  function NumberOrZero(x: NumericField): (n: int)
    ensures x.Numeric? ==> n == x.n
    ensures !x.Numeric? ==> n == 0
  {
    match x
    case Numeric(v) => v
    case _ => 0
  }

  function MapFeedToPost(feed: RawFeed, comments: seq<Comment>, freshId: string): Post {
    Post(
      id := RecordId(feed.dbId, feed.id, freshId),
      title := feed.title.GetOr("Untitled"),
      content := feed.description.GetOr(""),
      image := feed.media,
      comments := comments,
      createdAt := feed.createdAt)
  }

  function MapComment(comment: RawComment, freshId: string, now: string): Comment {
    var nestedName := if comment.userId.Some? then comment.userId.value.userName else None;
    Comment(
      id := RecordId(comment.dbId, comment.id, freshId),
      author := nestedName.Or(comment.author).GetOr("Member"),
      message := comment.text.Or(comment.message).GetOr(""),
      createdAt := comment.createdAt.GetOr(now))
  }

  /** `data.map(mapComment)`, comment `j` drawing its fallback id from `freshIds(j)`. */
  function MapComments(raw: seq<RawComment>, freshIds: nat -> string, now: string): seq<Comment> {
    seq(|raw|, j requires 0 <= j < |raw| => MapComment(raw[j], freshIds(j), now))
  }

  /** `data.map(mapEvent)`, event `i` drawing its fallback id from `freshIds(i)`. */
  function MapEvents(raw: seq<RawEvent>, freshIds: nat -> string, now: string): seq<Event> {
    seq(|raw|, i requires 0 <= i < |raw| => MapEvent(raw[i], freshIds(i), now))
  }

  function MapEvent(event: RawEvent, freshId: string, now: string): Event {
    Event(
      id := RecordId(event.dbId, event.id, freshId),
      title := event.title.GetOr("Untitled"),
      description := event.description.GetOr(""),
      startsAt := event.date.Or(event.startsAt).GetOr(now),
      location := event.location.GetOr("TBD"),
      coverImage := event.cover.Or(event.coverImage).Or(event.media))
  }

  /** `data.map(mapMedia)`. */
  function MapMediaItems(raw: seq<RawMedia>, freshIds: nat -> string): seq<MediaItem> {
    seq(|raw|, i requires 0 <= i < |raw| => MapMedia(raw[i], freshIds(i)))
  }

  function MapMedia(item: RawMedia, freshId: string): MediaItem {
    var url := item.media.Or(item.url).GetOr("");
    MediaItem(
      id := RecordId(item.dbId, item.id, freshId),
      mediaType := if url != "" && Contains(url, ".mp4") then Video else Image,
      title := item.title.GetOr("Media"),
      url := url,
      description := Some(item.description.GetOr("")))
  }

  /** The free-text role heuristic; "pending" is looked for before "inactive". */
  function NormalizeMemberRole(role: Option<string>): MemberStatus {
    if !IsTruthy(role) then Active
    else
      var lowered := Lower(role.value);
      if Contains(lowered, "pending") then Pending
      else if Contains(lowered, "inactive") then Inactive
      else Active
  }

  /** `data.map(mapMember)`. */
  function MapMembers(raw: seq<RawMember>, freshIds: nat -> string): seq<Member> {
    seq(|raw|, i requires 0 <= i < |raw| => MapMember(raw[i], freshIds(i)))
  }

  function MapMember(member: RawMember, freshId: string): Member {
    Member(
      id := RecordId(member.dbId, member.id, freshId),
      name := member.userName.Or(member.name).GetOr("Member"),
      email := member.email.GetOr("n/a"),
      phoneNumber := member.phoneNumber,
      monthlyContribution := 0,
      status := NormalizeMemberRole(member.role.Or(member.status)),
      avatar := member.media,
      roleLabel := member.role)
  }

  /** `data.map(mapCollection)`. */
  function MapCollections(raw: seq<RawCollection>, freshIds: nat -> string): seq<DonationRecord> {
    seq(|raw|, i requires 0 <= i < |raw| => MapCollection(raw[i], freshIds(i)))
  }

  function MapCollection(collection: RawCollection, freshId: string): (d: DonationRecord)
    ensures d.notedBy == d.monthlyStatus
  {
    var member := collection.member.GetOr(RawMemberRef(None, None, None, None));
    var monthlyAmount := collection.monthlyAmount.GetOr(StringValue("Pending"));
    var status := if monthlyAmount.StringValue? then monthlyAmount.s else "Pending";
    DonationRecord(
      id := RecordId(collection.dbId, collection.id, freshId),
      memberId := member.dbId.Or(member.id).GetOr("unknown"),
      memberName := member.userName.Or(member.name).GetOr("Member"),
      month := collection.date.GetOr(""),
      monthlyStatus := status,
      amount := NumberOrZero(collection.bhawanAmount),
      notedBy := status)
  }

  function MapBankDetail(detail: RawBankDetail): BankDetail {
    BankDetail(
      bankName := detail.bankName.GetOr("Bank"),
      accountName := detail.accountName.GetOr("Account"),
      accountNumber := detail.accountNumber.GetOr("N/A"),
      ifsc := detail.ifsc,
      swift := detail.swift)
  }

  function MapReliefFund(fund: RawFund, freshId: string): (f: ReliefFund)
    ensures fund.bankDetails.None? ==> f.bankDetails == []
    ensures fund.bankDetails.Some? ==> |f.bankDetails| == |fund.bankDetails.value|
  {
    var details := fund.bankDetails.GetOr([]);
    ReliefFund(
      id := RecordId(fund.dbId, fund.id, freshId),
      title := fund.title.GetOr("Relief appeal"),
      description := fund.description.GetOr(""),
      goal := NumberOrZero(fund.goal),
      raised := NumberOrZero(fund.raised),
      contactEmail := fund.contactEmail,
      bankDetails := seq(|details|, i requires 0 <= i < |details| => MapBankDetail(details[i])))
  }

  // -------------------------------------------------------------- properties

  /**
   * The role heuristic, case by case, against `OccursAt`: an absent or empty role
   * is active; otherwise "pending" anywhere in the lower-cased text wins, then
   * "inactive", and anything else is active.
   */
  lemma NormalizeMemberRoleSpec(role: Option<string>)
    ensures !IsTruthy(role) ==> NormalizeMemberRole(role) == Active
    ensures IsTruthy(role) ==>
      (NormalizeMemberRole(role) == Pending <==>
        exists i :: OccursAt(Lower(role.value), "pending", i))
    ensures IsTruthy(role) ==>
      (NormalizeMemberRole(role) == Inactive <==>
        && !(exists i :: OccursAt(Lower(role.value), "pending", i))
        && exists i :: OccursAt(Lower(role.value), "inactive", i))
    ensures IsTruthy(role) ==>
      (NormalizeMemberRole(role) == Active <==>
        && !(exists i :: OccursAt(Lower(role.value), "pending", i))
        && !(exists i :: OccursAt(Lower(role.value), "inactive", i)))
  {
    if IsTruthy(role) {
      ContainsIff(Lower(role.value), "pending");
      ContainsIff(Lower(role.value), "inactive");
    }
  }

  /** Matching ignores case, and "pending" wins over "inactive" when both occur. */
  lemma PendingBeatsInactive()
    ensures NormalizeMemberRole(Some("INACTIVE, PENDING")) == Pending
  {
    var lowered := Lower("INACTIVE, PENDING");
    assert lowered == "inactive, pending";
    assert OccursAt(lowered, "pending", 10);
    ContainsIff(lowered, "pending");
  }

  /** A status written out as the server spells it normalizes back to itself. */
  lemma StatusNameRoundTrip(s: MemberStatus)
    ensures NormalizeMemberRole(Some(StatusName(s))) == s
  {
    var name := StatusName(s);
    LowerOfLowercase(name);
    match s
    case Active =>
      ContainsNotLonger(name, "pending");
      ContainsNotLonger(name, "inactive");
    case Pending =>
      assert StartsWith(name, "pending");
    case Inactive =>
      ContainsNotLonger(name[2..], "pending");
      assert name[1..][..7][0] == 'n';
      assert StartsWith(name, "inactive");
  }

  /**
   * `mapMember`: the name is `userName ?? name ?? "Member"`, status comes from
   * `role ?? status`, the contribution is always 0, a missing email reads "n/a",
   * phone and avatar pass through; a record echoing a status keeps it.
   */
  lemma MapMemberSpec(member: RawMember, freshId: string)
    ensures MapMember(member, freshId).id == RecordId(member.dbId, member.id, freshId)
    ensures member.userName.Some? ==> MapMember(member, freshId).name == member.userName.value
    ensures member.userName.None? && member.name.Some? ==> MapMember(member, freshId).name == member.name.value
    ensures member.userName.None? && member.name.None? ==> MapMember(member, freshId).name == "Member"
    ensures MapMember(member, freshId).phoneNumber == member.phoneNumber
    ensures MapMember(member, freshId).avatar == member.media
    ensures MapMember(member, freshId).monthlyContribution == 0
    ensures MapMember(member, freshId).roleLabel == member.role
    ensures member.role.None? && member.status.None? ==> MapMember(member, freshId).status == Active
    ensures MapMember(member, freshId).email == (if member.email.Some? then member.email.value else "n/a")
    ensures member.role.Some? ==>
      MapMember(member, freshId).status == NormalizeMemberRole(member.role)
    ensures member.role.None? ==>
      MapMember(member, freshId).status == NormalizeMemberRole(member.status)
    ensures forall s :: member.role.None? && member.status == Some(StatusName(s)) ==>
      MapMember(member, freshId).status == s
  {
    forall s | member.role.None? && member.status == Some(StatusName(s))
      ensures MapMember(member, freshId).status == s
    {
      StatusNameRoundTrip(s);
    }
  }

  /**
   * `mapMedia`: the url is `media ?? url ?? ''`, and the item is a video exactly
   * when that url is non-empty and has ".mp4" somewhere in it; a missing title
   * reads "Media" and a missing description "".
   */
  lemma MapMediaSpec(item: RawMedia, freshId: string)
    ensures MapMedia(item, freshId).url ==
      (if item.media.Some? then item.media.value
       else if item.url.Some? then item.url.value else "")
    ensures MapMedia(item, freshId).mediaType == Video <==>
      var url := MapMedia(item, freshId).url;
      url != "" && exists i :: OccursAt(url, ".mp4", i)
    ensures MapMedia(item, freshId).id == RecordId(item.dbId, item.id, freshId)
    ensures item.title.Some? ==> MapMedia(item, freshId).title == item.title.value
    ensures item.title.None? ==> MapMedia(item, freshId).title == "Media"
    ensures item.description.Some? ==> MapMedia(item, freshId).description == Some(item.description.value)
    ensures item.description.None? ==> MapMedia(item, freshId).description == Some("")
  {
    ContainsIff(MapMedia(item, freshId).url, ".mp4");
  }

  /**
   * `mapCollection`: the status is `monthlyAmount` when it is a string and
   * "Pending" otherwise, `notedBy` repeats it, a member without `_id`/`id` gives
   * "unknown", its name is `userName ?? name ?? "Member"`, the month is
   * `date ?? ''`, and a missing or non-numeric amount gives 0.
   */
  lemma MapCollectionSpec(collection: RawCollection, freshId: string)
    ensures var d := MapCollection(collection, freshId);
      && d.id == RecordId(collection.dbId, collection.id, freshId)
      && d.notedBy == d.monthlyStatus
      && (collection.monthlyAmount.Some? && collection.monthlyAmount.value.StringValue? ==>
            d.monthlyStatus == collection.monthlyAmount.value.s)
      && (!(collection.monthlyAmount.Some? && collection.monthlyAmount.value.StringValue?) ==>
            d.monthlyStatus == "Pending")
      && (collection.member.None? || (collection.member.value.dbId.None? && collection.member.value.id.None?) ==>
            d.memberId == "unknown")
      && (collection.member.Some? && collection.member.value.dbId.Some? ==>
            d.memberId == collection.member.value.dbId.value)
      && (collection.member.Some? && collection.member.value.dbId.None? && collection.member.value.id.Some? ==>
            d.memberId == collection.member.value.id.value)
      && (collection.bhawanAmount.Numeric? ==> d.amount == collection.bhawanAmount.n)
      && (!collection.bhawanAmount.Numeric? ==> d.amount == 0)
      && (collection.member.Some? && collection.member.value.userName.Some? ==>
            d.memberName == collection.member.value.userName.value)
      && (collection.member.Some? && collection.member.value.userName.None? && collection.member.value.name.Some? ==>
            d.memberName == collection.member.value.name.value)
      && (collection.member.None? || (collection.member.value.userName.None? && collection.member.value.name.None?) ==>
            d.memberName == "Member")
      && (collection.date.Some? ==> d.month == collection.date.value)
      && (collection.date.None? ==> d.month == "")
  {
  }

  /** `_id` wins over `id`, and the fresh id is used only when both are absent. */
  lemma RecordIdSpec(dbId: Option<string>, id: Option<string>, freshId: string)
    ensures dbId.Some? ==> RecordId(dbId, id, freshId) == dbId.value
    ensures dbId.None? && id.Some? ==> RecordId(dbId, id, freshId) == id.value
    ensures dbId.None? && id.None? ==> RecordId(dbId, id, freshId) == freshId
  {
  }

  /** `mapFeedToPost`, field by field, for any record: each missing key gets its fallback. */
  lemma MapFeedToPostSpec(feed: RawFeed, comments: seq<Comment>, freshId: string)
    ensures var p := MapFeedToPost(feed, comments, freshId);
      && p.id == RecordId(feed.dbId, feed.id, freshId)
      && (feed.title.Some? ==> p.title == feed.title.value)
      && (feed.title.None? ==> p.title == "Untitled")
      && (feed.description.Some? ==> p.content == feed.description.value)
      && (feed.description.None? ==> p.content == "")
      && p.image == feed.media && p.createdAt == feed.createdAt
      && p.comments == comments
  {
  }

  /** `mapComment`, field by field, for any record. */
  lemma MapCommentSpec(comment: RawComment, freshId: string, now: string)
    ensures var c := MapComment(comment, freshId, now);
      && c.id == RecordId(comment.dbId, comment.id, freshId)
      && (comment.userId.Some? && comment.userId.value.userName.Some? ==>
            c.author == comment.userId.value.userName.value)
      && ((comment.userId.None? || comment.userId.value.userName.None?) && comment.author.Some? ==>
            c.author == comment.author.value)
      && ((comment.userId.None? || comment.userId.value.userName.None?) && comment.author.None? ==>
            c.author == "Member")
      && (comment.text.Some? ==> c.message == comment.text.value)
      && (comment.text.None? && comment.message.Some? ==> c.message == comment.message.value)
      && (comment.text.None? && comment.message.None? ==> c.message == "")
      && (comment.createdAt.Some? ==> c.createdAt == comment.createdAt.value)
      && (comment.createdAt.None? ==> c.createdAt == now)
  {
  }

  /** `mapEvent`, field by field, for any record. */
  lemma MapEventSpec(event: RawEvent, freshId: string, now: string)
    ensures var e := MapEvent(event, freshId, now);
      && e.id == RecordId(event.dbId, event.id, freshId)
      && (event.title.Some? ==> e.title == event.title.value)
      && (event.title.None? ==> e.title == "Untitled")
      && (event.description.Some? ==> e.description == event.description.value)
      && (event.description.None? ==> e.description == "")
      && (event.date.Some? ==> e.startsAt == event.date.value)
      && (event.date.None? && event.startsAt.Some? ==> e.startsAt == event.startsAt.value)
      && (event.date.None? && event.startsAt.None? ==> e.startsAt == now)
      && (event.location.Some? ==> e.location == event.location.value)
      && (event.location.None? ==> e.location == "TBD")
      && (event.cover.Some? ==> e.coverImage == event.cover)
      && (event.cover.None? && event.coverImage.Some? ==> e.coverImage == event.coverImage)
      && (event.cover.None? && event.coverImage.None? ==> e.coverImage == event.media)
  {
  }

  /** `mapReliefFund`, field by field, including every bank detail, for any record. */
  lemma MapReliefFundSpec(fund: RawFund, freshId: string)
    ensures var f := MapReliefFund(fund, freshId);
      && f.id == RecordId(fund.dbId, fund.id, freshId)
      && (fund.title.Some? ==> f.title == fund.title.value)
      && (fund.title.None? ==> f.title == "Relief appeal")
      && (fund.description.Some? ==> f.description == fund.description.value)
      && (fund.description.None? ==> f.description == "")
      && (fund.goal.Numeric? ==> f.goal == fund.goal.n)
      && (!fund.goal.Numeric? ==> f.goal == 0)
      && (fund.raised.Numeric? ==> f.raised == fund.raised.n)
      && (!fund.raised.Numeric? ==> f.raised == 0)
      && f.contactEmail == fund.contactEmail
    ensures fund.bankDetails.Some? ==> forall i :: 0 <= i < |fund.bankDetails.value| ==>
      var raw, d := fund.bankDetails.value[i], MapReliefFund(fund, freshId).bankDetails[i];
      && (raw.bankName.Some? ==> d.bankName == raw.bankName.value)
      && (raw.bankName.None? ==> d.bankName == "Bank")
      && (raw.accountName.Some? ==> d.accountName == raw.accountName.value)
      && (raw.accountName.None? ==> d.accountName == "Account")
      && (raw.accountNumber.Some? ==> d.accountNumber == raw.accountNumber.value)
      && (raw.accountNumber.None? ==> d.accountNumber == "N/A")
      && d.ifsc == raw.ifsc && d.swift == raw.swift
  {
  }

  /** Every mapper's fallbacks, on a record with no keys at all. */
  lemma MapperFallbacks(freshId: string, now: string, comments: seq<Comment>)
    ensures MapFeedToPost(RawFeed(None, None, None, None, None, None), comments, freshId)
      == Post(freshId, "Untitled", "", None, comments, None)
    ensures MapComment(RawComment(None, None, None, None, None, None, None), freshId, now)
      == Comment(freshId, "Member", "", now)
    ensures MapEvent(RawEvent(None, None, None, None, None, None, None, None, None, None), freshId, now)
      == Event(freshId, "Untitled", "", now, "TBD", None)
    ensures MapMedia(RawMedia(None, None, None, None, None, None), freshId)
      == MediaItem(freshId, Image, "Media", "", Some(""))
    ensures MapMember(RawMember(None, None, None, None, None, None, None, None, None), freshId)
      == Member(freshId, "Member", "n/a", None, 0, Active, None, None)
    ensures MapCollection(RawCollection(None, None, None, None, Missing, None), freshId)
      == DonationRecord(freshId, "unknown", "Member", "", "Pending", 0, "Pending")
    ensures MapReliefFund(RawFund(None, None, None, None, Missing, Missing, None, None), freshId)
      == ReliefFund(freshId, "Relief appeal", "", 0, 0, None, [])
  {
  }

  /** A record that carries every key the server's way maps back to the same entity. */
  lemma MappersKeepServerValues(p: Post, c: Comment, e: Event, m: Member, freshId: string, now: string)
    requires m.monthlyContribution == 0 && m.roleLabel == Some(StatusName(m.status))
    ensures MapFeedToPost(RawFeed(Some(p.id), None, Some(p.title), Some(p.content), p.image, p.createdAt),
                          p.comments, freshId) == p
    ensures MapComment(RawComment(Some(c.id), None, Some(RawUser(Some(c.author))), None, Some(c.message),
                                  None, Some(c.createdAt)), freshId, now) == c
    ensures MapEvent(RawEvent(Some(e.id), None, Some(e.title), Some(e.description), Some(e.startsAt),
                              None, Some(e.location), e.coverImage, None, None), freshId, now) == e
    ensures MapMember(RawMember(Some(m.id), None, Some(m.name), None, Some(m.email), m.phoneNumber,
                                m.roleLabel, None, m.avatar), freshId) == m
  {
    StatusNameRoundTrip(m.status);
  }
}
