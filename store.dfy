/**
 * The application-state provider: one object holding every collection the
 * screens read, and the actions that change them. Each action first calls the
 * server; that call's reply is a parameter (`Reply` for one that returns data,
 * `Outcome` for one that does not). A failed call makes the action throw and
 * leaves the state as it was, except the comment fetches of `loadFeeds` and
 * `addPost`, whose failure is swallowed and gives the post no comments.
 */
module Store {
  import opened Wrappers
  import opened Text
  import opened Domain
  import Lists
  import Api

  /** The reply of one server call: its data, or the error `request` throws. */
  datatype Reply<T> = Ok(data: T) | Failed(message: string)

  /** How an action's promise settles. */
  datatype Outcome = Done | Threw(message: string)

  /** The JSON body `createComment` sends. */
  datatype CommentPayload = CommentPayload(feedId: string, text: string, userId: Option<string>)

  /** The JSON body `createCollection` sends. */
  datatype NewCollection = NewCollection(memberId: string, bhawanAmount: int, date: string, monthlyAmount: string)

  /** The JSON body `updateCollection` sends. */
  datatype CollectionUpdate = CollectionUpdate(collectionId: string, bhawanAmount: int, date: string, monthlyAmount: string)

  /** A source of random fallback ids, one per position. */
  type IdSource = nat -> string

  /** The fallback-id sources of one refresh, one per load. */
  datatype RefreshIds = RefreshIds(
    feedIds: IdSource, commentIds: (nat, nat) -> string, eventIds: IdSource,
    mediaIds: IdSource, memberIds: IdSource, collectionIds: IdSource)

  type CommentsReply = Reply<Option<seq<RawComment>>>

  function Settled<T>(reply: Reply<T>): Outcome {
    match reply
    case Ok(_) => Done
    case Failed(m) => Threw(m)
  }

  /** The first failure of several calls, or `Done` when all succeeded. */
  function FirstFailure(outcomes: seq<Outcome>): (r: Outcome)
    ensures r.Done? <==> forall i :: 0 <= i < |outcomes| ==> outcomes[i].Done?
    ensures r.Threw? ==> exists i :: 0 <= i < |outcomes| && outcomes[i] == r
  {
    if outcomes == [] then Done
    else if outcomes[0].Threw? then outcomes[0]
    else
      var r := FirstFailure(outcomes[1..]);
      assert forall i :: 1 <= i < |outcomes| ==> outcomes[i] == outcomes[1..][i - 1];
      r
  }

  lemma FirstFailureOfFive(o1: Outcome, o2: Outcome, o3: Outcome, o4: Outcome, o5: Outcome)
    ensures FirstFailure([o1, o2, o3, o4, o5]).Done? <==> o1.Done? && o2.Done? && o3.Done? && o4.Done? && o5.Done?
  {
    var all := [o1, o2, o3, o4, o5];
    assert all[0] == o1 && all[1] == o2 && all[2] == o3 && all[3] == o4 && all[4] == o5;
  }

  /** The comments a post gets from one fetch: a failed fetch or a missing `data` gives none. */
  function FetchedComments(reply: CommentsReply, ids: IdSource, now: string): seq<Comment> {
    match reply
    case Failed(_) => []
    case Ok(None) => []
    case Ok(Some(raw)) => MapComments(raw, ids, now)
  }

  /** `commentsByFeed[i] ?? []`. */
  function CommentsForFeed(replies: seq<CommentsReply>, i: nat, ids: (nat, nat) -> string, now: string): seq<Comment> {
    if i < |replies| then FetchedComments(replies[i], (j: nat) => ids(i, j), now) else []
  }

  /** The posts `loadFeeds` builds: one per feed, in the feeds' order, each with its own fetch's comments. */
  function LoadedPosts(
    feeds: seq<RawFeed>, replies: seq<CommentsReply>, feedIds: IdSource,
    commentIds: (nat, nat) -> string, now: string): seq<Post>
  {
    seq(|feeds|, i requires 0 <= i < |feeds| =>
      MapFeedToPost(feeds[i], CommentsForFeed(replies, i, commentIds, now), feedIds(i)))
  }

  /** Every post with id `postId` gets `comments`; nothing else changes. */
  function WithComments(posts: seq<Post>, postId: string, comments: seq<Comment>): seq<Post> {
    seq(|posts|, i requires 0 <= i < |posts| =>
      if posts[i].id == postId then posts[i].(comments := comments) else posts[i])
  }

  /** `addMedia` does not upload a video that is already a web address. */
  function MediaUpload(mediaType: MediaType, file: Option<Api.FileDescriptor>): Option<Api.FileDescriptor> {
    if mediaType == Video && file.Some? && StartsWith(file.value.uri, "http") then None else file
  }

  /**
   * `{ ...response.data, description, title }`: the caller's title and description
   * over the server's record, which may be missing (spreading `undefined` adds no key).
   */
  function MediaRecord(data: Option<RawMedia>, title: string, description: Option<string>): RawMedia {
    data.GetOr(RawMedia(None, None, None, None, None, None)).(description := description, title := Some(title))
  }

  /** `status ?? (amount > 0 ? 'Paid' : 'Pending')` without the given status. */
  function DefaultDonationStatus(amount: int): (s: string)
    ensures s == "Paid" <==> amount > 0
    ensures s == "Paid" || s == "Pending"
  {
    if amount > 0 then "Paid" else "Pending"
  }

  class AppStore {
    var role: UserRole
    var loading: bool
    var posts: seq<Post>
    var events: seq<Event>
    var media: seq<MediaItem>
    var members: seq<Member>
    var donations: seq<DonationRecord>
    var reliefFunds: seq<ReliefFund>

    constructor ()
      ensures role == GuestRole && loading
      ensures posts == [] && events == [] && media == [] && members == []
      ensures donations == [] && reliefFunds == []
    {
      role, loading := GuestRole, true;
      posts, events, media, members, donations, reliefFunds := [], [], [], [], [], [];
    }

    method SetRole(r: UserRole)
      modifies this`role
      ensures role == r
    {
      role := r;
    }

    // ------------------------------------------------------------ loads

    method LoadFeeds(
      feedsReply: Reply<Option<seq<RawFeed>>>, commentReplies: seq<CommentsReply>,
      feedIds: IdSource, commentIds: (nat, nat) -> string, now: string)
      returns (outcome: Outcome)
      modifies this`posts
      ensures outcome == Settled(feedsReply)
      ensures feedsReply.Failed? ==> posts == old(posts)
      ensures feedsReply.Ok? ==> posts == LoadedPosts(feedsReply.data.GetOr([]), commentReplies, feedIds, commentIds, now)
    {
      match feedsReply
      case Failed(m) =>
        outcome := Threw(m);
      case Ok(data) =>
        posts := LoadedPosts(data.GetOr([]), commentReplies, feedIds, commentIds, now);
        outcome := Done;
    }

    method LoadEvents(reply: Reply<Option<seq<RawEvent>>>, ids: IdSource, now: string)
      returns (outcome: Outcome)
      modifies this`events
      ensures outcome == Settled(reply)
      ensures reply.Failed? ==> events == old(events)
      ensures reply.Ok? ==> events == MapEvents(reply.data.GetOr([]), ids, now)
    {
      if reply.Ok? {
        events := MapEvents(reply.data.GetOr([]), ids, now);
      }
      outcome := Settled(reply);
    }

    method LoadMedia(reply: Reply<Option<seq<RawMedia>>>, ids: IdSource)
      returns (outcome: Outcome)
      modifies this`media
      ensures outcome == Settled(reply)
      ensures reply.Failed? ==> media == old(media)
      ensures reply.Ok? ==> media == MapMediaItems(reply.data.GetOr([]), ids)
    {
      if reply.Ok? {
        media := MapMediaItems(reply.data.GetOr([]), ids);
      }
      outcome := Settled(reply);
    }

    method LoadMembers(reply: Reply<Option<seq<RawMember>>>, ids: IdSource)
      returns (outcome: Outcome)
      modifies this`members
      ensures outcome == Settled(reply)
      ensures reply.Failed? ==> members == old(members)
      ensures reply.Ok? ==> members == MapMembers(reply.data.GetOr([]), ids)
    {
      if reply.Ok? {
        members := MapMembers(reply.data.GetOr([]), ids);
      }
      outcome := Settled(reply);
    }

    method LoadCollections(reply: Reply<Option<seq<RawCollection>>>, ids: IdSource)
      returns (outcome: Outcome)
      modifies this`donations
      ensures outcome == Settled(reply)
      ensures reply.Failed? ==> donations == old(donations)
      ensures reply.Ok? ==> donations == MapCollections(reply.data.GetOr([]), ids)
    {
      if reply.Ok? {
        donations := MapCollections(reply.data.GetOr([]), ids);
      }
      outcome := Settled(reply);
    }

    /** There is no relief-fund route: the list is emptied. */
    method LoadReliefFunds()
      modifies this`reliefFunds
      ensures reliefFunds == []
    {
      reliefFunds := [];
    }

    /**
     * Every load runs; each one whose call succeeded replaces its collection,
     * the loading flag ends cleared, and the refresh fails when any load did.
     */
    method Refresh(
      feedsReply: Reply<Option<seq<RawFeed>>>, commentReplies: seq<CommentsReply>,
      eventsReply: Reply<Option<seq<RawEvent>>>, mediaReply: Reply<Option<seq<RawMedia>>>,
      membersReply: Reply<Option<seq<RawMember>>>, collectionsReply: Reply<Option<seq<RawCollection>>>,
      ids: RefreshIds, now: string)
      returns (outcome: Outcome)
      modifies this`loading, this`posts, this`events, this`media, this`members, this`donations, this`reliefFunds
      ensures !loading
      ensures posts == if feedsReply.Ok?
        then LoadedPosts(feedsReply.data.GetOr([]), commentReplies, ids.feedIds, ids.commentIds, now)
        else old(posts)
      ensures events == if eventsReply.Ok? then MapEvents(eventsReply.data.GetOr([]), ids.eventIds, now) else old(events)
      ensures media == if mediaReply.Ok? then MapMediaItems(mediaReply.data.GetOr([]), ids.mediaIds) else old(media)
      ensures members == if membersReply.Ok? then MapMembers(membersReply.data.GetOr([]), ids.memberIds) else old(members)
      ensures donations == if collectionsReply.Ok?
        then MapCollections(collectionsReply.data.GetOr([]), ids.collectionIds) else old(donations)
      ensures reliefFunds == []
      ensures outcome == FirstFailure([Settled(feedsReply), Settled(eventsReply), Settled(mediaReply),
                                       Settled(membersReply), Settled(collectionsReply)])
      ensures outcome.Done? <==>
        feedsReply.Ok? && eventsReply.Ok? && mediaReply.Ok? && membersReply.Ok? && collectionsReply.Ok?
    {
      loading := true;
      // Each load writes its own collection only; the snapshots record that for the later loads.
      var o1 := LoadFeeds(feedsReply, commentReplies, ids.feedIds, ids.commentIds, now);
      ghost var newPosts := posts;
      var o2 := LoadEvents(eventsReply, ids.eventIds, now);
      ghost var newEvents := events;
      var o3 := LoadMedia(mediaReply, ids.mediaIds);
      ghost var newMedia := media;
      var o4 := LoadMembers(membersReply, ids.memberIds);
      ghost var newMembers := members;
      var o5 := LoadCollections(collectionsReply, ids.collectionIds);
      LoadReliefFunds();
      assert posts == newPosts && events == newEvents && media == newMedia && members == newMembers;
      outcome := FirstFailure([o1, o2, o3, o4, o5]);
      FirstFailureOfFive(o1, o2, o3, o4, o5);
      loading := false;
    }

    // ------------------------------------------------------------ posts

    method AddPost(
      title: string, content: string, mediaFile: Option<Api.FileDescriptor>, platform: Api.Platform,
      createReply: Reply<RawFeed>, commentsReply: CommentsReply,
      freshId: string, commentIds: IdSource, now: string)
      returns (outcome: Outcome, sent: Api.FormData)
      modifies this`posts
      ensures fresh(sent) && sent.entries == Api.FeedForm(Api.FeedPayload(title, content, None, mediaFile), platform)
      ensures outcome == Settled(createReply)
      ensures createReply.Failed? ==> posts == old(posts)
      ensures createReply.Ok? ==>
        posts == [MapFeedToPost(createReply.data, FetchedComments(commentsReply, commentIds, now), freshId)] + old(posts)
    {
      sent := Api.BuildFeedForm(Api.FeedPayload(title, content, None, mediaFile), platform);
      match createReply
      case Failed(m) =>
        outcome := Threw(m);
      case Ok(feed) =>
        var comments := FetchedComments(commentsReply, commentIds, now);
        posts := [MapFeedToPost(feed, comments, freshId)] + posts;
        outcome := Done;
    }

    method DeletePost(postId: string, reply: Outcome) returns (outcome: Outcome)
      modifies this`posts
      ensures outcome == reply
      ensures reply.Threw? ==> posts == old(posts)
      ensures reply.Done? ==> posts == Lists.RemoveKey(old(posts), PostId, postId)
    {
      if reply.Done? {
        posts := Lists.RemoveKey(posts, PostId, postId);
      }
      outcome := reply;
    }

    /**
     * Nothing happens for an unknown post. Otherwise the comment is sent, the
     * post's comments are fetched again, and only posts with that id get them;
     * here a failed fetch is not swallowed.
     */
    method AddCommentToPost(
      postId: string, message: string, author: Option<string>,
      createReply: Outcome, commentsReply: Reply<Option<seq<RawComment>>>,
      commentIds: IdSource, now: string)
      returns (outcome: Outcome, sent: Option<CommentPayload>)
      modifies this`posts
      ensures !Lists.HasKey(old(posts), PostId, postId) ==> outcome == Done && sent == None && posts == old(posts)
      ensures Lists.HasKey(old(posts), PostId, postId) ==> sent == Some(CommentPayload(postId, message, author))
      ensures Lists.HasKey(old(posts), PostId, postId) && createReply.Threw? ==>
        outcome == createReply && posts == old(posts)
      ensures Lists.HasKey(old(posts), PostId, postId) && createReply.Done? ==>
        outcome == Settled(commentsReply)
        && posts == if commentsReply.Failed? then old(posts)
                    else WithComments(old(posts), postId, MapComments(commentsReply.data.GetOr([]), commentIds, now))
    {
      if !Lists.HasKey(posts, PostId, postId) {
        outcome, sent := Done, None;
        return;
      }
      sent := Some(CommentPayload(postId, message, author));
      if createReply.Threw? {
        outcome := createReply;
        return;
      }
      match commentsReply
      case Failed(m) =>
        outcome := Threw(m);
      case Ok(data) =>
        posts := WithComments(posts, postId, MapComments(data.GetOr([]), commentIds, now));
        outcome := Done;
    }

    // ----------------------------------------------------------- events

    method AddEvent(
      title: string, description: string, startsAt: string, location: string,
      coverImage: Option<Api.FileDescriptor>, platform: Api.Platform,
      reply: Reply<RawEvent>, freshId: string, now: string)
      returns (outcome: Outcome, sent: Api.FormData)
      modifies this`events
      ensures fresh(sent)
      ensures sent.entries == Api.EventForm(Api.EventPayload(title, description, startsAt, location, coverImage), platform)
      ensures outcome == Settled(reply)
      ensures reply.Failed? ==> events == old(events)
      ensures reply.Ok? ==> events == [MapEvent(reply.data, freshId, now)] + old(events)
    {
      sent := Api.BuildEventForm(Api.EventPayload(title, description, startsAt, location, coverImage), platform);
      if reply.Ok? {
        events := [MapEvent(reply.data, freshId, now)] + events;
      }
      outcome := Settled(reply);
    }

    method DeleteEvent(eventId: string, reply: Outcome) returns (outcome: Outcome)
      modifies this`events
      ensures outcome == reply
      ensures reply.Threw? ==> events == old(events)
      ensures reply.Done? ==> events == Lists.RemoveKey(old(events), EventId, eventId)
    {
      if reply.Done? {
        events := Lists.RemoveKey(events, EventId, eventId);
      }
      outcome := reply;
    }

    // ------------------------------------------------------------ media

    /** The stored item keeps the caller's title and description over the server's. */
    method AddMedia(
      title: string, description: Option<string>, file: Option<Api.FileDescriptor>,
      mediaType: MediaType, platform: Api.Platform, reply: Reply<Option<RawMedia>>, freshId: string)
      returns (outcome: Outcome, sent: Api.FormData)
      modifies this`media
      ensures fresh(sent)
      ensures sent.entries == Api.MediaForm(Api.MediaPayload(Some(title), None, MediaUpload(mediaType, file)), platform)
      ensures outcome == Settled(reply)
      ensures reply.Failed? ==> media == old(media)
      ensures reply.Ok? ==>
        media == [MapMedia(MediaRecord(reply.data, title, description), freshId)] + old(media)
    {
      var upload := file;
      if mediaType == Video && file.Some? && StartsWith(file.value.uri, "http") {
        upload := None;
      }
      sent := Api.BuildMediaForm(Api.MediaPayload(Some(title), None, upload), platform);
      if reply.Ok? {
        var mapped := MapMedia(MediaRecord(reply.data, title, description), freshId);
        media := [mapped] + media;
      }
      outcome := Settled(reply);
    }

    method DeleteMedia(mediaId: string, reply: Outcome) returns (outcome: Outcome)
      modifies this`media
      ensures outcome == reply
      ensures reply.Threw? ==> media == old(media)
      ensures reply.Done? ==> media == Lists.RemoveKey(old(media), MediaId, mediaId)
    {
      if reply.Done? {
        media := Lists.RemoveKey(media, MediaId, mediaId);
      }
      outcome := reply;
    }

    // ---------------------------------------------------------- members

    /**
     * Sends the member form (to the update route when a non-empty id is given),
     * then upserts the mapped reply with the requested status.
     */
    method AddOrUpdateMember(
      id: Option<string>, name: string, email: string, phoneNumber: Option<string>,
      roleLabel: Option<string>, status: MemberStatus, avatar: Option<Api.FileDescriptor>,
      platform: Api.Platform, reply: Reply<RawMember>, freshId: string)
      returns (outcome: Outcome, sent: Api.FormData, updateTarget: Option<string>)
      modifies this`members
      ensures fresh(sent)
      ensures sent.entries == Api.MemberForm(
        Api.MemberPayload(name, email, roleLabel.GetOr(StatusName(status)), phoneNumber, avatar), platform)
      ensures updateTarget == if IsTruthy(id) then id else None
      ensures outcome == Settled(reply)
      ensures reply.Failed? ==> members == old(members)
      ensures reply.Ok? ==>
        var m := MapMember(reply.data, freshId).(status := status);
        && members == Lists.Upsert(old(members), MemberId, m)
        && (Lists.HasKey(old(members), MemberId, m.id) ==> |members| == |old(members)|)
        && (!Lists.HasKey(old(members), MemberId, m.id) ==> members == [m] + old(members))
        && exists i :: 0 <= i < |members| && members[i] == m && members[i].status == status
    {
      var payload := Api.MemberPayload(name, email, roleLabel.GetOr(StatusName(status)), phoneNumber, avatar);
      sent := Api.BuildMemberForm(payload, platform);
      updateTarget := if id.Some? && id.value != "" then id else None;
      match reply
      case Failed(msg) =>
        outcome := Threw(msg);
      case Ok(data) =>
        var m := MapMember(data, freshId).(status := status);
        members := Lists.Upsert(members, MemberId, m);
        outcome := Done;
    }

    /** Removes the member and, with it, exactly the donations that reference it. */
    method RemoveMember(memberId: string, reply: Outcome) returns (outcome: Outcome)
      modifies this`members, this`donations
      ensures outcome == reply
      ensures reply.Threw? ==> members == old(members) && donations == old(donations)
      ensures reply.Done? ==> members == Lists.RemoveKey(old(members), MemberId, memberId)
      ensures reply.Done? ==> donations == Lists.RemoveKey(old(donations), DonationMemberId, memberId)
      ensures reply.Done? ==> forall i :: 0 <= i < |donations| ==> donations[i].memberId != memberId
      ensures reply.Done? ==>
        multiset(old(donations)) == multiset(donations) + multiset(Lists.Matching(old(donations), DonationMemberId, memberId))
    {
      if reply.Done? {
        Lists.RemoveKeyPartition(donations, DonationMemberId, memberId);
        members := Lists.RemoveKey(members, MemberId, memberId);
        donations := Lists.RemoveKey(donations, DonationMemberId, memberId);
      }
      outcome := reply;
    }

    // -------------------------------------------------------- donations

    method LogDonation(
      memberId: string, amount: int, month: string, status: Option<string>,
      reply: Reply<RawCollection>, freshId: string)
      returns (outcome: Outcome, payload: NewCollection)
      modifies this`donations
      ensures payload == NewCollection(memberId, amount, month, status.GetOr(DefaultDonationStatus(amount)))
      ensures outcome == Settled(reply)
      ensures reply.Failed? ==> donations == old(donations)
      ensures reply.Ok? ==> donations == [MapCollection(reply.data, freshId)] + old(donations)
    {
      payload := NewCollection(memberId, amount, month, status.GetOr(DefaultDonationStatus(amount)));
      if reply.Ok? {
        donations := [MapCollection(reply.data, freshId)] + donations;
      }
      outcome := Settled(reply);
    }

    /** Replaces, in place, the records whose id is the id of the record the server returned. */
    method UpdateDonation(
      id: string, amount: int, month: string, status: Option<string>,
      reply: Reply<RawCollection>, freshId: string)
      returns (outcome: Outcome, payload: CollectionUpdate)
      modifies this`donations
      ensures payload == CollectionUpdate(id, amount, month, status.GetOr(DefaultDonationStatus(amount)))
      ensures outcome == Settled(reply)
      ensures |donations| == |old(donations)|
      ensures reply.Failed? ==> donations == old(donations)
      ensures reply.Ok? ==>
        var d := MapCollection(reply.data, freshId);
        donations == Lists.ReplaceKey(old(donations), DonationId, d.id, d)
    {
      payload := CollectionUpdate(id, amount, month, status.GetOr(DefaultDonationStatus(amount)));
      if reply.Ok? {
        var d := MapCollection(reply.data, freshId);
        donations := Lists.ReplaceKey(donations, DonationId, d.id, d);
      }
      outcome := Settled(reply);
    }

    method RemoveDonation(donationId: string, reply: Outcome) returns (outcome: Outcome)
      modifies this`donations
      ensures outcome == reply
      ensures reply.Threw? ==> donations == old(donations)
      ensures reply.Done? ==> donations == Lists.RemoveKey(old(donations), DonationId, donationId)
    {
      if reply.Done? {
        donations := Lists.RemoveKey(donations, DonationId, donationId);
      }
      outcome := reply;
    }

    // ----------------------------------------------------- relief funds

    /** Not supported by the server: only a warning is logged, and no state changes. */
    method AddOrUpdateReliefFund(fund: ReliefFund, draftId: Option<string>) returns (outcome: Outcome)
      ensures outcome == Done
    {
      outcome := Done;
    }

    /** Not supported by the server: only a warning is logged, and no state changes. */
    method RemoveReliefFund(fundId: string) returns (outcome: Outcome)
      ensures outcome == Done
    {
      outcome := Done;
    }
  }

  // ------------------------------------------------------------ properties

  /**
   * One feed's comment fetch affects only that feed's post: changing it leaves
   * every other post as it was, and a failed fetch gives that post no comments.
   */
  lemma CommentFetchIsIsolated(
    feeds: seq<RawFeed>, replies: seq<CommentsReply>, i: nat, r: CommentsReply,
    feedIds: IdSource, commentIds: (nat, nat) -> string, now: string)
    requires i < |replies|
    ensures forall j :: 0 <= j < |feeds| && j != i ==>
      LoadedPosts(feeds, replies[i := r], feedIds, commentIds, now)[j]
      == LoadedPosts(feeds, replies, feedIds, commentIds, now)[j]
    ensures r.Failed? && i < |feeds| ==> LoadedPosts(feeds, replies[i := r], feedIds, commentIds, now)[i].comments == []
  {
    var before := LoadedPosts(feeds, replies, feedIds, commentIds, now);
    var after := LoadedPosts(feeds, replies[i := r], feedIds, commentIds, now);
    forall j | 0 <= j < |feeds| && j != i ensures after[j] == before[j] {
      assert CommentsForFeed(replies[i := r], j, commentIds, now) == CommentsForFeed(replies, j, commentIds, now);
    }
    if r.Failed? && i < |feeds| {
      assert after[i] == MapFeedToPost(feeds[i], CommentsForFeed(replies[i := r], i, commentIds, now), feedIds(i));
      assert replies[i := r][i] == r;
    }
  }

  /**
   * One post per feed, in the feeds' order: post i takes feed i's id, title and
   * text with their fallbacks, and exactly the mapped comments of feed i's own
   * fetch, or none when that fetch failed, had no data or is missing.
   */
  lemma LoadedPostsFollowFeeds(
    feeds: seq<RawFeed>, replies: seq<CommentsReply>, feedIds: IdSource,
    commentIds: (nat, nat) -> string, now: string)
    ensures |LoadedPosts(feeds, replies, feedIds, commentIds, now)| == |feeds|
    ensures forall i :: 0 <= i < |feeds| ==>
      var p := LoadedPosts(feeds, replies, feedIds, commentIds, now)[i];
      && p.id == RecordId(feeds[i].dbId, feeds[i].id, feedIds(i))
      && p.title == feeds[i].title.GetOr("Untitled")
      && p.content == feeds[i].description.GetOr("")
      && p.image == feeds[i].media
      && (i >= |replies| || replies[i].Failed? || replies[i].data.None? ==> p.comments == [])
      && (i < |replies| && replies[i].Ok? && replies[i].data.Some? ==>
            && |p.comments| == |replies[i].data.value|
            && forall j :: 0 <= j < |p.comments| ==>
                 p.comments[j] == MapComment(replies[i].data.value[j], commentIds(i, j), now))
  {
  }

  /** Setting comments changes only the comments of the posts with that id. */
  lemma WithCommentsSpec(posts: seq<Post>, postId: string, comments: seq<Comment>)
    ensures |WithComments(posts, postId, comments)| == |posts|
    ensures forall i :: 0 <= i < |posts| && posts[i].id != postId ==>
      WithComments(posts, postId, comments)[i] == posts[i]
    ensures forall i :: 0 <= i < |posts| && posts[i].id == postId ==>
      WithComments(posts, postId, comments)[i] == posts[i].(comments := comments)
    ensures !Lists.HasKey(posts, PostId, postId) ==> WithComments(posts, postId, comments) == posts
  {
  }

  /**
   * A video whose uri is a web address is sent without a file part; anything
   * else is sent as given.
   */
  lemma MediaUploadSpec(mediaType: MediaType, file: Option<Api.FileDescriptor>, platform: Api.Platform)
    ensures mediaType == Video && file.Some? && StartsWith(file.value.uri, "http") ==>
      Api.FileEntries("media", MediaUpload(mediaType, file), platform) == []
    ensures mediaType == Image ==> MediaUpload(mediaType, file) == file
    ensures file.Some? && !StartsWith(file.value.uri, "http") ==> MediaUpload(mediaType, file) == file
  {
  }

  /**
   * The item `addMedia` stores shows the caller's title, and the caller's
   * description or ""; its url and id come from the server's record, and
   * without one the url is "" and the id the fresh one.
   */
  lemma AddedMediaShowsCallerText(data: Option<RawMedia>, title: string, description: Option<string>, freshId: string)
    ensures MapMedia(MediaRecord(data, title, description), freshId).title == title
    ensures MapMedia(MediaRecord(data, title, description), freshId).description == Some(description.GetOr(""))
    ensures data.Some? ==>
      MapMedia(MediaRecord(data, title, description), freshId).url == data.value.media.Or(data.value.url).GetOr("")
    ensures data.None? ==>
      && MapMedia(MediaRecord(data, title, description), freshId).url == ""
      && MapMedia(MediaRecord(data, title, description), freshId).id == freshId
      && MapMedia(MediaRecord(data, title, description), freshId).mediaType == Image
  {
  }

  /**
   * In `addOrUpdateMember` the stored status is the requested one whatever the
   * reply says, and when the reply echoes the role that was sent without a role
   * label, mapping it alone already gives that status back.
   */
  lemma MemberStatusSurvivesRoundTrip(data: RawMember, status: MemberStatus, freshId: string)
    requires data.role == Some(StatusName(status))
    ensures MapMember(data, freshId).status == status
  {
    StatusNameRoundTrip(status);
  }

  /** Removing a member purges exactly its donations: the others stay, in order. */
  lemma RemoveMemberCascade(donations: seq<DonationRecord>, memberId: string)
    ensures forall d :: d in Lists.RemoveKey(donations, DonationMemberId, memberId) ==>
      d in donations && d.memberId != memberId
    ensures forall d :: d in donations && d.memberId != memberId ==>
      d in Lists.RemoveKey(donations, DonationMemberId, memberId)
    ensures |Lists.RemoveKey(donations, DonationMemberId, memberId)| == |donations| <==>
      !Lists.HasKey(donations, DonationMemberId, memberId)
  {
    Lists.RemoveKeyRemovesAll(donations, DonationMemberId, memberId);
    var r := Lists.RemoveKey(donations, DonationMemberId, memberId);
    forall d | d in r ensures d in donations && d.memberId != memberId {
      var i :| 0 <= i < |r| && r[i] == d;
    }
    forall d | d in donations && d.memberId != memberId ensures d in r {
      var i :| 0 <= i < |donations| && donations[i] == d;
    }
  }

  /** An update whose reply matches no record leaves the donations as they were. */
  lemma UpdateDonationWithoutMatch(donations: seq<DonationRecord>, d: DonationRecord)
    requires !Lists.HasKey(donations, DonationId, d.id)
    ensures Lists.ReplaceKey(donations, DonationId, d.id, d) == donations
  {
    Lists.ReplaceKeySpec(donations, DonationId, d.id, d);
  }
}
