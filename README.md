# Client data layer of the community app, in Dafny

This project models the data layer of a React Native community app. The app has a feed of posts with comments, events, a media gallery, members, monthly donation collections and relief funds. Three parts of the app are modelled:

- **The application-state provider** (`Store.AppStore`). It holds the viewer role (a client-side choice made with the role switcher, not a login), the `loading` flag, and the six collections the screens read. Its actions call the server and then update a collection, by prepending, filtering, replacing in place, upserting, or cascading a removal. Each server reply is a parameter of the action: `Reply` for a call that returns data, `Outcome` for one that does not. A failed call makes the action throw and leaves the state as it was. The exception is the comment fetches of `loadFeeds` and `addPost`: their failure is swallowed, and that post gets no comments. Refresh runs every load. Each load whose call succeeded replaces its collection, and the flag ends cleared.
- **The record mappers** (`Domain`). They turn the server's loosely typed JSON records into the app's entities, with a fallback for every missing key. `Domain.NormalizeMemberRole` is the heuristic that turns a role or status text into a member status. Keys the server may or may not send are `Option` fields of "raw" records; `dbId` stands for `_id`. A numeric field that may be missing or non-numeric is a `NumericField`. The random id and the current time each mapper falls back on are parameters. A media item's type is decided by `url.includes('.mp4')`, a substring test and not an extension check: `clip.mp4.jpg` is a video and `clip.mov` is an image.
- **The multipart form builders** (`Api`). `Api.AppendFile` adds a file part to a `FormData` (`Api.FormData`: a class whose one field is the sequence of entries appended so far). The part name is derived from the uri. On iOS it is derived after the first `file://` is removed, and the part itself always carries the original uri. Each builder method creates a form and appends its fields in order. It is proved equal to a specification function (`Api.FeedForm`, `Api.EventForm`, `Api.MediaForm`, `Api.MemberForm`). The device platform is a parameter.
- **The responsive spacing hook** (`Spacing.ResponsiveSpacing`). It maps a window width to margins, gaps and maximum widths.

`Text` models the JavaScript string operations the code relies on:

- `includes` is `Contains`, and is proved equal to an occurrence at some index.
- `replace` with a string pattern replaces only the first occurrence (`ReplaceFirst`).
- `split('/').pop()` is `Split` followed by taking the last part. That part is proved to be `LastSegment`, the text after the last `/`, and it always exists, though it can be empty (a uri ending in `/`). Because `??` keeps an empty name, the `'upload.jpg'` fallback of `appendFile` can never be chosen.
- `toLowerCase` is ASCII-only (`Lower`).

`Lists` holds the list rules the provider applies, each written once over any element type with a string key:

- filter-by-key (`RemoveKey`);
- map-replace-by-key (`ReplaceKey`);
- the member upsert (`Upsert`).

A further observation: for a uri that starts with `file://`, the iOS stripping changes nothing in the uploaded part. The part carries the original uri, and such a uri gives the same derived name on every platform (`Api.FileSchemeNameIsPlatformIndependent`). For other uris the stripping can change the name. For example, `afile://b` is named `ab` on iOS and `b` elsewhere.

## Model

| member | source | states |
|---|---|---|
| Domain.NormalizeMemberRoleSpec | instagram-like-app/contexts/AppContext.tsx:162-168 | An absent or empty role is active. Otherwise the status is pending exactly when "pending" occurs in the lower-cased text. It is inactive exactly when "pending" does not occur and "inactive" does. It is active exactly when neither occurs. |
| Domain.PendingBeatsInactive | instagram-like-app/contexts/AppContext.tsx:164-166 | Matching ignores case, and "pending" is checked before "inactive": "INACTIVE, PENDING" gives pending. |
| Domain.StatusNameRoundTrip | instagram-like-app/contexts/AppContext.tsx:162-168 | Each status, written as the server spells it, normalizes back to itself. |
| Domain.MapMemberSpec | instagram-like-app/contexts/AppContext.tsx:170-181 | The id is `_id`, then `id`, then the fresh id. The name is `userName`, then `name`, then "Member". The phone number and the avatar (`media`) pass through. The contribution is always 0, and the role label is the raw role. A missing email reads "n/a". The status is the normalized role when there is one, else the normalized status, and active when both are absent. A record that has no role and echoes a status keeps that status. |
| Domain.MapMediaSpec | instagram-like-app/contexts/AppContext.tsx:151-160 | The id is `_id`, then `id`, then the fresh id. The url is `media ?? url ?? ''`. The item is a video exactly when that url is non-empty and contains ".mp4" at some index. The title is the server's, else "Media". The description is the server's, else "". |
| Domain.MapCollection | instagram-like-app/contexts/AppContext.tsx:183-199 | `notedBy` always equals `monthlyStatus`. |
| Domain.MapCollectionSpec | instagram-like-app/contexts/AppContext.tsx:183-199 | The id is `_id`, then `id`, then the fresh id. The status is `monthlyAmount` when it is a string, else "Pending". The member id is `_id`, then `id`, then "unknown". The member name is `userName`, then `name`, then "Member", which is also what a missing member gives. The month is `date`, else "". The amount is the number, or 0 when missing or non-numeric. |
| Domain.NumberOrZero | instagram-like-app/contexts/AppContext.tsx:187 | `Number(x ?? 0) \|\| 0` is the number when the field holds one, otherwise 0. |
| Domain.MapReliefFund | instagram-like-app/contexts/AppContext.tsx:209-217 | There is one bank detail per raw detail when the field is an array, and none otherwise. |
| Domain.MapReliefFundSpec | instagram-like-app/contexts/AppContext.tsx:201-219 | For any record, each fund field is the server's value or its fallback ("Relief appeal", "", 0 for a missing or non-numeric goal or raised amount). Each bank detail i takes raw detail i's fields, or "Bank", "Account" and "N/A" when they are missing. |
| Domain.RecordIdSpec | instagram-like-app/contexts/AppContext.tsx:122 | `_id` wins over `id`. The fresh id is used only when both are absent. |
| Domain.MapFeedToPostSpec | instagram-like-app/contexts/AppContext.tsx:120-129 | For any feed record, a missing title reads "Untitled" and a missing description reads "". Present values are kept. Image, creation time and comments pass through. |
| Domain.MapCommentSpec | instagram-like-app/contexts/AppContext.tsx:131-138 | For any comment record, the author is the nested user name, else `author`, else "Member". The message is `text`, else `message`, else "". The time is `createdAt`, else the current time. |
| Domain.MapEventSpec | instagram-like-app/contexts/AppContext.tsx:140-149 | For any event record, the start is `date`, else `startsAt`, else the current time. A missing location reads "TBD", and a missing title reads "Untitled". The cover is `cover`, else `coverImage`, else `media`. |
| Domain.MapperFallbacks | instagram-like-app/contexts/AppContext.tsx:120-219 | On a record with no keys, every mapper yields its documented fallbacks ("Untitled", "Member", "TBD", "Media", "n/a", "unknown", "Pending", "Relief appeal", the fresh id, the current time). |
| Domain.MappersKeepServerValues | instagram-like-app/contexts/AppContext.tsx:120-181 | A record carrying every key the way the server names them maps back to the same post, comment, event or member. |
| Text.ContainsIff | instagram-like-app/contexts/AppContext.tsx:157 | `includes` holds exactly when the pattern occurs at some index. |
| Text.IndexOfSpec | instagram-like-app/lib/api.ts:44 | The index found is the first occurrence, and none is found exactly when there is no occurrence. |
| Text.ReplaceFirstSpec | instagram-like-app/lib/api.ts:44 | Without an occurrence the text is unchanged. Otherwise only the first occurrence is replaced, and the text before it is kept. |
| Text.Split | instagram-like-app/lib/api.ts:45 | A split always has at least one part, so `pop()` never comes back `undefined`. The part it returns can be empty, as for `"a/"`. |
| Text.SplitJoin | instagram-like-app/lib/api.ts:45 | No part of a split contains the separator, and joining the parts gives back the text. |
| Text.SplitPopIsLastSegment | instagram-like-app/lib/api.ts:45 | The popped last part is the text after the last `/`. |
| Text.LastSegmentSpec | instagram-like-app/lib/api.ts:45 | The last segment is a suffix without `/`. It is either the whole text or preceded by a `/`. |
| Api.AppendFile | instagram-like-app/lib/api.ts:39-53 | The form gains exactly the entries of `FileEntries`. Nothing else in it changes. |
| Api.FileEntriesSpec | instagram-like-app/lib/api.ts:39-53 | Nothing is appended when there is no file or its uri is empty. Otherwise exactly one entry is appended, under `field`. It carries the original uri, the given name or else the last segment of the name-source uri, and the given type or else "image/jpeg". |
| Api.NameSourceUriSpec | instagram-like-app/lib/api.ts:44 | Android and web use the uri as is. On iOS a uri "file://" + rest becomes rest, even when rest holds another "file://". |
| Api.FileSchemeNameIsPlatformIndependent | instagram-like-app/lib/api.ts:44-45 | For a uri starting with "file://", the derived part name is the same on every platform. |
| Api.BuildFeedForm | instagram-like-app/lib/api.ts:71-75 | The new form holds exactly the feed form's entries. |
| Api.BuildEventForm | instagram-like-app/lib/api.ts:112-117 | The new form holds exactly the event form's entries. Create and update build the same body. |
| Api.BuildMediaForm | instagram-like-app/lib/api.ts:143-146 | The new form holds exactly the media form's entries. |
| Api.BuildMemberForm | instagram-like-app/lib/api.ts:157-162 | The new form holds exactly the member form's entries. Create and update build the same body. |
| Api.FormFieldOrder | instagram-like-app/lib/api.ts:71-75 | The fields come in order: title, description, category, then media only with an upload; title, description, date, location, then cover only with an upload; title, category, then media only with an upload. |
| Api.FormDefaults | instagram-like-app/lib/api.ts:143-146 | The category defaults to "General" for feeds and media. The media title defaults to "". |
| Api.MemberFormPhone | instagram-like-app/lib/api.ts:161 | The member body has a "phoneNumber" field exactly when a non-empty phone number is given. The fields are userName, email, role, then phoneNumber, then media. |
| Lists.RemoveKey | instagram-like-app/contexts/AppContext.tsx:314 | Every kept element comes from the input and has another key. Every input element with another key is kept. |
| Lists.RemoveKeyConcat | instagram-like-app/contexts/AppContext.tsx:314-430 | For every filter by id (lines 314, 339, 358, 394, 395 and 430): filtering distributes over concatenation, so the kept elements keep their order. |
| Lists.RemoveKeyPartition | instagram-like-app/contexts/AppContext.tsx:314-430 | For every filter by id (lines 314, 339, 358, 394, 395 and 430): the kept and the dropped elements together are the input as a multiset. Their lengths add up. |
| Lists.RemoveKeyAbsent | instagram-like-app/contexts/AppContext.tsx:314-430 | For every filter by id (lines 314, 339, 358, 394, 395 and 430): filtering out a key no element has changes nothing. |
| Lists.RemoveKeyRemovesAll | instagram-like-app/contexts/AppContext.tsx:394 | After removal no element has the key, and the length is unchanged exactly when none had it. |
| Lists.RemoveKeyKeepsUnique | instagram-like-app/contexts/AppContext.tsx:394 | Removal by any key keeps unique ids unique. |
| Lists.ReplaceKeySpec | instagram-like-app/contexts/AppContext.tsx:423 | Replacement keeps the length, replaces every element with the key, and leaves every other element in place. |
| Lists.Upsert | instagram-like-app/contexts/AppContext.tsx:381-387 | On a hit the length is unchanged, every element with the key becomes the new one, and every other element stays at its position. On a miss the new element is prepended. The element is present afterwards, and the key set gains just its key. |
| Lists.UpsertKeepsUnique | instagram-like-app/contexts/AppContext.tsx:381-387 | Unique ids stay unique. A hit replaces exactly the matching position. |
| Spacing.ResponsiveSpacing | instagram-like-app/hooks/use-responsive-spacing.ts:7-14 | A width is never both compact and tablet. The modal width is at most the width minus both margins, and at most 640 on tablet and 520 otherwise, and it equals one of the two. The content width equals the width minus both margins, except on tablet, where it is the smaller of that and 720. |
| Spacing.WidthClasses | instagram-like-app/hooks/use-responsive-spacing.ts:7-12 | Compact holds exactly below 360 and tablet exactly from 768. The horizontal margin is 12, 20 or 32. The vertical margin is 12 or 20, and the gap is 12 or 16. |
| Spacing.NoLowerClamp | instagram-like-app/hooks/use-responsive-spacing.ts:13-14 | Below a width of 24, both the modal width and the content width are negative. |
| Spacing.ContentWidthMonotoneWithinClass | instagram-like-app/hooks/use-responsive-spacing.ts:13-14 | Within one width class, both widths grow with the window. |
| Spacing.ContentWidthDropsAtBreakpoints | instagram-like-app/hooks/use-responsive-spacing.ts:10-14 | At each breakpoint the content width drops (335 to 320, 727 to 704), because the margins widen. |
| Store.FirstFailure | instagram-like-app/contexts/AppContext.tsx:286 | Refresh succeeds exactly when every load succeeded. Otherwise it throws one of the loads' errors. |
| Store.CommentFetchIsIsolated | instagram-like-app/contexts/AppContext.tsx:240-246 | Changing one feed's comment fetch changes no other post. A failed fetch gives that post no comments. |
| Store.LoadedPostsFollowFeeds | instagram-like-app/contexts/AppContext.tsx:238-251 | There is one post per feed, in the feeds' order. Post i takes feed i's id, title and text with their fallbacks. Its comments are one mapped comment per comment of feed i's own fetch, or none when that fetch failed, had no data, or is missing. |
| Store.WithCommentsSpec | instagram-like-app/contexts/AppContext.tsx:326 | Setting comments keeps the length. It changes only the comments of the posts with that id. An unknown id changes nothing. |
| Store.MediaUploadSpec | instagram-like-app/contexts/AppContext.tsx:344-347 | A video whose uri starts with "http" is sent without a file part. An image, or a uri not starting with "http", is sent as given. |
| Store.AddedMediaShowsCallerText | instagram-like-app/contexts/AppContext.tsx:350 | The stored item shows the caller's title, and the caller's description or "". The url comes from the server's record. Without a record the item is an image with url "" and the fresh id. |
| Store.MemberStatusSurvivesRoundTrip | instagram-like-app/contexts/AppContext.tsx:366-379 | A reply that echoes the role sent for a status maps back to that status. |
| Store.RemoveMemberCascade | instagram-like-app/contexts/AppContext.tsx:395 | Removing a member keeps exactly the donations of other members. The list shrinks exactly when the member had donations. |
| Store.UpdateDonationWithoutMatch | instagram-like-app/contexts/AppContext.tsx:423 | An update whose returned record matches no id leaves the donations unchanged. |
| Store.DefaultDonationStatus | instagram-like-app/contexts/AppContext.tsx:404 | The default status is "Paid" exactly when the amount is positive, and "Pending" otherwise. |
| Store.AppStore.constructor | instagram-like-app/contexts/AppContext.tsx:226-233 | The store starts as guest, loading, with every collection empty. |
| Store.AppStore.SetRole | instagram-like-app/contexts/AppContext.tsx:226 | The role becomes the given one. Nothing else changes. |
| Store.AppStore.LoadFeeds | instagram-like-app/contexts/AppContext.tsx:235-252 | A failed feed fetch throws and keeps the posts. Otherwise the posts become `LoadedPosts` of `data ?? []`. |
| Store.AppStore.LoadEvents | instagram-like-app/contexts/AppContext.tsx:254-257 | A failure throws and keeps the events. Otherwise the events become the mapped `data ?? []`. |
| Store.AppStore.LoadMedia | instagram-like-app/contexts/AppContext.tsx:259-262 | A failure throws and keeps the media. Otherwise the media become the mapped `data ?? []`. |
| Store.AppStore.LoadMembers | instagram-like-app/contexts/AppContext.tsx:264-267 | A failure throws and keeps the members. Otherwise the members become the mapped `data ?? []`. |
| Store.AppStore.LoadCollections | instagram-like-app/contexts/AppContext.tsx:269-272 | A failure throws and keeps the donations. Otherwise the donations become the mapped `data ?? []`. |
| Store.AppStore.LoadReliefFunds | instagram-like-app/contexts/AppContext.tsx:274-281 | The relief funds become empty. |
| Store.AppStore.Refresh | instagram-like-app/contexts/AppContext.tsx:283-290 | Each collection is replaced when its load succeeded and kept otherwise. The relief funds are emptied and loading ends false. The refresh succeeds exactly when every load did. |
| Store.AppStore.AddPost | instagram-like-app/contexts/AppContext.tsx:296-310 | The feed form is sent with the default category. On success the mapped post is prepended, with the fetched comments, or none when that fetch failed. On failure the action throws and the posts are kept. |
| Store.AppStore.DeletePost | instagram-like-app/contexts/AppContext.tsx:312-315 | On success every post with the id is removed and the rest keep their order. On failure the posts are kept. |
| Store.AppStore.AddCommentToPost | instagram-like-app/contexts/AppContext.tsx:317-327 | For an unknown post nothing is sent and nothing changes. Otherwise the comment is sent. After both calls succeed, only the posts with that id get the re-fetched comments. A failure of either call throws and keeps the posts. |
| Store.AppStore.AddEvent | instagram-like-app/contexts/AppContext.tsx:329-335 | The event form is sent. On success the mapped event is prepended. On failure the events are kept. |
| Store.AppStore.DeleteEvent | instagram-like-app/contexts/AppContext.tsx:337-340 | On success every event with the id is removed, and the rest keep their order. |
| Store.AppStore.AddMedia | instagram-like-app/contexts/AppContext.tsx:342-354 | The media form is sent, without the file for a remote video. On success the item mapped from the reply's record, which may be missing, with the caller's title and description, is prepended. |
| Store.AppStore.DeleteMedia | instagram-like-app/contexts/AppContext.tsx:356-359 | On success every item with the id is removed, and the rest keep their order. |
| Store.AppStore.AddOrUpdateMember | instagram-like-app/contexts/AppContext.tsx:361-390 | The member form's role is `roleLabel ?? status`. A non-empty id selects the update route. On success the mapped member, with the requested status, is upserted: in place with the length unchanged when its id is present, prepended otherwise. |
| Store.AppStore.RemoveMember | instagram-like-app/contexts/AppContext.tsx:392-396 | On success the member is removed and so is every donation with its member id. The rest are kept, as a multiset partition. |
| Store.AppStore.LogDonation | instagram-like-app/contexts/AppContext.tsx:398-411 | The body carries the given status, else the default for the amount. On success one mapped record is prepended. |
| Store.AppStore.UpdateDonation | instagram-like-app/contexts/AppContext.tsx:413-426 | The body carries the given status, else the default for the amount. The length never changes. On success the records whose id matches the returned record's id are replaced. |
| Store.AppStore.RemoveDonation | instagram-like-app/contexts/AppContext.tsx:428-431 | On success every record with the id is removed, and the rest keep their order. |
| Store.AppStore.AddOrUpdateReliefFund | instagram-like-app/contexts/AppContext.tsx:433-435 | Settles successfully and changes no state: it has an empty frame. |
| Store.AppStore.RemoveReliefFund | instagram-like-app/contexts/AppContext.tsx:437-439 | Settles successfully and changes no state: it has an empty frame. |

## Left out

- `request` (instagram-like-app/lib/api.ts:13-31) is left out because it is network I/O. Every reply it would produce, or the error it would throw, is a parameter of the action. Endpoint paths and the HTTP method are not modelled; the update route is visible only as `updateTarget` of `AddOrUpdateMember`.
- The concurrency in refresh and in `loadFeeds`' comment fetches is not modelled. The model composes the loads sequentially, which gives the same final state, since the loads write disjoint collections and `Promise.all` does not cancel the others. The loading flag is seen only at the end.
- Store.FirstFailure: refresh throws the error of the first failing load in listing order. The real `Promise.all` rejects with the first failure in time, which the model cannot see.
- React machinery (context, `useState`, `useCallback`, `useMemo`, `useEffect`) is left out. Setter callbacks are applied to the current state. In particular, `addCommentToPost` looks the post up in its render-time snapshot of `posts`; the model looks it up in the current posts.
- `Math.random` ids and `new Date().toISOString()` are left out because they are nondeterministic. They become fresh-id and `now` parameters; one `now` serves a whole action.
- `Number(...) || 0` is left out because it is JavaScript numeric coercion, including floats and NaN. A field is a `NumericField`: an integer, missing or non-numeric. Amounts are integers.
- `toLowerCase` is modelled on ASCII letters only, because Unicode case mapping is not available.
- The mappers of single-record replies (`addPost`, `addEvent`, `addOrUpdateMember`, `logDonation`, `updateDonation`) assume the reply's `data` record is present. A missing record makes the source throw a TypeError while reading a key. `addMedia` spreads the record and so accepts a missing one, and that is modelled. List replies also model a missing `data` (`?? []`).
- Spacing.ResponsiveSpacing: the window width is an integer here, while React Native reports it in fractional points. The bounds hold for any real width, but the model states them for integer widths only.
- `FormData` and `Platform` are platform objects. They become a sequence of entries and a platform parameter, and a file part is recorded as its uri, name and type.
- `console.warn` and `console.error` logging is left out, because it has no effect on state.
- Whether a new comment appears at the end of a post's comments depends on the server's ordering of `fetchComments`. It is not a property of the client.
- The role switcher component, the screens and the lint configuration are not part of this model.
