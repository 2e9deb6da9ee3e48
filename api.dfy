/**
 * Multipart form construction for the upload endpoints. A form is the sequence
 * of (field, value) entries in the order they were appended; the platform the
 * app runs on is a parameter.
 */
module Api {
  import opened Wrappers
  import opened Text

  datatype Platform = Ios | Android | Web

  /** A picked file: its uri, and optionally a name and a MIME type. */
  datatype FileDescriptor = FileDescriptor(uri: string, name: Option<string>, mimeType: Option<string>)

  datatype FormValue = TextValue(text: string) | FileValue(uri: string, name: string, mimeType: string)

  datatype FormEntry = FormEntry(field: string, value: FormValue)

  /** The field names of a form, in order. */
  function Fields(entries: seq<FormEntry>): seq<string> {
    seq(|entries|, i requires 0 <= i < |entries| => entries[i].field)
  }

  /** The multipart body being built: it only ever grows at the end. */
  class FormData {
    var entries: seq<FormEntry>

    constructor ()
      ensures entries == []
    {
      entries := [];
    }

    method Append(field: string, value: FormValue)
      modifies this
      ensures entries == old(entries) + [FormEntry(field, value)]
    {
      entries := entries + [FormEntry(field, value)];
    }
  }

  // ------------------------------------------------------------ file parts

  /** The uri the part name is derived from: on iOS the first "file://" is removed. */
  function NameSourceUri(file: FileDescriptor, platform: Platform): string {
    if platform == Ios then ReplaceFirst(file.uri, "file://", "") else file.uri
  }

  /** `file.name`, else the last path segment of the (possibly stripped) uri. */
  function PartName(file: FileDescriptor, platform: Platform): string {
    file.name.GetOr(LastSegment(NameSourceUri(file, platform)))
  }

  /** What `appendFile` adds: nothing without a file or with an empty uri, else one file part. */
  function FileEntries(field: string, file: Option<FileDescriptor>, platform: Platform): seq<FormEntry> {
    if file.None? || file.value.uri == "" then []
    else
      var f := file.value;
      [FormEntry(field, FileValue(f.uri, PartName(f, platform), f.mimeType.GetOr("image/jpeg")))]
  }

  /** `appendFile(form, field, file)`. */
  method AppendFile(form: FormData, field: string, file: Option<FileDescriptor>, platform: Platform)
    modifies form
    ensures form.entries == old(form.entries) + FileEntries(field, file, platform)
  {
    if file.None? || file.value.uri == "" {
      return;
    }
    var f := file.value;
    var uri := if platform == Ios then ReplaceFirst(f.uri, "file://", "") else f.uri;
    var parts := Split(uri, '/');
    var popped := if |parts| > 0 then Some(parts[|parts| - 1]) else None;
    var name := f.name.Or(popped).GetOr("upload.jpg");
    var mimeType := f.mimeType.GetOr("image/jpeg");
    assert uri == NameSourceUri(f, platform);
    SplitPopIsLastSegment(uri);
    assert name == PartName(f, platform);
    assert FileEntries(field, file, platform) == [FormEntry(field, FileValue(f.uri, name, mimeType))];
    form.Append(field, FileValue(f.uri, name, mimeType));
  }

  /**
   * A file part exists exactly when a file with a non-empty uri is given; it is
   * the only entry, under `field`, and carries the ORIGINAL uri, the given name or
   * else the last segment of the uri the name is derived from, and the given type
   * or else "image/jpeg".
   */
  lemma FileEntriesSpec(field: string, file: Option<FileDescriptor>, platform: Platform)
    ensures |FileEntries(field, file, platform)| <= 1
    ensures FileEntries(field, file, platform) == [] <==> file.None? || file.value.uri == ""
    ensures FileEntries(field, file, platform) != [] ==>
      var e := FileEntries(field, file, platform)[0];
      && e.field == field
      && e.value.FileValue?
      && e.value.uri == file.value.uri
      && (file.value.name.Some? ==> e.value.name == file.value.name.value)
      && (file.value.name.None? ==> e.value.name == LastSegment(NameSourceUri(file.value, platform)))
      && e.value.mimeType == (if file.value.mimeType.Some? then file.value.mimeType.value else "image/jpeg")
  {
  }

  /**
   * Only iOS strips, and only the leading "file://": whatever follows it, even
   * another "file://", is kept.
   */
  lemma NameSourceUriSpec(file: FileDescriptor, rest: string)
    ensures NameSourceUri(file, Android) == file.uri && NameSourceUri(file, Web) == file.uri
    ensures file.uri == "file://" + rest ==> NameSourceUri(file, Ios) == rest
  {
    ReplaceFirstAtStart("file://", rest);
  }

  /**
   * For a uri that starts with "file://" the derived name is the same on every
   * platform: the stripping never shows in an uploaded part.
   */
  lemma FileSchemeNameIsPlatformIndependent(rest: string, mimeType: Option<string>, platform: Platform)
    ensures PartName(FileDescriptor("file://" + rest, None, mimeType), Ios)
         == PartName(FileDescriptor("file://" + rest, None, mimeType), platform)
  {
    ReplaceFirstAtStart("file://", rest);
    assert "file://" + rest == "file:/" + "/" + rest;
    LastSegmentOfSlashSuffix("file:/", rest);
  }

  // -------------------------------------------------------------- builders

  datatype FeedPayload = FeedPayload(
    title: string, description: string, category: Option<string>, media: Option<FileDescriptor>)

  datatype EventPayload = EventPayload(
    title: string, description: string, startsAt: string, location: string,
    coverImage: Option<FileDescriptor>)

  datatype MediaPayload = MediaPayload(
    title: Option<string>, category: Option<string>, media: Option<FileDescriptor>)

  datatype MemberPayload = MemberPayload(
    userName: string, email: string, role: string, phoneNumber: Option<string>,
    media: Option<FileDescriptor>)

  /** The body `createFeed` sends. */
  function FeedForm(p: FeedPayload, platform: Platform): seq<FormEntry> {
    [ FormEntry("title", TextValue(p.title)),
      FormEntry("description", TextValue(p.description)),
      FormEntry("category", TextValue(p.category.GetOr("General"))) ]
    + FileEntries("media", p.media, platform)
  }

  /** The body `createEvent` and `updateEvent` send. */
  function EventForm(p: EventPayload, platform: Platform): seq<FormEntry> {
    [ FormEntry("title", TextValue(p.title)),
      FormEntry("description", TextValue(p.description)),
      FormEntry("date", TextValue(p.startsAt)),
      FormEntry("location", TextValue(p.location)) ]
    + FileEntries("cover", p.coverImage, platform)
  }

  /** The body `createMedia` sends. */
  function MediaForm(p: MediaPayload, platform: Platform): seq<FormEntry> {
    [ FormEntry("title", TextValue(p.title.GetOr(""))),
      FormEntry("category", TextValue(p.category.GetOr("General"))) ]
    + FileEntries("media", p.media, platform)
  }

  /** The body `createMember` and `updateMember` send. */
  function MemberForm(p: MemberPayload, platform: Platform): seq<FormEntry> {
    [ FormEntry("userName", TextValue(p.userName)),
      FormEntry("email", TextValue(p.email)),
      FormEntry("role", TextValue(p.role)) ]
    + (if IsTruthy(p.phoneNumber) then [FormEntry("phoneNumber", TextValue(p.phoneNumber.value))] else [])
    + FileEntries("media", p.media, platform)
  }

  method BuildFeedForm(p: FeedPayload, platform: Platform) returns (form: FormData)
    ensures fresh(form) && form.entries == FeedForm(p, platform)
  {
    form := new FormData();
    form.Append("title", TextValue(p.title));
    form.Append("description", TextValue(p.description));
    form.Append("category", TextValue(p.category.GetOr("General")));
    AppendFile(form, "media", p.media, platform);
  }

  method BuildEventForm(p: EventPayload, platform: Platform) returns (form: FormData)
    ensures fresh(form) && form.entries == EventForm(p, platform)
  {
    form := new FormData();
    form.Append("title", TextValue(p.title));
    form.Append("description", TextValue(p.description));
    form.Append("date", TextValue(p.startsAt));
    form.Append("location", TextValue(p.location));
    AppendFile(form, "cover", p.coverImage, platform);
  }

  method BuildMediaForm(p: MediaPayload, platform: Platform) returns (form: FormData)
    ensures fresh(form) && form.entries == MediaForm(p, platform)
  {
    form := new FormData();
    form.Append("title", TextValue(p.title.GetOr("")));
    form.Append("category", TextValue(p.category.GetOr("General")));
    AppendFile(form, "media", p.media, platform);
  }

  method BuildMemberForm(p: MemberPayload, platform: Platform) returns (form: FormData)
    ensures fresh(form) && form.entries == MemberForm(p, platform)
  {
    form := new FormData();
    form.Append("userName", TextValue(p.userName));
    form.Append("email", TextValue(p.email));
    form.Append("role", TextValue(p.role));
    if p.phoneNumber.Some? && p.phoneNumber.value != "" {
      form.Append("phoneNumber", TextValue(p.phoneNumber.value));
    }
    AppendFile(form, "media", p.media, platform);
  }

  // ----------------------------------------------------- form properties

  /** Whether a file part will be added for this file. */
  predicate HasUpload(file: Option<FileDescriptor>) {
    file.Some? && file.value.uri != ""
  }

  /** The fields of each body, in order; the file field comes last and only with a file. */
  lemma FormFieldOrder(feed: FeedPayload, event: EventPayload, media: MediaPayload, platform: Platform)
    ensures Fields(FeedForm(feed, platform)) ==
      ["title", "description", "category"] + (if HasUpload(feed.media) then ["media"] else [])
    ensures Fields(EventForm(event, platform)) ==
      ["title", "description", "date", "location"] + (if HasUpload(event.coverImage) then ["cover"] else [])
    ensures Fields(MediaForm(media, platform)) ==
      ["title", "category"] + (if HasUpload(media.media) then ["media"] else [])
  {
  }

  /** The defaults: category "General" for feeds and media, an empty media title. */
  lemma FormDefaults(feed: FeedPayload, media: MediaPayload, platform: Platform)
    ensures feed.category.None? ==> FeedForm(feed, platform)[2] == FormEntry("category", TextValue("General"))
    ensures media.category.None? ==> MediaForm(media, platform)[1] == FormEntry("category", TextValue("General"))
    ensures media.title.None? ==> MediaForm(media, platform)[0] == FormEntry("title", TextValue(""))
  {
  }

  /** A member body has a "phoneNumber" field exactly when a non-empty phone number is given. */
  lemma MemberFormPhone(p: MemberPayload, platform: Platform)
    ensures "phoneNumber" in Fields(MemberForm(p, platform)) <==> IsTruthy(p.phoneNumber)
    ensures Fields(MemberForm(p, platform)) ==
      ["userName", "email", "role"]
      + (if IsTruthy(p.phoneNumber) then ["phoneNumber"] else [])
      + (if HasUpload(p.media) then ["media"] else [])
  {
    var f := Fields(MemberForm(p, platform));
    assert f == ["userName", "email", "role"]
      + (if IsTruthy(p.phoneNumber) then ["phoneNumber"] else [])
      + (if HasUpload(p.media) then ["media"] else []);
  }
}
