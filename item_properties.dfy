/** The derived, read-only properties of an ItemInfo.  Each is a case split
    over the record's nullable fields; what they consult outside the record
    (the file system, file-type helpers, the sort-key helper, resource paths,
    the expiry setting, the filename encoding and the HTML stripper) is
    passed in as a Platform of total functions. */
module ItemProperties {
  import opened Wrappers
  import opened ItemRecords
  import opened Strings

  /** The collaborators the properties call. */
  datatype Platform = Platform(
    fileExists: string -> bool,                              // fileutil.exists
    fileSize: string -> Option<int>,                         // os.path.getsize; None where it raises OSError
    isTorrentFilename: Option<string> -> bool,               // filetypes.is_torrent_filename
    calcFileFormat: (Option<string>, Option<string>) -> Option<string>, // filetypes.calc_file_format
    nameSortKey: Option<string> -> string,                   // util.name_sort_key
    resourcePath: string -> string,                          // resources.path
    expireAfterDays: int,                                    // the EXPIRE_AFTER_X_DAYS setting
    encodeFilename: string -> string,                        // text to the platform's filename type
    stripHtml: Option<string> -> (string, seq<string>))      // html_stripper.strip: text and links

  // ---------------------------------------------------------------------
  // Python truth values of the nullable fields (in Python 2, None > 0 is
  // False, so a missing count is not positive).
  // ---------------------------------------------------------------------

  predicate TruthyBool(o: Option<bool>) { o == Some(true) }

  predicate TruthyText(o: Option<string>) { o.Some? && o.value != "" }

  predicate Positive(o: Option<int>) { o.Some? && o.value > 0 }

  // ---------------------------------------------------------------------
  // Filenames
  // ---------------------------------------------------------------------

  /** _unicode_to_filename: None stays None, any text is converted to the
      platform's filename type. */
  function UnicodeToFilename(p: Platform, o: Option<string>): (r: Option<string>)
    ensures r.None? <==> o.None?
    ensures o.Some? ==> r == Some(p.encodeFilename(o.value))
  {
    match o
    case None => None
    case Some(s) => Some(p.encodeFilename(s))
  }

  /** filename: the stored filename, converted; None exactly when none is stored. */
  function Filename(i: ItemInfo, p: Platform): (f: Option<string>)
    ensures f.None? <==> i.RawFilename().None?
  {
    UnicodeToFilename(p, i.RawFilename())
  }

  /** icon_cache_filename: the icon-cache file's name, converted. */
  function IconCacheFilename(i: ItemInfo, p: Platform): (f: Option<string>)
    ensures f.None? <==> i.RawIconCacheFilename().None?
  {
    UnicodeToFilename(p, i.RawIconCacheFilename())
  }

  /** cover_art_filename: the cover-art file's name, converted. */
  function CoverArtFilename(i: ItemInfo, p: Platform): (f: Option<string>)
    ensures f.None? <==> i.CoverArt().None?
  {
    UnicodeToFilename(p, i.CoverArt())
  }

  // ---------------------------------------------------------------------
  // Status flags
  // ---------------------------------------------------------------------

  predicate HasFilename(i: ItemInfo) { i.RawFilename().Some? }

  predicate Downloaded(i: ItemInfo) { HasFilename(i) }

  predicate IsPlayable(i: ItemInfo) { HasFilename(i) && i.FileType() != Some("other") }

  predicate IsTorrent(i: ItemInfo) { i.DownloaderType() == Some("BitTorrent") }

  predicate IsTorrentFolder(i: ItemInfo) { IsTorrent(i) && TruthyBool(i.IsContainerItem()) }

  predicate LooksLikeTorrent(i: ItemInfo, p: Platform) {
    IsTorrent(i) || p.isTorrentFilename(i.Url())
  }

  predicate VideoWatched(i: ItemInfo) { i.WatchedTime().Some? }

  predicate CanBeSaved(i: ItemInfo) { HasFilename(i) && !TruthyBool(i.Keep()) }

  predicate IsDownload(i: ItemInfo) {
    i.DownloaderState() == Some("downloading") || i.DownloaderState() == Some("paused")
  }

  predicate IsPaused(i: ItemInfo) { i.DownloaderState() == Some("paused") }

  predicate IsSeeding(i: ItemInfo) { i.DownloaderState() == Some("uploading") }

  predicate IsFailedDownload(i: ItemInfo) { i.DownloaderState() == Some("failed") }

  predicate HasParent(i: ItemInfo) { i.ParentId().Some? }

  /** How the flags relate: a file is there exactly when its stored name is,
      playing and saving need one, a torrent folder is a torrent, and a
      torrent always looks like one. */
  lemma StatusFlags(i: ItemInfo, p: Platform)
    ensures HasFilename(i) <==> Filename(i, p).Some?
    ensures Downloaded(i) == HasFilename(i)
    ensures IsPlayable(i) ==> HasFilename(i)
    ensures CanBeSaved(i) ==> HasFilename(i) && !TruthyBool(i.Keep())
    ensures IsTorrentFolder(i) ==> IsTorrent(i) && LooksLikeTorrent(i, p)
    ensures VideoWatched(i) <==> i.WatchedTime().Some?
  {
  }

  /** The downloader states: downloading and paused count as a download,
      and a download, a seeding torrent and a failed download exclude each
      other. */
  lemma DownloadStates(i: ItemInfo)
    ensures IsDownload(i) <==> i.DownloaderState() in {Some("downloading"), Some("paused")}
    ensures IsPaused(i) ==> IsDownload(i)
    ensures !(IsDownload(i) && IsSeeding(i))
    ensures !(IsDownload(i) && IsFailedDownload(i))
    ensures !(IsSeeding(i) && IsFailedDownload(i))
  {
  }

  // ---------------------------------------------------------------------
  // Thumbnail
  // ---------------------------------------------------------------------

  const FolderImage := "images/thumb-default-folder.png"
  const AudioImage := "images/thumb-default-audio.png"
  const VideoImage := "images/thumb-default-video.png"

  /** thumbnail: cover art, then the icon cache file, then the screenshot,
      each only if set and present on disk; otherwise a default image for a
      folder, for audio, or for anything else. */
  function Thumbnail(i: ItemInfo, p: Platform): (t: string)
    ensures t == DefaultThumbnail(i, p) || p.fileExists(t)
  {
    if TruthyText(i.CoverArt()) && p.fileExists(CoverArtFilename(i, p).value) then
      CoverArtFilename(i, p).value
    else if i.RawIconCacheFilename().Some? && p.fileExists(IconCacheFilename(i, p).value) then
      IconCacheFilename(i, p).value
    else if TruthyText(i.Screenshot()) && p.fileExists(i.Screenshot().value) then
      i.Screenshot().value
    else if TruthyBool(i.IsContainerItem()) then
      p.resourcePath(FolderImage)
    else if i.FileType() == Some("audio") then
      p.resourcePath(AudioImage)
    else
      p.resourcePath(VideoImage)
  }

  /** The image files thumbnail tries, in order; None for one that is not set. */
  function ThumbnailCandidates(i: ItemInfo, p: Platform): (c: seq<Option<string>>)
    ensures |c| == 3
  {
    [ if TruthyText(i.CoverArt()) then CoverArtFilename(i, p) else None,
      IconCacheFilename(i, p),
      if TruthyText(i.Screenshot()) then i.Screenshot() else None ]
  }

  /** The default image when no candidate file is found. */
  function DefaultThumbnail(i: ItemInfo, p: Platform): (t: string) {
    if TruthyBool(i.IsContainerItem()) then p.resourcePath(FolderImage)
    else if i.FileType() == Some("audio") then p.resourcePath(AudioImage)
    else p.resourcePath(VideoImage)
  }

  /** The position of the first candidate that is set and exists. */
  function FirstExisting(c: seq<Option<string>>, present: string -> bool): (r: Option<nat>)
    ensures r.Some? ==> r.value < |c| && c[r.value].Some? && present(c[r.value].value)
    ensures r.Some? ==> forall j :: 0 <= j < r.value ==> !(c[j].Some? && present(c[j].value))
    ensures r.None? ==> forall j :: 0 <= j < |c| ==> !(c[j].Some? && present(c[j].value))
  {
    if |c| == 0 then None
    else if c[0].Some? && present(c[0].value) then Some(0)
    else
      match FirstExisting(c[1..], present)
      case None => None
      case Some(k) => Some(k + 1)
  }

  /** thumbnail is the first existing candidate, or the default image when
      there is none. */
  lemma ThumbnailFirstMatch(i: ItemInfo, p: Platform)
    ensures var k := FirstExisting(ThumbnailCandidates(i, p), p.fileExists);
      Thumbnail(i, p) == if k.Some? then ThumbnailCandidates(i, p)[k.value].value else DefaultThumbnail(i, p)
  {
    var c := ThumbnailCandidates(i, p);
    var k := FirstExisting(c, p.fileExists);
    if k.Some? {
      assert k.value == 0 || !(c[0].Some? && p.fileExists(c[0].value));
      assert k.value == 2 ==> !(c[1].Some? && p.fileExists(c[1].value));
    } else {
      assert !(c[0].Some? && p.fileExists(c[0].value));
      assert !(c[1].Some? && p.fileExists(c[1].value));
      assert !(c[2].Some? && p.fileExists(c[2].value));
    }
  }

  // ---------------------------------------------------------------------
  // Provenance and sharing
  // ---------------------------------------------------------------------

  /** is_external: downloaded by Miro outside a feed. */
  predicate IsExternal(i: ItemInfo) {
    if TruthyBool(i.IsFileItem()) then HasParent(i) else i.FeedUrl() == Some("dtv:manualFeed")
  }

  /** A file item is external exactly when it has a parent; any other item
      exactly when it belongs to the manual feed. */
  lemma IsExternalCases(i: ItemInfo)
    ensures TruthyBool(i.IsFileItem()) ==> (IsExternal(i) <==> i.ParentId().Some?)
    ensures !TruthyBool(i.IsFileItem()) ==> (IsExternal(i) <==> i.FeedUrl() == Some("dtv:manualFeed"))
  {
  }

  /** has_shareable_url: a non-empty URL that is not a file: URL.  A missing
      URL passes the first test and fails on the method call. */
  function HasShareableUrl(i: ItemInfo): (r: Result<bool, PyError>)
    ensures r.Err? <==> i.Url().None?
    ensures r.Err? ==> r.error.AttributeError?
    ensures r.Ok? ==> (r.value <==> i.Url().value != "" && !StartsWith(i.Url().value, "file:"))
  {
    match i.Url()
    case None => Err(AttributeError("'NoneType' object has no attribute 'startswith'"))
    case Some(u) => Ok(u != "" && !StartsWith(u, "file:"))
  }

  /** Concrete records: a local file URL and an empty URL are not
      shareable, a web URL and a URL too short to carry the file: prefix
      are. */
  lemma ShareableUrlExamples(local: ItemInfo, empty: ItemInfo, web: ItemInfo, short: ItemInfo)
    requires local.Url() == Some("file:///tmp/a.avi")
    requires empty.Url() == Some("")
    requires web.Url() == Some("http://example.com/a.avi")
    requires short.Url() == Some("fil")
    ensures HasShareableUrl(local) == Ok(false)
    ensures HasShareableUrl(empty) == Ok(false)
    ensures HasShareableUrl(web) == Ok(true)
    ensures HasShareableUrl(short) == Ok(true)
  {
    assert "file:///tmp/a.avi"[..5] == "file:";
    assert "http://example.com/a.avi"[0] != "file:"[0];
  }

  // ---------------------------------------------------------------------
  // Size and format
  // ---------------------------------------------------------------------

  /** size: the size on disk of a downloaded file, else the downloader's
      total for a running or paused download, else the enclosure size. */
  function Size(i: ItemInfo, p: Platform): (r: Option<int>)
    ensures r.Some? ==> r == i.DownloaderSize() || r == i.EnclosureSize() || HasFilename(i)
  {
    if HasFilename(i) then p.fileSize(Filename(i, p).value)
    else if IsDownload(i) then i.DownloaderSize()
    else i.EnclosureSize()
  }

  /** The sources are tried in order, and once one applies no later one is
      consulted, even when it fails. */
  lemma SizePriority(i: ItemInfo, p: Platform)
    ensures HasFilename(i) ==> Size(i, p) == p.fileSize(p.encodeFilename(i.RawFilename().value))
    ensures HasFilename(i) && p.fileSize(p.encodeFilename(i.RawFilename().value)).None? ==> Size(i, p).None?
    ensures !HasFilename(i) && IsDownload(i) ==> Size(i, p) == i.DownloaderSize()
    ensures !HasFilename(i) && !IsDownload(i) ==> Size(i, p) == i.EnclosureSize()
  {
  }

  /** file_format: a torrent marker, else the declared enclosure format,
      else what the file-type helper derives from filename and content type. */
  function FileFormat(i: ItemInfo, p: Platform): (r: Option<string>)
    ensures r != Some(".torrent") ==> !LooksLikeTorrent(i, p)
  {
    if LooksLikeTorrent(i, p) then Some(".torrent")
    else if i.EnclosureFormat().Some? then i.EnclosureFormat()
    else p.calcFileFormat(Filename(i, p), i.DownloaderContentType())
  }

  /** A torrent, or a URL the helper calls a torrent file, gives the
      torrent marker; otherwise a declared enclosure format wins over what
      the helper derives. */
  lemma FileFormatChain(i: ItemInfo, p: Platform)
    ensures LooksLikeTorrent(i, p) ==> FileFormat(i, p) == Some(".torrent")
    ensures !LooksLikeTorrent(i, p) && i.EnclosureFormat().Some? ==> FileFormat(i, p) == i.EnclosureFormat()
    ensures !LooksLikeTorrent(i, p) && i.EnclosureFormat().None? ==>
      FileFormat(i, p) == p.calcFileFormat(UnicodeToFilename(p, i.RawFilename()), i.DownloaderContentType())
  {
  }

  // ---------------------------------------------------------------------
  // Expiration
  // ---------------------------------------------------------------------

  /** A day of the setting, in the seconds the timestamps count. */
  const SecondsPerDay: int := 86400

  /** The conditions under which an item never expires, whatever its feed says. */
  predicate ExemptFromExpiry(i: ItemInfo) {
    i.WatchedTime().None? || !HasFilename(i) || TruthyBool(i.Keep())
  }

  /** expiration_date as written: the "feed" branch reads a name that is
      not bound anywhere, so it raises NameError. */
  function ExpirationDate(i: ItemInfo, p: Platform): (r: Result<Option<int>, PyError>)
    ensures r.Ok? && r.value.Some? ==> !ExemptFromExpiry(i) && r.value.value > i.WatchedTime().value
  {
    if ExemptFromExpiry(i) then Ok(None)
    else if i.FeedExpire() == Some("never") then Ok(None)
    else if i.FeedExpire() == Some("feed") then Err(NameError("feed_expire_time"))
    else if i.FeedExpire() == Some("system") then
      if p.expireAfterDays <= 0 then Ok(None)
      else Ok(Some(i.WatchedTime().value + p.expireAfterDays * SecondsPerDay))
    else Err(AssertionError("Unknown expire value"))
  }

  /** expiration_date as evidently intended: the "feed" branch adds the
      feed's own expiry time, the field the registry selects for it; adding
      a missing one raises TypeError. */
  function IntendedExpirationDate(i: ItemInfo, p: Platform): (r: Result<Option<int>, PyError>)
    ensures r.Ok? && r.value.Some? ==> !ExemptFromExpiry(i)
  {
    if ExemptFromExpiry(i) then Ok(None)
    else if i.FeedExpire() == Some("never") then Ok(None)
    else if i.FeedExpire() == Some("feed") then
      match i.FeedExpireTime()
      case None => Err(TypeError("unsupported operand type(s) for +"))
      case Some(t) => Ok(Some(i.WatchedTime().value + t))
    else if i.FeedExpire() == Some("system") then
      if p.expireAfterDays <= 0 then Ok(None)
      else Ok(Some(i.WatchedTime().value + p.expireAfterDays * SecondsPerDay))
    else Err(AssertionError("Unknown expire value"))
  }

  /** Items that are not watched, have no file, or are kept never expire;
      neither do items of a "never" feed, nor of a "system" feed while the
      setting is not positive.  With a positive setting the item expires
      that many days after it was watched, and an unknown policy raises. */
  lemma ExpirationPolicy(i: ItemInfo, p: Platform)
    ensures ExemptFromExpiry(i) ==> ExpirationDate(i, p) == Ok(None)
    ensures i.FeedExpire() == Some("never") ==> ExpirationDate(i, p) == Ok(None)
    ensures i.FeedExpire() == Some("system") && p.expireAfterDays <= 0 ==> ExpirationDate(i, p) == Ok(None)
    ensures !ExemptFromExpiry(i) && i.FeedExpire() == Some("system") && p.expireAfterDays > 0 ==>
      ExpirationDate(i, p) == Ok(Some(i.WatchedTime().value + p.expireAfterDays * 86400))
    ensures !ExemptFromExpiry(i) && i.FeedExpire() !in {Some("never"), Some("feed"), Some("system")} ==>
      ExpirationDate(i, p).Err? && ExpirationDate(i, p).error.AssertionError?
    ensures ExpirationDate(i, p).Ok? && ExpirationDate(i, p).value.Some? ==>
      ExpirationDate(i, p).value.value > i.WatchedTime().value
  {
  }

  /** The "feed" policy as written: every item it governs raises NameError. */
  lemma ExpirationFeedRaises(i: ItemInfo, p: Platform)
    requires !ExemptFromExpiry(i) && i.FeedExpire() == Some("feed")
    ensures ExpirationDate(i, p) == Err(NameError("feed_expire_time"))
  {
  }

  /** The corrected "feed" policy expires the item the feed's expiry time
      after it was watched, and agrees with the code as written everywhere
      outside that policy. */
  lemma IntendedExpiration(i: ItemInfo, p: Platform)
    ensures !ExemptFromExpiry(i) && i.FeedExpire() == Some("feed") && i.FeedExpireTime().Some? ==>
      IntendedExpirationDate(i, p) == Ok(Some(i.WatchedTime().value + i.FeedExpireTime().value))
    ensures ExemptFromExpiry(i) || i.FeedExpire() != Some("feed") ==>
      IntendedExpirationDate(i, p) == ExpirationDate(i, p)
  {
  }

  // ---------------------------------------------------------------------
  // Download progress
  // ---------------------------------------------------------------------

  /** download_progress: 0.0 until something has been downloaded, None
      when the total is unknown, else the downloaded fraction (a zero total
      raises ZeroDivisionError). */
  function DownloadProgress(i: ItemInfo): (r: Result<Option<real>, PyError>)
    ensures r.Err? ==> r.error == ZeroDivisionError
    ensures r == Ok(None) ==> i.DownloaderSize().None?
  {
    if i.DownloadedSize() == Some(0) || i.DownloadedSize().None? then Ok(Some(0.0))
    else if i.DownloadedSize().None? || i.DownloaderSize().None? then Ok(None)
    else if i.DownloaderSize().value == 0 then Err(ZeroDivisionError)
    else Ok(Some(i.DownloadedSize().value as real / i.DownloaderSize().value as real))
  }

  /** Nothing downloaded gives 0.0 even with no total; an unknown total
      gives None; a known, non-zero total gives the downloaded fraction,
      which lies in [0, 1] while the downloaded count does not exceed the
      total. */
  lemma DownloadProgressCases(i: ItemInfo)
    ensures i.DownloadedSize() in {None, Some(0)} ==> DownloadProgress(i) == Ok(Some(0.0))
    ensures i.DownloadedSize() !in {None, Some(0)} && i.DownloaderSize().None? ==> DownloadProgress(i) == Ok(None)
    ensures i.DownloadedSize() !in {None, Some(0)} && i.DownloaderSize() == Some(0) ==>
      DownloadProgress(i) == Err(ZeroDivisionError)
    ensures i.DownloadedSize() !in {None, Some(0)} && i.DownloaderSize().Some? && i.DownloaderSize().value != 0 ==>
      DownloadProgress(i) == Ok(Some(i.DownloadedSize().value as real / i.DownloaderSize().value as real))
    ensures (i.DownloadedSize().Some? && i.DownloaderSize().Some? &&
             0 <= i.DownloadedSize().value <= i.DownloaderSize().value && i.DownloaderSize().value > 0) ==>
      DownloadProgress(i).Ok? && DownloadProgress(i).value.Some? &&
      0.0 <= DownloadProgress(i).value.value <= 1.0
  {
    if i.DownloadedSize().Some? && i.DownloaderSize().Some? && i.DownloadedSize().value != 0 &&
       0 <= i.DownloadedSize().value <= i.DownloaderSize().value && i.DownloaderSize().value > 0 {
      var d := i.DownloadedSize().value as real;
      var t := i.DownloaderSize().value as real;
      assert d / t <= t / t;
    }
  }

  // ---------------------------------------------------------------------
  // Auto-download, sort keys, description
  // ---------------------------------------------------------------------

  /** pending_auto_dl: the feed downloads automatically (tested twice), the
      item was never downloaded, and the feed takes everything or the item
      is eligible. */
  predicate PendingAutoDl(i: ItemInfo) {
    TruthyBool(i.FeedAutoDownloadable()) &&
    !TruthyBool(i.WasDownloaded()) &&
    TruthyBool(i.FeedAutoDownloadable()) &&
    (TruthyBool(i.FeedGetEverything()) || TruthyBool(i.EligibleForAutodownload()))
  }

  /** The repeated test changes nothing: pending exactly when the feed
      auto-downloads, the item was not downloaded, and everything is taken
      or the item is eligible. */
  lemma PendingAutoDlMeaning(i: ItemInfo)
    ensures PendingAutoDl(i) <==>
      i.FeedAutoDownloadable() == Some(true) && i.WasDownloaded() != Some(true) &&
      (i.FeedGetEverything() == Some(true) || i.EligibleForAutodownload() == Some(true))
    ensures i.WasDownloaded() == Some(true) ==> !PendingAutoDl(i)
  {
  }

  function TitleSortKey(i: ItemInfo, p: Platform): (k: string) { p.nameSortKey(i.Title()) }

  function ArtistSortKey(i: ItemInfo, p: Platform): (k: string) { p.nameSortKey(i.Artist()) }

  function AlbumSortKey(i: ItemInfo, p: Platform): (k: string) { p.nameSortKey(i.Album()) }

  function AlbumArtistSortKey(i: ItemInfo, p: Platform): (k: string)
    ensures k == p.nameSortKey(i.AlbumArtist()) || k == ArtistSortKey(i, p)
  {
    if TruthyText(i.AlbumArtist()) then p.nameSortKey(i.AlbumArtist()) else ArtistSortKey(i, p)
  }

  /** The album artist's key when one is set and not empty, otherwise the
      artist's key. */
  lemma AlbumArtistSortKeyFallback(i: ItemInfo, p: Platform)
    ensures TruthyText(i.AlbumArtist()) ==> AlbumArtistSortKey(i, p) == p.nameSortKey(i.AlbumArtist())
    ensures !TruthyText(i.AlbumArtist()) ==> AlbumArtistSortKey(i, p) == p.nameSortKey(i.Artist())
    ensures i.AlbumArtist() in {None, Some("")} ==> AlbumArtistSortKey(i, p) == ArtistSortKey(i, p)
  {
  }

  /** parent_title_for_sort: the parent title, then the feed and parent ids. */
  function ParentTitleForSort(i: ItemInfo): (k: (Option<string>, Option<int>, Option<int>)) {
    (i.ParentTitle(), i.FeedId(), i.ParentId())
  }

  /** Items with the same parent title but from different feeds or parents
      get different keys, so they are not mixed when sorted. */
  lemma ParentTitleSeparates(a: ItemInfo, b: ItemInfo)
    ensures ParentTitleForSort(a) == ParentTitleForSort(b) ==>
      a.ParentTitle() == b.ParentTitle() && a.FeedId() == b.FeedId() && a.ParentId() == b.ParentId()
    ensures a.FeedId() != b.FeedId() || a.ParentId() != b.ParentId() ==>
      ParentTitleForSort(a) != ParentTitleForSort(b)
  {
  }

  /** s.replace('\n', '$'). */
  function ReplaceNewlines(s: string): (r: string)
    ensures |r| == |s|
    ensures forall k :: 0 <= k < |s| ==> r[k] == (if s[k] == '\n' then '$' else s[k])
  {
    if |s| == 0 then "" else [if s[0] == '\n' then '$' else s[0]] + ReplaceNewlines(s[1..])
  }

  /** The one-line description has no line breaks, and a text without any
      is left as it is. */
  lemma OnelineProperties(s: string)
    ensures '\n' !in ReplaceNewlines(s)
    ensures '\n' !in s ==> ReplaceNewlines(s) == s
  {
    var r := ReplaceNewlines(s);
    assert forall k :: 0 <= k < |r| ==> r[k] != '\n';
  }

  // ---------------------------------------------------------------------
  // Rating and duration
  // ---------------------------------------------------------------------

  function Min(a: int, b: int): (m: int) { if a <= b then a else b }

  function Max(a: int, b: int): (m: int) { if a >= b then a else b }

  /** int(n / 2.0): the half of n, truncated toward zero as Python's int() does. */
  function TruncatedHalf(n: int): (h: int)
    ensures n >= 0 ==> 2 * h <= n < 2 * h + 2
    ensures n < 0 ==> 2 * h - 2 < n <= 2 * h
  {
    if n >= 0 then n / 2 else -((-n) / 2)
  }

  /** auto_rating over the play and skip counts: play - 1.5 * skip, kept in
      [1, 5], when both are positive; twice the plays, at most 5, when only
      plays are; 1 when only skips are; None for neither. */
  function AutoRatingOf(play: Option<int>, skip: Option<int>): (r: Option<int>)
    ensures r.None? <==> !Positive(play) && !Positive(skip)
    ensures r.Some? ==> 1 <= r.value <= 5
    ensures Positive(play) && !Positive(skip) ==> r == Some(Min(5, 2 * play.value))
    ensures !Positive(play) && Positive(skip) ==> r == Some(1)
  {
    if Positive(play) then
      if Positive(skip) then Some(Min(5, Max(1, TruncatedHalf(2 * play.value - 3 * skip.value))))
      else Some(Min(5, 2 * play.value))
    else if Positive(skip) then Some(1)
    else None
  }

  /** auto_rating of a record: a rating from 1 to 5, or None when neither
      count is positive. */
  function AutoRating(i: ItemInfo): (r: Option<int>)
    ensures r.None? <==> !Positive(i.PlayCount()) && !Positive(i.SkipCount())
    ensures r.Some? ==> 1 <= r.value <= 5
  {
    AutoRatingOf(i.PlayCount(), i.SkipCount())
  }

  /** The examples the factors are chosen for: three plays without a skip
      give 5, one play gives 2, four plays and two skips give 1, and skips
      alone give 1. */
  lemma AutoRatingExamples()
    ensures AutoRatingOf(Some(3), Some(0)) == Some(5)
    ensures AutoRatingOf(Some(3), None) == Some(5)
    ensures AutoRatingOf(Some(1), Some(0)) == Some(2)
    ensures AutoRatingOf(Some(4), Some(2)) == Some(1)
    ensures AutoRatingOf(Some(0), Some(2)) == Some(1)
    ensures AutoRatingOf(None, None) == None
  {
  }

  /** The rating drops to 1 once skips reach 40% of all listens, and
      reaches 5 after three plays without a skip. */
  lemma AutoRatingThresholds(play: int, skip: int)
    ensures play > 0 && skip > 0 && 3 * skip >= 2 * play ==> AutoRatingOf(Some(play), Some(skip)) == Some(1)
    ensures play >= 3 ==> AutoRatingOf(Some(play), Some(0)) == Some(5)
  {
    if play > 0 && skip > 0 && 3 * skip >= 2 * play {
      var h := TruncatedHalf(2 * play - 3 * skip);
      assert h <= 0;
    }
  }

  /** More plays never lower the rating, more skips never raise it. */
  lemma {:induction false} AutoRatingMonotone(play1: int, play2: int, skip1: int, skip2: int)
    requires 0 < play1 <= play2 && 0 < skip2 <= skip1
    ensures AutoRatingOf(Some(play1), Some(skip1)).value <= AutoRatingOf(Some(play2), Some(skip2)).value
  {
    var n1 := 2 * play1 - 3 * skip1;
    var n2 := 2 * play2 - 3 * skip2;
    assert n1 <= n2;
    TruncatedHalfMonotone(n1, n2);
  }

  lemma TruncatedHalfMonotone(a: int, b: int)
    requires a <= b
    ensures TruncatedHalf(a) <= TruncatedHalf(b)
  {
  }

  /** duration: whole seconds of the stored milliseconds, rounded down. */
  function Duration(i: ItemInfo): (r: Option<int>)
    ensures r.None? <==> i.DurationMs().None?
    ensures r.Some? ==> r.value * 1000 <= i.DurationMs().value < r.value * 1000 + 1000
  {
    match i.DurationMs()
    case None => None
    case Some(ms) => Some(ms / 1000)
  }

  // ---------------------------------------------------------------------
  // The memoised description
  // ---------------------------------------------------------------------

  /** An ItemInfo object as the interface sees it: the record, the shared
      HTML stripper, and the stripped description cached on first use. */
  class ItemView {
    const info: ItemInfo
    const platform: Platform
    var strippedMemo: Option<(string, seq<string>)>

    /** A cached value is always the stripped description. */
    ghost predicate Valid()
      reads this
    {
      strippedMemo.Some? ==> strippedMemo.value == platform.stripHtml(info.Description())
    }

    constructor (info: ItemInfo, platform: Platform)
      ensures Valid()
      ensures this.info == info && this.platform == platform && strippedMemo.None?
    {
      this.info := info;
      this.platform := platform;
      strippedMemo := None;
    }

    /** description_stripped: strips on first use and keeps the result. */
    method DescriptionStripped() returns (s: (string, seq<string>))
      requires Valid()
      modifies this
      ensures Valid()
      ensures s == platform.stripHtml(info.Description())
      ensures strippedMemo == Some(s)
    {
      if strippedMemo.None? {
        strippedMemo := Some(platform.stripHtml(info.Description()));
      }
      s := strippedMemo.value;
    }

    /** description_oneline: the stripped text with line breaks turned into '$'. */
    method DescriptionOneline() returns (line: string)
      requires Valid()
      modifies this
      ensures Valid()
      ensures line == ReplaceNewlines(platform.stripHtml(info.Description()).0)
      ensures '\n' !in line
      ensures strippedMemo == Some(platform.stripHtml(info.Description()))
    {
      var s := DescriptionStripped();
      line := ReplaceNewlines(s.0);
      OnelineProperties(s.0);
    }
  }
}
