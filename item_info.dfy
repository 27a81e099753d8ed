/** The record a row of the item query becomes.  ItemInfo is a namedtuple
    over the registry's attribute names: a tuple holding one value per
    registry entry, in registry order, whose fields are read by name. */
module ItemRecords {
  import opened Wrappers
  import ColumnRegistry

  /** A value as SQLite hands it back, by storage class (blobs are not
      selected by the item query). */
  datatype Value = Null | Integer(i: int) | Real(r: real) | Text(s: string)

  /** The Python exceptions raised on the way from a row to a property. */
  datatype PyError =
    | TypeError(message: string)
    | NameError(name: string)
    | AssertionError(message: string)
    | AttributeError(message: string)
    | ZeroDivisionError

  /** A row with one value per registry entry. */
  type Row = r: seq<Value> | |r| == ColumnRegistry.ColumnCount witness seq(ColumnRegistry.ColumnCount, _ => Null)

  /** Typed readings of a stored value.  Booleans are stored as integers and
      read with Python's truth value of an integer; a value of a storage class
      other than the column's declared one reads as None. */
  function IntOf(v: Value): (o: Option<int>)
    ensures o.Some? <==> v.Integer?
  {
    match v case Integer(n) => Some(n) case _ => None
  }

  function BoolOf(v: Value): (o: Option<bool>)
    ensures o.Some? <==> v.Integer?
  {
    match v case Integer(n) => Some(n != 0) case _ => None
  }

  function TextOf(v: Value): (o: Option<string>)
    ensures o.Some? <==> v.Text?
  {
    match v case Text(t) => Some(t) case _ => None
  }

  // Positions of the fields the properties read, as the registry orders them.
  const IdAt: nat := 0
  const TitleAt: nat := 2
  const FeedIdAt: nat := 3
  const ParentIdAt: nat := 4
  const ParentTitleAt: nat := 5
  const IsFileItemAt: nat := 7
  const KeepAt: nat := 11
  const WatchedTimeAt: nat := 14
  const IsContainerItemAt: nat := 17
  const DurationMsAt: nat := 19
  const ScreenshotAt: nat := 20
  const EnclosureFormatAt: nat := 26
  const EnclosureSizeAt: nat := 27
  const UrlAt: nat := 31
  const WasDownloadedAt: nat := 32
  const RawFilenameAt: nat := 33
  const PlayCountAt: nat := 34
  const SkipCountAt: nat := 35
  const CoverArtAt: nat := 36
  const DescriptionAt: nat := 37
  const AlbumAt: nat := 38
  const AlbumArtistAt: nat := 39
  const ArtistAt: nat := 40
  const FileTypeAt: nat := 46
  const EligibleForAutodownloadAt: nat := 54
  const FeedUrlAt: nat := 55
  const FeedExpireAt: nat := 56
  const FeedExpireTimeAt: nat := 57
  const FeedAutoDownloadableAt: nat := 58
  const FeedGetEverythingAt: nat := 59
  const RawIconCacheFilenameAt: nat := 60
  const DownloaderContentTypeAt: nat := 61
  const DownloaderStateAt: nat := 62
  const DownloaderTypeAt: nat := 65
  const DownloadedSizeAt: nat := 70
  const DownloaderSizeAt: nat := 71

  /** An ItemInfo: the row itself, read through named, typed accessors. */
  datatype ItemInfo = ItemInfo(values: Row) {
    function Id(): Option<int> { IntOf(values[IdAt]) }
    function Title(): Option<string> { TextOf(values[TitleAt]) }
    function FeedId(): Option<int> { IntOf(values[FeedIdAt]) }
    function ParentId(): Option<int> { IntOf(values[ParentIdAt]) }
    function ParentTitle(): Option<string> { TextOf(values[ParentTitleAt]) }
    function IsFileItem(): Option<bool> { BoolOf(values[IsFileItemAt]) }
    function Keep(): Option<bool> { BoolOf(values[KeepAt]) }
    function WatchedTime(): Option<int> { IntOf(values[WatchedTimeAt]) }
    function IsContainerItem(): Option<bool> { BoolOf(values[IsContainerItemAt]) }
    function DurationMs(): Option<int> { IntOf(values[DurationMsAt]) }
    function Screenshot(): Option<string> { TextOf(values[ScreenshotAt]) }
    function EnclosureFormat(): Option<string> { TextOf(values[EnclosureFormatAt]) }
    function EnclosureSize(): Option<int> { IntOf(values[EnclosureSizeAt]) }
    function Url(): Option<string> { TextOf(values[UrlAt]) }
    function WasDownloaded(): Option<bool> { BoolOf(values[WasDownloadedAt]) }
    function RawFilename(): Option<string> { TextOf(values[RawFilenameAt]) }
    function PlayCount(): Option<int> { IntOf(values[PlayCountAt]) }
    function SkipCount(): Option<int> { IntOf(values[SkipCountAt]) }
    function CoverArt(): Option<string> { TextOf(values[CoverArtAt]) }
    function Description(): Option<string> { TextOf(values[DescriptionAt]) }
    function Album(): Option<string> { TextOf(values[AlbumAt]) }
    function AlbumArtist(): Option<string> { TextOf(values[AlbumArtistAt]) }
    function Artist(): Option<string> { TextOf(values[ArtistAt]) }
    function FileType(): Option<string> { TextOf(values[FileTypeAt]) }
    function EligibleForAutodownload(): Option<bool> { BoolOf(values[EligibleForAutodownloadAt]) }
    function FeedUrl(): Option<string> { TextOf(values[FeedUrlAt]) }
    function FeedExpire(): Option<string> { TextOf(values[FeedExpireAt]) }
    function FeedExpireTime(): Option<int> { IntOf(values[FeedExpireTimeAt]) }
    function FeedAutoDownloadable(): Option<bool> { BoolOf(values[FeedAutoDownloadableAt]) }
    function FeedGetEverything(): Option<bool> { BoolOf(values[FeedGetEverythingAt]) }
    function RawIconCacheFilename(): Option<string> { TextOf(values[RawIconCacheFilenameAt]) }
    function DownloaderContentType(): Option<string> { TextOf(values[DownloaderContentTypeAt]) }
    function DownloaderState(): Option<string> { TextOf(values[DownloaderStateAt]) }
    function DownloaderType(): Option<string> { TextOf(values[DownloaderTypeAt]) }
    function DownloadedSize(): Option<int> { IntOf(values[DownloadedSizeAt]) }
    function DownloaderSize(): Option<int> { IntOf(values[DownloaderSizeAt]) }
  }

  /** Each accessor reads the position the registry gives its attribute name. */
  lemma AccessorPositions1()
    ensures ColumnRegistry.Registry[IdAt].attrName == "id"
    ensures ColumnRegistry.Registry[TitleAt].attrName == "title"
    ensures ColumnRegistry.Registry[FeedIdAt].attrName == "feed_id"
    ensures ColumnRegistry.Registry[ParentIdAt].attrName == "parent_id"
  {
  }

  /** Each accessor reads the position the registry gives its attribute name. */
  lemma AccessorPositions2()
    ensures ColumnRegistry.Registry[ParentTitleAt].attrName == "parent_title"
    ensures ColumnRegistry.Registry[IsFileItemAt].attrName == "is_file_item"
    ensures ColumnRegistry.Registry[KeepAt].attrName == "keep"
    ensures ColumnRegistry.Registry[WatchedTimeAt].attrName == "watched_time"
  {
  }

  /** Each accessor reads the position the registry gives its attribute name. */
  lemma AccessorPositions3()
    ensures ColumnRegistry.Registry[IsContainerItemAt].attrName == "is_container_item"
    ensures ColumnRegistry.Registry[DurationMsAt].attrName == "duration_ms"
    ensures ColumnRegistry.Registry[ScreenshotAt].attrName == "screenshot"
    ensures ColumnRegistry.Registry[EnclosureFormatAt].attrName == "enclosure_format"
  {
  }

  /** Each accessor reads the position the registry gives its attribute name. */
  lemma AccessorPositions4()
    ensures ColumnRegistry.Registry[EnclosureSizeAt].attrName == "enclosure_size"
    ensures ColumnRegistry.Registry[UrlAt].attrName == "url"
    ensures ColumnRegistry.Registry[WasDownloadedAt].attrName == "was_downloaded"
    ensures ColumnRegistry.Registry[RawFilenameAt].attrName == "raw_filename"
  {
  }

  /** Each accessor reads the position the registry gives its attribute name. */
  lemma AccessorPositions5()
    ensures ColumnRegistry.Registry[PlayCountAt].attrName == "play_count"
    ensures ColumnRegistry.Registry[SkipCountAt].attrName == "skip_count"
    ensures ColumnRegistry.Registry[CoverArtAt].attrName == "cover_art"
    ensures ColumnRegistry.Registry[DescriptionAt].attrName == "description"
  {
  }

  /** Each accessor reads the position the registry gives its attribute name. */
  lemma AccessorPositions6()
    ensures ColumnRegistry.Registry[AlbumAt].attrName == "album"
    ensures ColumnRegistry.Registry[AlbumArtistAt].attrName == "album_artist"
    ensures ColumnRegistry.Registry[ArtistAt].attrName == "artist"
    ensures ColumnRegistry.Registry[FileTypeAt].attrName == "file_type"
  {
  }

  /** Each accessor reads the position the registry gives its attribute name. */
  lemma AccessorPositions7()
    ensures ColumnRegistry.Registry[EligibleForAutodownloadAt].attrName == "eligible_for_autodownload"
    ensures ColumnRegistry.Registry[FeedUrlAt].attrName == "feed_url"
    ensures ColumnRegistry.Registry[FeedExpireAt].attrName == "feed_expire"
    ensures ColumnRegistry.Registry[FeedExpireTimeAt].attrName == "feed_expire_time"
  {
  }

  /** Each accessor reads the position the registry gives its attribute name. */
  lemma AccessorPositions8()
    ensures ColumnRegistry.Registry[FeedAutoDownloadableAt].attrName == "feed_auto_downloadable"
    ensures ColumnRegistry.Registry[FeedGetEverythingAt].attrName == "feed_get_everything"
    ensures ColumnRegistry.Registry[RawIconCacheFilenameAt].attrName == "raw_icon_cache_filename"
    ensures ColumnRegistry.Registry[DownloaderContentTypeAt].attrName == "downloader_content_type"
  {
  }

  /** Each accessor reads the position the registry gives its attribute name. */
  lemma AccessorPositions9()
    ensures ColumnRegistry.Registry[DownloaderStateAt].attrName == "downloader_state"
    ensures ColumnRegistry.Registry[DownloaderTypeAt].attrName == "downloader_type"
    ensures ColumnRegistry.Registry[DownloadedSizeAt].attrName == "downloaded_size"
    ensures ColumnRegistry.Registry[DownloaderSizeAt].attrName == "downloader_size"
  {
  }

  /** ItemInfo(*row): the tuple takes exactly one value per field and raises
      TypeError otherwise; the values are kept as they are, in order. */
  function FromRow(row: seq<Value>): (r: Result<ItemInfo, PyError>)
    ensures r.Ok? <==> |row| == |ColumnRegistry.ColumnInfo()|
    ensures r.Ok? ==> r.value.values == row
    ensures r.Err? ==> r.error.TypeError?
  {
    if |row| == ColumnRegistry.ColumnCount then Ok(ItemInfo(row))
    else Err(TypeError("__new__() takes exactly one argument per field"))
  }
}
