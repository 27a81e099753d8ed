# Miro item projection and browser URL policy, in Dafny

This project models two pieces of Miro.

The first is the read-only item projection, `miro.data.item`:
- the registry of selected columns (`SelectColumn`, `column_info()`);
- the LEFT JOIN clause (`join_sql()`);
- the namedtuple record `ItemInfo`, built positionally from one query row;
- the record's derived properties (status flags, size, file format, thumbnail, expiration, download progress, auto-rating, duration, sort keys, pending auto-download, description);
- `fetch_item_infos`, which builds the SELECT text and turns each returned row into a record.

The second is the URL policy of the embedded browser:
- `PROTOCOLS_MIRO_HANDLES` and `_should_miro_handle`;
- the decision order of `Browser.should_load_url`.

Modules:
- `Wrappers` holds `Option` and `Result`.
- `Strings` holds `startswith`, `sep.join`, `str(int)`, and their inverses with the round trips.
- `ColumnRegistry` holds the registry, the namedtuple field-name check, the join clause and the `_schema_map` loop.
- `ItemRecords` holds the row values, the record and its accessors.
- `ItemProperties` holds the derived properties and the memoised description.
- `Fetch` holds the query text and the rows-to-records step.
- `Browser` holds the URL policy.

Modelling choices:
- Outside collaborators are parameters of the model. On the item side they form a `Platform` value of total functions: `fileutil.exists`, `os.path.getsize`, `filetypes.*`, `util.name_sort_key`, `resources.path`, the `EXPIRE_AFTER_X_DAYS` setting, the filename encoding and the HTML stripper. On the browser side they form a `Helpers` value: `util.toUni`, `subscription.is_subscribe_link`, `guide.isPartOfGuide` and `filetypes.isFeedFilename`/`isAllowedFilename`.
- A query row is a sequence of SQLite values (null, integer, real, text).
- A record is that row (the namedtuple is a tuple) read through typed accessors. Each accessor reads the position the registry gives its attribute name.
- Booleans are stored as integers and read with Python's truth value.
- Timestamps and time deltas are whole seconds.
- Python exceptions become `Err` values of a `Result`.
- The browser's side effects are returned as an `Action` value:
  - the `SubscriptionLinkClicked` message sent to the backend;
  - the external-URL handler scheduled on the UI thread.

Behaviours of the code worth knowing, which the model keeps:
- `thumbnail` also requires the screenshot file to exist before it returns it (item.py:261).
- The `"feed"` branch of `expiration_date` reads an unbound name, so it raises `NameError` (item.py:339). See Findings.
- `download_progress` returns 0.0 for a missing or zero downloaded size before it looks at the total. So an unknown total gives 0.0, not None, until something has been downloaded (item.py:376-382).
- `auto_rating` is None exactly when neither count is positive (item.py:473-482), so negative counts give None as well as zero ones.
- Some properties raise on data the database can hold:
  - `has_shareable_url` raises `AttributeError` on a null URL (item.py:288);
  - `download_progress` raises `ZeroDivisionError` on a zero total when something has been downloaded (item.py:383);
  - `expiration_date` raises `AssertionError` on a null or unknown `feed_expire` (item.py:346).

## Model

| member | source | states |
|---|---|---|
| `Strings.SplitJoin` | tv/lib/data/item.py:493-494 | splitting a comma join on the comma gives the parts back when no part holds a comma |
| `Strings.DecimalRoundTrip` | tv/lib/data/item.py:494 | `str(item_id)` parses back to the same integer, negative ids included |
| `Strings.DecimalHasNoComma` | tv/lib/data/item.py:494 | `str(n)` never contains the list separator |
| `ColumnRegistry.DefaultAttrName` | tv/lib/data/item.py:67-72 | the attribute name defaults to the column name and otherwise is the one given; table and column are kept |
| `ColumnRegistry.ColumnInfo` | tv/lib/data/item.py:80-166 | the registry has 77 entries; their attribute names are pairwise distinct, non-empty and do not start with an underscore; no table or column name holds ',' or '.' |
| `ColumnRegistry.RegistrySqlSafe` | tv/lib/data/item.py:80-159 | every registry entry's table and column are free of ',' and '.', assembled from one fact per entry |
| `ColumnRegistry.RegistryFacts` | tv/lib/data/item.py:80-159 | the same three facts, assembled from the facts about each run of entries and their pairwise disjointness |
| `ColumnRegistry.CheckFieldNames` | tv/lib/data/item.py:178-179 | namedtuple's field-name pass succeeds exactly when the names are distinct, valid and not seen before; every failure is a ValueError |
| `ColumnRegistry.ItemRowFieldsAccepted` | tv/lib/data/item.py:178-179 | `namedtuple("ItemRow", [attribute names])` accepts the registry's attribute names |
| `ColumnRegistry.RegistryTablesJoined` | tv/lib/data/item.py:80-175 | every table the registry selects from is `item` or one of the three tables the join clause LEFT JOINs |
| `ColumnRegistry.JoinSql` | tv/lib/data/item.py:168-175 | join_sql(): the LEFT JOIN clauses of feed on feed_id, remote_downloader on downloader_id and icon_cache on icon_cache_id, one per line; JoinSqlLines states what it reads back as |
| `ColumnRegistry.JoinSqlLines` | tv/lib/data/item.py:172-175 | split at line breaks, join_sql() gives back exactly the three `LEFT JOIN t ON t.id=item.key` clauses, in order |
| `ColumnRegistry.MapOfKeys` | tv/lib/data/item.py:62-65 | the dictionary filled by assignments has exactly the assigned keys |
| `ColumnRegistry.MapOfLastWins` | tv/lib/data/item.py:62-65 | a key maps to the value of its last assignment |
| `ColumnRegistry.BuildSchemaMap` | tv/lib/data/item.py:61-65 | the nested loop over schemas and fields leaves the dictionary of all ((table, column), schema item) assignments, in visiting order |
| `ColumnRegistry.EntriesAreDeclared` | tv/lib/data/item.py:63-65 | every key of the schema map is a field declared by a table of that name |
| `ColumnRegistry.DeclaredHaveEntries` | tv/lib/data/item.py:63-65 | every declared field of every table is a key of the schema map |
| `ColumnRegistry.SqliteType` | tv/lib/data/item.py:74-77 | the type lookup raises KeyError exactly when the (table, column) pair is not in the schema map |
| `ColumnRegistry.SqliteTypeDeclared` | tv/lib/data/item.py:61-77 | over the map the loop builds, a column has a type exactly when the schema declares it |
| `ItemRecords.AccessorPositions1` | tv/lib/data/item.py:81-85 | the accessors id, title, feed_id, parent_id read the registry positions of those attribute names |
| `ItemRecords.AccessorPositions2` | tv/lib/data/item.py:86-95 | likewise for parent_title, is_file_item, keep, watched_time |
| `ItemRecords.AccessorPositions3` | tv/lib/data/item.py:98-107 | likewise for is_container_item, duration_ms, screenshot, enclosure_format |
| `ItemRecords.AccessorPositions4` | tv/lib/data/item.py:108-114 | likewise for enclosure_size, url, was_downloaded, raw_filename |
| `ItemRecords.AccessorPositions5` | tv/lib/data/item.py:115-118 | likewise for play_count, skip_count, cover_art, description |
| `ItemRecords.AccessorPositions6` | tv/lib/data/item.py:119-127 | likewise for album, album_artist, artist, file_type |
| `ItemRecords.AccessorPositions7` | tv/lib/data/item.py:135-138 | likewise for eligible_for_autodownload, feed_url, feed_expire, feed_expire_time |
| `ItemRecords.AccessorPositions8` | tv/lib/data/item.py:139-143 | likewise for feed_auto_downloadable, feed_get_everything, raw_icon_cache_filename, downloader_content_type |
| `ItemRecords.AccessorPositions9` | tv/lib/data/item.py:144-153 | likewise for downloader_state, downloader_type, downloaded_size, downloader_size |
| `ItemRecords.ItemInfo.Id` | tv/lib/data/item.py:81 | the `id` field (position 0, `item.id`) read as an integer, None when NULL or stored as another class |
| `ItemRecords.ItemInfo.Title` | tv/lib/data/item.py:83 | the `title` field (position 2, `item.title`) read as text, None when NULL or stored as another class |
| `ItemRecords.ItemInfo.FeedId` | tv/lib/data/item.py:84 | the `feed_id` field (position 3, `item.feed_id`) read as an integer, None when NULL or stored as another class |
| `ItemRecords.ItemInfo.ParentId` | tv/lib/data/item.py:85 | the `parent_id` field (position 4, `item.parent_id`) read as an integer, None when NULL or stored as another class |
| `ItemRecords.ItemInfo.ParentTitle` | tv/lib/data/item.py:86 | the `parent_title` field (position 5, `item.parent_title`) read as text, None when NULL or stored as another class |
| `ItemRecords.ItemInfo.IsFileItem` | tv/lib/data/item.py:88 | the `is_file_item` field (position 7, `item.is_file_item`) read as a truth value, None when NULL or stored as another class |
| `ItemRecords.ItemInfo.Keep` | tv/lib/data/item.py:92 | the `keep` field (position 11, `item.keep`) read as a truth value, None when NULL or stored as another class |
| `ItemRecords.ItemInfo.WatchedTime` | tv/lib/data/item.py:95 | the `watched_time` field (position 14, `item.watched_time`) read as an integer, None when NULL or stored as another class |
| `ItemRecords.ItemInfo.IsContainerItem` | tv/lib/data/item.py:98 | the `is_container_item` field (position 17, `item.is_container_item`) read as a truth value, None when NULL or stored as another class |
| `ItemRecords.ItemInfo.DurationMs` | tv/lib/data/item.py:100 | the `duration_ms` field (position 19, `item.duration`) read as an integer, None when NULL or stored as another class |
| `ItemRecords.ItemInfo.Screenshot` | tv/lib/data/item.py:101 | the `screenshot` field (position 20, `item.screenshot`) read as text, None when NULL or stored as another class |
| `ItemRecords.ItemInfo.EnclosureFormat` | tv/lib/data/item.py:107 | the `enclosure_format` field (position 26, `item.enclosure_format`) read as text, None when NULL or stored as another class |
| `ItemRecords.ItemInfo.EnclosureSize` | tv/lib/data/item.py:108 | the `enclosure_size` field (position 27, `item.enclosure_size`) read as an integer, None when NULL or stored as another class |
| `ItemRecords.ItemInfo.Url` | tv/lib/data/item.py:112 | the `url` field (position 31, `item.url`) read as text, None when NULL or stored as another class |
| `ItemRecords.ItemInfo.WasDownloaded` | tv/lib/data/item.py:113 | the `was_downloaded` field (position 32, `item.was_downloaded`) read as a truth value, None when NULL or stored as another class |
| `ItemRecords.ItemInfo.RawFilename` | tv/lib/data/item.py:114 | the `raw_filename` field (position 33, `item.filename`) read as text, None when NULL or stored as another class |
| `ItemRecords.ItemInfo.PlayCount` | tv/lib/data/item.py:115 | the `play_count` field (position 34, `item.play_count`) read as an integer, None when NULL or stored as another class |
| `ItemRecords.ItemInfo.SkipCount` | tv/lib/data/item.py:116 | the `skip_count` field (position 35, `item.skip_count`) read as an integer, None when NULL or stored as another class |
| `ItemRecords.ItemInfo.CoverArt` | tv/lib/data/item.py:117 | the `cover_art` field (position 36, `item.cover_art`) read as text, None when NULL or stored as another class |
| `ItemRecords.ItemInfo.Description` | tv/lib/data/item.py:118 | the `description` field (position 37, `item.description`) read as text, None when NULL or stored as another class |
| `ItemRecords.ItemInfo.Album` | tv/lib/data/item.py:119 | the `album` field (position 38, `item.album`) read as text, None when NULL or stored as another class |
| `ItemRecords.ItemInfo.AlbumArtist` | tv/lib/data/item.py:120 | the `album_artist` field (position 39, `item.album_artist`) read as text, None when NULL or stored as another class |
| `ItemRecords.ItemInfo.Artist` | tv/lib/data/item.py:121 | the `artist` field (position 40, `item.artist`) read as text, None when NULL or stored as another class |
| `ItemRecords.ItemInfo.FileType` | tv/lib/data/item.py:127 | the `file_type` field (position 46, `item.file_type`) read as text, None when NULL or stored as another class |
| `ItemRecords.ItemInfo.EligibleForAutodownload` | tv/lib/data/item.py:135 | the `eligible_for_autodownload` field (position 54, `item.eligible_for_autodownload`) read as a truth value, None when NULL or stored as another class |
| `ItemRecords.ItemInfo.FeedUrl` | tv/lib/data/item.py:136 | the `feed_url` field (position 55, `feed.orig_url`) read as text, None when NULL or stored as another class |
| `ItemRecords.ItemInfo.FeedExpire` | tv/lib/data/item.py:137 | the `feed_expire` field (position 56, `feed.expire`) read as text, None when NULL or stored as another class |
| `ItemRecords.ItemInfo.FeedExpireTime` | tv/lib/data/item.py:138 | the `feed_expire_time` field (position 57, `feed.expireTime`) read as an integer, None when NULL or stored as another class |
| `ItemRecords.ItemInfo.FeedAutoDownloadable` | tv/lib/data/item.py:139 | the `feed_auto_downloadable` field (position 58, `feed.autoDownloadable`) read as a truth value, None when NULL or stored as another class |
| `ItemRecords.ItemInfo.FeedGetEverything` | tv/lib/data/item.py:140 | the `feed_get_everything` field (position 59, `feed.getEverything`) read as a truth value, None when NULL or stored as another class |
| `ItemRecords.ItemInfo.RawIconCacheFilename` | tv/lib/data/item.py:141 | the `raw_icon_cache_filename` field (position 60, `icon_cache.filename`) read as text, None when NULL or stored as another class |
| `ItemRecords.ItemInfo.DownloaderContentType` | tv/lib/data/item.py:142-143 | the `downloader_content_type` field (position 61, `remote_downloader.content_type`) read as text, None when NULL or stored as another class |
| `ItemRecords.ItemInfo.DownloaderState` | tv/lib/data/item.py:144 | the `downloader_state` field (position 62, `remote_downloader.state`) read as text, None when NULL or stored as another class |
| `ItemRecords.ItemInfo.DownloaderType` | tv/lib/data/item.py:147 | the `downloader_type` field (position 65, `remote_downloader.type`) read as text, None when NULL or stored as another class |
| `ItemRecords.ItemInfo.DownloadedSize` | tv/lib/data/item.py:152 | the `downloaded_size` field (position 70, `remote_downloader.current_size`) read as an integer, None when NULL or stored as another class |
| `ItemRecords.ItemInfo.DownloaderSize` | tv/lib/data/item.py:153 | the `downloader_size` field (position 71, `remote_downloader.total_size`) read as an integer, None when NULL or stored as another class |
| `ItemRecords.FromRow` | tv/lib/data/item.py:201-207 | `ItemInfo(*row)` succeeds exactly for a row of one value per registry entry and keeps the values in order; otherwise TypeError |
| `ItemProperties.UnicodeToFilename` | tv/lib/data/item.py:181-188 | None maps to None, and any text maps to its encoded filename |
| `ItemProperties.Filename` | tv/lib/data/item.py:212-214 | the converted raw_filename, None exactly when none is stored |
| `ItemProperties.IconCacheFilename` | tv/lib/data/item.py:224-226 | the converted icon-cache filename, None exactly when none is stored |
| `ItemProperties.CoverArtFilename` | tv/lib/data/item.py:228-230 | the converted cover-art filename, None exactly when none is stored |
| `ItemProperties.HasFilename` | tv/lib/data/item.py:220-222 | has_filename: raw_filename is not NULL (related to the other flags by StatusFlags) |
| `ItemProperties.Downloaded` | tv/lib/data/item.py:216-218 | downloaded: the same test as has_filename |
| `ItemProperties.IsPlayable` | tv/lib/data/item.py:232-234 | is_playable: a file is there and its file type is not `other` |
| `ItemProperties.IsTorrent` | tv/lib/data/item.py:236-238 | is_torrent: the downloader type is `BitTorrent` |
| `ItemProperties.IsTorrentFolder` | tv/lib/data/item.py:240-242 | is_torrent_folder: a torrent that is a container item |
| `ItemProperties.LooksLikeTorrent` | tv/lib/data/item.py:244-245 | looks_like_torrent: a torrent, or a URL the file-type helper calls a torrent filename |
| `ItemProperties.VideoWatched` | tv/lib/data/item.py:323-325 | video_watched: watched_time is not NULL |
| `ItemProperties.CanBeSaved` | tv/lib/data/item.py:353-355 | can_be_saved: a file is there and keep is not set |
| `ItemProperties.IsDownload` | tv/lib/data/item.py:357-359 | is_download: the downloader state is `downloading` or `paused` (related to the other states by DownloadStates) |
| `ItemProperties.IsPaused` | tv/lib/data/item.py:361-363 | is_paused: the downloader state is `paused` |
| `ItemProperties.IsSeeding` | tv/lib/data/item.py:365-367 | is_seeding: the downloader state is `uploading` |
| `ItemProperties.IsFailedDownload` | tv/lib/data/item.py:413-415 | is_failed_download: the downloader state is `failed` |
| `ItemProperties.HasParent` | tv/lib/data/item.py:436-438 | has_parent: parent_id is not NULL |
| `ItemProperties.StatusFlags` | tv/lib/data/item.py:212-355 | has_filename iff the filename is set; downloaded equals has_filename; playable and can_be_saved imply a file; a torrent folder is a torrent and looks like one; video_watched iff watched_time is set |
| `ItemProperties.DownloadStates` | tv/lib/data/item.py:357-415 | is_download iff the state is downloading or paused; paused implies download; download, seeding and failed exclude each other |
| `ItemProperties.Thumbnail` | tv/lib/data/item.py:254-270 | thumbnail: either a file that exists or the default image for a folder, audio or video; ThumbnailFirstMatch states which |
| `ItemProperties.FirstExisting` | tv/lib/data/item.py:256-262 | returns the first candidate that is set and exists, and when there is none says so |
| `ItemProperties.ThumbnailFirstMatch` | tv/lib/data/item.py:254-270 | thumbnail is the first existing of cover art, icon-cache file and screenshot; otherwise the folder, audio or video default |
| `ItemProperties.IsExternalCases` | tv/lib/data/item.py:272-279 | a file item is external iff it has a parent; any other item iff its feed is the manual feed |
| `ItemProperties.IsExternal` | tv/lib/data/item.py:272-279 | is_external, as the cases of IsExternalCases |
| `ItemProperties.HasShareableUrl` | tv/lib/data/item.py:281-288 | for a set URL: shareable iff non-empty and not starting with `file:`; a null URL raises AttributeError |
| `ItemProperties.ShareableUrlExamples` | tv/lib/data/item.py:281-288 | records with a `file:` URL or an empty URL are not shareable; records with a web URL or a URL shorter than `file:` are |
| `ItemProperties.SizePriority` | tv/lib/data/item.py:290-308 | size is the on-disk size when there is a file, and None if that lookup fails; else the downloader total while downloading or paused; else the enclosure size |
| `ItemProperties.Size` | tv/lib/data/item.py:290-308 | size: a known size comes from the disk (only when there is a file), the downloader total or the enclosure size; SizePriority states which |
| `ItemProperties.FileFormatChain` | tv/lib/data/item.py:310-321 | an item that looks like a torrent (line 245: a BitTorrent download, or a URL the helper calls a torrent file) gives `.torrent`; else the enclosure format when declared; else the file-type helper's answer from filename and content type |
| `ItemProperties.FileFormat` | tv/lib/data/item.py:310-321 | file_format: any answer other than `.torrent` means the item does not look like a torrent |
| `ItemProperties.ExpirationPolicy` | tv/lib/data/item.py:327-347 | no expiry when unwatched, without a file, kept, for "never", or for "system" with days ≤ 0; otherwise watched_time plus days × 86400; an unknown policy raises AssertionError; an expiry is always later than the watch time |
| `ItemProperties.ExpirationDate` | tv/lib/data/item.py:327-347 | expiration_date as written: an expiry is only given to a watched, downloaded, unkept item, and is later than its watch time |
| `ItemProperties.ExpirationFeedRaises` | tv/lib/data/item.py:338-339 | the "feed" policy, as written, raises NameError for every item it governs |
| `ItemProperties.IntendedExpiration` | tv/lib/data/item.py:327-347 | the corrected "feed" policy gives watched_time plus the feed's expiry time, and agrees with the code elsewhere |
| `ItemProperties.IntendedExpirationDate` | tv/lib/data/item.py:327-347 | expiration_date with the feed branch corrected: an expiry is only given to a watched, downloaded, unkept item |
| `ItemProperties.DownloadProgressCases` | tv/lib/data/item.py:369-383 | 0.0 while nothing has been downloaded, even with no total; None for an unknown total; ZeroDivisionError for a zero total; otherwise exactly downloaded / total, which lies in [0, 1] while downloaded ≤ total |
| `ItemProperties.DownloadProgress` | tv/lib/data/item.py:369-383 | download_progress: the only error it raises is ZeroDivisionError, and None only for an unknown total |
| `ItemProperties.PendingAutoDlMeaning` | tv/lib/data/item.py:417-422 | pending iff the feed auto-downloads, the item was not downloaded, and the feed takes everything or the item is eligible; never once downloaded |
| `ItemProperties.PendingAutoDl` | tv/lib/data/item.py:417-422 | pending_auto_dl, with the repeated test as written; PendingAutoDlMeaning states its meaning |
| `ItemProperties.TitleSortKey` | tv/lib/data/item.py:424-426 | title_sort_key: the sort-key helper applied to the title |
| `ItemProperties.ArtistSortKey` | tv/lib/data/item.py:428-430 | artist_sort_key: the sort-key helper applied to the artist |
| `ItemProperties.AlbumSortKey` | tv/lib/data/item.py:432-434 | album_sort_key: the sort-key helper applied to the album |
| `ItemProperties.AlbumArtistSortKeyFallback` | tv/lib/data/item.py:428-455 | the album artist's key when it is set and non-empty, else the artist's key |
| `ItemProperties.AlbumArtistSortKey` | tv/lib/data/item.py:450-455 | album_artist_sort_key: always the album artist's key or the artist's key |
| `ItemProperties.ParentTitleSeparates` | tv/lib/data/item.py:440-448 | equal sort keys mean equal parent title, feed and parent; items from different feeds or parents get different keys |
| `ItemProperties.ParentTitleForSort` | tv/lib/data/item.py:440-448 | parent_title_for_sort: the (parent title, feed id, parent id) triple |
| `ItemProperties.ReplaceNewlines` | tv/lib/data/item.py:459 | `replace('\n', '$')` keeps the length and changes exactly the line breaks |
| `ItemProperties.OnelineProperties` | tv/lib/data/item.py:457-459 | the one-line description has no line break, and a text without any is unchanged |
| `ItemProperties.ItemView.DescriptionStripped` | tv/lib/data/item.py:247-252 | returns the stripped description and leaves it cached; a cached value is always the stripped description |
| `ItemProperties.ItemView.DescriptionOneline` | tv/lib/data/item.py:457-459 | the stripped text with line breaks replaced, free of line breaks, with the strip cached |
| `ItemProperties.TruncatedHalf` | tv/lib/data/item.py:475-476 | Python's `int()` of a half-integer: the half of n rounded toward zero, the value `int(play - 1.5 * skip)` takes with n = 2 × play - 3 × skip |
| `ItemProperties.AutoRatingOf` | tv/lib/data/item.py:461-482 | None iff neither count is positive; otherwise in [1, 5]; plays only give min(5, 2 × plays); skips only give 1 |
| `ItemProperties.AutoRating` | tv/lib/data/item.py:461-482 | auto_rating of a record: None iff neither its play nor its skip count is positive, otherwise a rating from 1 to 5 |
| `ItemProperties.AutoRatingExamples` | tv/lib/data/item.py:469-482 | 3 plays give 5, 1 play gives 2, 4 plays and 2 skips give 1, skips only give 1, no counts give None |
| `ItemProperties.AutoRatingThresholds` | tv/lib/data/item.py:469-478 | the rating is 1 once skips reach 40% of listens, and 5 after three plays without a skip |
| `ItemProperties.AutoRatingMonotone` | tv/lib/data/item.py:473-476 | with both counts positive, more plays never lower the rating and more skips never raise it |
| `ItemProperties.Duration` | tv/lib/data/item.py:484-489 | None iff duration_ms is None; otherwise the whole seconds, rounded down |
| `Fetch.QualifiedSplits` | tv/lib/data/item.py:493 | `table.column` splits back into table and column when neither holds a separator |
| `Fetch.SelectListRoundTrip` | tv/lib/data/item.py:493 | for any non-empty list of entries free of ',' and '.', the SELECT list names every entry's table and column, in order |
| `Fetch.SelectListOfRegistry` | tv/lib/data/item.py:493 | the SELECT list of column_info() splits back into the 77 registry entries' `table.column` names, and each of those into its table and column, in registry order |
| `Fetch.IdListRoundTrip` | tv/lib/data/item.py:494 | the IN list reads back as the ids, in order |
| `Fetch.RecordsOf` | tv/lib/data/item.py:497 | one record per row, in order, holding that row; the first row of the wrong length raises TypeError |
| `Fetch.FetchItemInfos` | tv/lib/data/item.py:491-497 | as many records as the query over the ids returns rows, each holding its row |
| `Fetch.SelectSql` | tv/lib/data/item.py:493-496 | the query text: SELECT, the registry's qualified names, FROM item, join_sql() and the id list in parentheses; SelectListOfRegistry, IdListRoundTrip and JoinSqlLines state what its parts read back as |
| `Browser.ShouldMiroHandle` | tv/portable/frontends/widgets/browser.py:44-50 | true iff the URL starts with one of http:, https:, ftp:, feed:, feeds:, mailto: |
| `Browser.HandledScheme` | tv/portable/frontends/widgets/browser.py:44-50 | some protocol of PROTOCOLS_MIRO_HANDLES prefixes the URL: the specification ShouldMiroHandle is proved against |
| `Browser.NoColonNotHandled` | tv/portable/frontends/widgets/browser.py:44-50 | a URL without a colon is never one Miro handles |
| `Browser.SchemeExamples` | tv/portable/frontends/widgets/browser.py:44-50 | http: and feeds: URLs are handled; a javascript: link is not |
| `Browser.DecisionOrder` | tv/portable/frontends/widgets/browser.py:58-81 | a subscribe link is refused and sent to the backend whatever else holds; then guide pages load; then unhandled schemes load; everything else is refused and handed to the external handler |
| `Browser.ShouldLoadUrl` | tv/portable/frontends/widgets/browser.py:58-81 | should_load_url: the backend is told of a subscription exactly for a subscribe link, and only a URL of a handled scheme that is not a guide page goes to the external handler |
| `Browser.LoadIffNoAction` | tv/portable/frontends/widgets/browser.py:63-81 | the URL is loaded exactly when no action was taken, and an action carries the converted URL |
| `Browser.JavascriptLinkLoads` | tv/portable/frontends/widgets/browser.py:73-76 | a javascript: link that is not a subscribe link is loaded by the browser, whether or not it counts as a guide page |

## Left out

- Executing SQL: `connection.execute` is a parameter of `FetchItemInfos`, a function from query text to rows.
- The database's type lookup `app.db.get_sqlite_type` is a parameter of `SqliteType`.
- `schema.object_schemas` is an input of `BuildSchemaMap`. The schema declaration is not part of this model.
- `ColumnRegistry.CheckFieldNames`: namedtuple's identifier and keyword checks on field names are not modelled. Only its checks for an empty name, a leading underscore and a duplicate are.
- `ColumnRegistry.JoinSqlLines`: the join clause is rendered from its three (table, key) pairs, and is proved to read back as those clauses. Its text is not proved character by character equal to the literal in `join_sql`.
- The values' storage classes are not checked: an accessor reads a value of another storage class than its column's declared one as None. Python would instead compute with it or raise.
- Properties built with `and`/`or` (`is_torrent_folder`, `can_be_saved`, `pending_auto_dl`) return an operand in Python. The model returns that operand's truth value.
- `AutoRatingOf`: `play - 1.5 * skip` is computed exactly in integers, as `(2 * play - 3 * skip) / 2` truncated toward zero. Floating-point rounding for counts beyond 2^53 is not modelled.
- `DownloadProgressCases`: the fraction is an exact real, not a double.
- `upload_ratio`, the `*_text` display properties and `displaytext.*` are left out: float formatting and display text.
- `_unicode_to_filename`'s platform encoding is left out. Only "None maps to None, text maps to a filename" is kept.
- `Browser.__init__`'s `navigate`, `logging.info` and the widget toolkit are left out: UI plumbing. The guide information is passed to `ShouldLoadUrl` as a value.
- Threading: `call_on_ui_thread` is modelled only as the returned `HandleExternalUrl` action.

## Findings

| source | as written | input that shows it | evidently intended | confidence | as-written member | corrected member |
|---|---|---|---|---|---|---|
| tv/lib/data/item.py:339 | the "feed" branch of `expiration_date` reads the bare name `feed_expire_time`, which nothing binds, so it raises NameError | any item with watched_time set, a filename, keep false and feed_expire "feed" | use the record's own `feed_expire_time` field (the registry selects `feed.expireTime` under that name) and return watched_time plus it | high; not executed | `ItemProperties.ExpirationFeedRaises` | `ItemProperties.IntendedExpiration` |
