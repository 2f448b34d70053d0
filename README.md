# fish_music in Dafny

fish_music is a Telegram music bot with a small admin web API, written in Go.

- **Bot side.** Users search a PostgreSQL catalog of songs, play them, and keep favourites and a play history. They can also paste a video link: the bot downloads the audio with yt-dlp, uploads it to Telegram and records it in the catalog.
- **Web side.** The admin API lists, edits and deletes catalog rows.

This project models the decision logic and the catalog state of that program. It proves the program's promises about that model:
- deduplication and the cleanup policy of the download path;
- the size limit;
- the title split;
- the digest truncation;
- the uniqueness of hashes in the catalog;
- the table rules of the repository methods;
- the routing and parsing of bot messages and callbacks;
- the admin API's paging and change map;
- the configuration checks.

## Modules and files

| file | module | models |
|---|---|---|
| `wrappers.dfy` | `Wrappers` | Option and Result |
| `text.dfy` | `Text` | the Go library functions the core relies on, stated on runes, and the UTF-8 encoding where the code counts bytes. These are `strings.TrimSpace`, `Index`, `Contains`, `ToLower`, `HasPrefix`/`TrimPrefix`, `strconv.ParseUint(s, 10, 32)` and `Atoi`, and `fmt`'s `%d`. 64-bit wrap-around is `Wrap64`. |
| `song.dfy` | `SongModel` | the song record and its display helpers (`internal/model/song.go`) |
| `user.dfy` | `UserModel` | the user record and `GetFullName` (`internal/model/user.go`) |
| `catalog.dfy` | `Catalog` | the song, user, favourite and history tables, one class per repository. Each holds a sequence of rows and the next primary key (`internal/database/repository.go`). |
| `music_api.dfy` | `MusicApi` | region detection, lyric truncation and the time-stamped hash (`pkg/api/music.go`) |
| `netease.dfy` | `Netease` | the artist join, the millisecond conversion and the acceptance rules of decoded responses (`pkg/api/netease.go`) |
| `ingestion.dfy` | `Ingestion` | the yt-dlp download path (`internal/service/ytdlp.go`) |
| `music_service.dfy` | `MusicService` | the catalog-facing service (`internal/service/music.go`) |
| `config.dfy` | `Config` | validation, the DSN and the temporary-directory default (`internal/config/config.go`) |
| `web.dfy` | `Web` | the admin API (`internal/handler/web.go`) |
| `bot.dfy` | `Bot` | the bot's dispatch and decision logic (`internal/handler/bot.go`) |

### External inputs

Everything outside the process becomes an explicit input.

- **yt-dlp runs.** A `ToolRun` value gives:
  - whether each run succeeded;
  - the printed title;
  - which of `<base>.mp3` and `<base>` exists, and its size;
  - the probed duration.
- **Telegram upload.** An `UploadResult`.
- **Send outcomes.** A flag or an error text.
- **Cookie file write.** A flag for the write of the cookie file.
- **Directory creation.** A flag for `os.MkdirAll`.
- **Clock.** `time.Now().UnixNano()` and `Unix()` are parameters.
- **md5.** A function parameter from bytes to a 16-byte digest.
- **Concurrent insert.** `racer` is a row with the same hash inserted by someone else between the lookup and `Create`.
- **Telegram and GORM effects.** Messages sent are returned as values:
  - the actions of the download path (`RunYtDlp`, `Probe`, `UploadAudio`, `SendAudio`);
  - the audio message and keyboard of the bot;
  - the `Reply` of a web handler.

  GORM calls are operations on the in-memory tables.

### Semantics of the model

- **Catalog rows.** Rows are kept in insertion order.
  - Primary keys increase, so "ORDER BY created_at DESC" is the reverse of the table.
  - `First` is the lowest key.
  - The unique index on `unique_hash` is the invariant `HashesUnique` of `SongRepository.Valid`, so `Create` of a known hash fails with `DuplicateKey`.
- **Integers.** Go's `int`/`int64` is the subset type `Int64`. The computations whose overflow is observable wrap explicitly:
  - the megabyte-to-byte conversion;
  - the page offset.

  Go's truncating `/` is written out where negative operands occur.

### Behaviour worth noting

- **The deduplication key.** It is the md5 of the raw URL, truncated to 16 hex digits. No normalisation is applied, so two spellings of one video are two songs.
- **Suffix removal.** A title ending in "(Official Video)" keeps it, because the title then ends in ")" and not in "Official Video" (`Ingestion.ParenthesisedSuffixKept`).
- **Losing the race on `Create`.** The download path reports the unique-index failure. It neither fetches nor returns the winning row.

Two more properties of the code:
- `ProcessDownload` looks songs up by `GenerateUniqueHash("", name, artists)`. That key always contains "_" and the downloader's hex hashes never do, so this lookup can never find a downloaded song (`MusicService.LookupNeverMatchesDownloaderHash`).
- The bot and the downloader disagree on Hangul. `detectRegion` of the downloader says "US" for a Hangul-only name, while the API's detector says "KR" (`Ingestion.DetectorsDisagreeOnHangul`).

## Model

| member | source | states |
|---|---|---|
| SongModel.GetCountryEmoji | internal/model/song.go:53-84 | the flag of one of the 23 listed codes, and the globe exactly for every code not listed |
| SongModel.FlagSpellsCode | internal/model/song.go:54-78 | every listed flag is the regional-indicator pair spelling its two-letter code; "UK" shows the flag of GB |
| SongModel.GetYearText | internal/model/song.go:87-92 | for a positive year, decimal digits whose value is the year followed by "年"; otherwise "未知" |
| SongModel.GetGenreText | internal/model/song.go:95-100 | never empty: the genre, or "未分类" when unset |
| SongModel.GetLanguageText | internal/model/song.go:103-108 | never empty: the language, or "未知" when unset |
| SongModel.UpdateCountryCodeByLanguage | internal/model/song.go:111-136 | only the country code can change; an exact language key sets the table's code, and any other language leaves the record unchanged |
| SongModel.UpdateCountryCodeIdempotent | internal/model/song.go:111-136 | applying the language mapping twice equals applying it once |
| SongModel.MappedLanguageHasFlag | internal/model/song.go:53-136 | after a mapped language update the country emoji is never the globe: every code the table assigns has a flag |
| SongModel.HindiKeyIsExact | internal/model/song.go:128 | the Hindi key is " Hindi" with a leading space and maps to IN; "Hindi" is not mapped |
| UserModel.GetFullName | internal/model/user.go:33-44 | "First Last" with both names; the first name alone; else "@username" even when a last name is set; else "User_" and the Telegram ID; never empty |
| UserModel.FallbackNameIdentifiesUser | internal/model/user.go:43 | the fallback name's digits read back as the Telegram ID |
| UserModel.FallbackNamesDistinct | internal/model/user.go:43 | two users with equal fallback names have the same Telegram ID |
| Catalog.ApplyChanges | internal/handler/web.go:215 | a map `Updates` writes exactly the six known columns present as keys (even to ""), and nothing else |
| Catalog.SongRepository.constructor | internal/database/repository.go:14-16 | an empty, valid table |
| Catalog.SongRepository.FindByFileID | internal/database/repository.go:19-26 | the first active row with that file ID; not found exactly when no active row has it |
| Catalog.SongRepository.FindByUniqueHash | internal/database/repository.go:29-36 | a row with that hash, whatever its status; not found exactly when no row has it |
| Catalog.SongRepository.FindByUniqueHashIgnoresStatus | internal/database/repository.go:29-36 | every stored row is found by its own hash, active, missing or processing |
| Catalog.SongRepository.GetById | internal/handler/bot.go:841-848 | the row with that primary key; not found exactly when no row has it |
| Catalog.SongRepository.Search | internal/database/repository.go:39-50 | only active rows matching the keyword case-insensitively on title or artist; at most `limit` (none for a negative limit); newest first; all matches when fewer than the limit are returned |
| Catalog.SongRepository.GetMissingSongs | internal/database/repository.go:81-85 | exactly the rows with is_missing set or status "missing" |
| Catalog.SongRepository.Create | internal/database/repository.go:53-55 | a known hash fails with a duplicate-key error and changes nothing; otherwise the row is appended under the next key; hashes stay unique |
| Catalog.SongRepository.UpdateFileID | internal/database/repository.go:63-71 | on the row with that key only: new file ID, is_missing false, status active; every other row and field unchanged |
| Catalog.SongRepository.MarkMissing | internal/database/repository.go:74-78 | on the row with that key only: is_missing set, status kept; every other row unchanged |
| Catalog.SongRepository.Updates | internal/handler/web.go:215 | the change map applied to the row with that key only; no row added or removed |
| Catalog.SongRepository.DeleteById | internal/handler/web.go:233 | a hard delete: afterwards no row has that key, and every other row is kept |
| Catalog.KeptHashesUnique | internal/model/song.go:11 | removing rows keeps the unique index satisfied |
| Catalog.UserRepository.FindByTelegramID | internal/database/repository.go:152-159 | the user with that Telegram ID; not found exactly when none has it |
| Catalog.UserRepository.FindOrCreate | internal/database/repository.go:162-180 | the existing user unchanged, or exactly one new user with the given names and the column defaults; Telegram IDs stay unique |
| Catalog.FavoriteRepository.IsFavorited | internal/database/repository.go:218-224 | true exactly when some favourite row links that user and song |
| Catalog.FavoriteRepository.Add | internal/database/repository.go:204-210 | always appends a row, even a duplicate, so the pair's count grows by one |
| Catalog.FavoriteRepository.Remove | internal/database/repository.go:213-215 | deletes every row of the pair and no other, so the pair is no longer a favourite |
| Catalog.HistoryRepository.Add | internal/database/repository.go:254-260 | appends one play of that song by that user |
| MusicApi.ContainsCJK | pkg/api/music.go:52-61 | some rune is a Han ideograph, a Hangul syllable or Hiragana (Katakana not included) |
| MusicApi.ContainsJapanese | pkg/api/music.go:64-72 | some rune is Hiragana or Katakana |
| MusicApi.ContainsKorean | pkg/api/music.go:75-82 | some rune is a Hangul syllable |
| MusicApi.DetectRegionFromArtistName | pkg/api/music.go:34-49 | one of JP, KR, CN, US; US exactly without a CJK rune; otherwise JP over KR over CN |
| MusicApi.HiraganaMeansJapan | pkg/api/music.go:34-49 | a name with a Hiragana rune is JP |
| MusicApi.KatakanaOnlyIsUS | pkg/api/music.go:34-61 | a name whose only Asian runes are Katakana is US |
| MusicApi.KatakanaWithHanIsJapan | pkg/api/music.go:34-72 | Katakana next to a Han ideograph is JP |
| MusicApi.HangulWithoutKanaIsKorea | pkg/api/music.go:34-82 | Hangul without any kana is KR |
| MusicApi.DetectCountryCode | pkg/api/music.go:85-88 | the artist-name detector's answer |
| MusicApi.FormatLyrics | pkg/api/music.go:91-98 | lyrics within the byte limit unchanged; longer ones become the first `maxLength` bytes with their leading and trailing ASCII white space dropped (the kept bytes neither start nor end with white space, and every dropped byte is white space), followed by the truncation notice |
| MusicApi.GenerateUniqueHash | pkg/api/music.go:101-103 | ends with "_title_artist", and is exactly as long as the decimal time stamp, two separators, the title and the artist |
| MusicApi.UniqueHashIgnoresUrl | pkg/api/music.go:101-103 | the URL argument never changes the key |
| MusicApi.UniqueHashTimestamp | pkg/api/music.go:101-103 | the text before the first "_" is the decimal time stamp |
| MusicApi.UniqueHashSecondsDiffer | pkg/api/music.go:101-103 | keys made in different seconds differ, whatever the titles and artists |
| Netease.ClientBaseURL | pkg/api/netease.go:21-25 | an empty base URL becomes the fixed default; any other is kept |
| Netease.AcceptSearch | pkg/api/netease.go:109-113 | accepted exactly for code 200, giving the songs |
| Netease.AcceptSongURL | pkg/api/netease.go:136-142 | accepted exactly for code 200 with data, giving the first URL |
| Netease.AcceptLyric | pkg/api/netease.go:165-169 | accepted exactly for code 200, giving the lyric |
| Netease.AcceptSongDetail | pkg/api/netease.go:196-200 | accepted exactly for code 200 with songs, giving the first song |
| Netease.ArtistNames | pkg/api/netease.go:205-208 | the names by index, one per artist |
| Netease.FormatArtist | pkg/api/netease.go:204-210 | the loop's result is the join of the names with ", " |
| Netease.FormatArtistEmpty | pkg/api/netease.go:204-210 | no artists give "" |
| Netease.FormatArtistSingle | pkg/api/netease.go:204-210 | one artist gives its name |
| Netease.FormatArtistInOrder | pkg/api/netease.go:204-210 | each name appears whole at its place in the joined text |
| Netease.ParseDuration | pkg/api/netease.go:213-215 | milliseconds to seconds truncated toward zero, for either sign |
| Netease.ParseDurationVersusEuclidean | pkg/api/netease.go:213-215 | Go's quotient agrees with the floor quotient except for negative non-multiples of 1000, where it is one larger |
| Ingestion.MaxSizeBytes | internal/service/ytdlp.go:39 | megabytes times 1048576 in 64-bit arithmetic, exact for every limit below 2^43 MB |
| Ingestion.MaxSizeWrapsAt2Pow43 | internal/service/ytdlp.go:39 | a limit of 2^43 MB wraps to the most negative value |
| Ingestion.CheckSize | internal/service/ytdlp.go:186-195 | accepted exactly for 0 < size <= limit; too large exactly above the limit, tested before emptiness; empty exactly for 0 bytes under a non-negative limit |
| Ingestion.LimitIsInclusive | internal/service/ytdlp.go:186-189 | a file of exactly the limit is accepted |
| Ingestion.HexEncode | internal/service/ytdlp.go:313 | two lower-case hex digits per byte |
| Ingestion.HexRoundTrip | internal/service/ytdlp.go:313 | hex decoding undoes hex encoding |
| Ingestion.HexEncodePrefix | internal/service/ytdlp.go:313 | the first 2k hex digits encode the first k bytes |
| Ingestion.GenerateHash | internal/service/ytdlp.go:310-314 | 16 lower-case hex digits: the encoding of the first 8 bytes of the md5 of the URL's UTF-8 bytes |
| Ingestion.GenerateHashDecodes | internal/service/ytdlp.go:310-314 | decoding the hash gives back the digest's first 8 bytes |
| Ingestion.StripPromoSuffixes | internal/service/ytdlp.go:222-225 | the suffixes removed, then trimmed: no leading or trailing space |
| Ingestion.ParenthesisedSuffixKept | internal/service/ytdlp.go:222-225 | a trimmed title ending in ")" is kept whole |
| Ingestion.PromoSuffixRemoved | internal/service/ytdlp.go:222-225 | "Official Video", "MV" or "Lyrics" after a space at the end of a trimmed title is removed, and the title is left exactly as it was before the suffix |
| Ingestion.LowerCaseSuffixKept | internal/service/ytdlp.go:222-225 | the suffixes are matched case-sensitively: a trailing " mv" is kept |
| Ingestion.ParseTitle | internal/service/ytdlp.go:208-228 | no album, no duration, and title and artist both trimmed |
| Ingestion.ParseTitleInPlace | internal/service/ytdlp.go:208-228 | the imperative form of parseTitle, one assignment per source line: the field-by-field assignments produce exactly `ParseTitle`'s record |
| Ingestion.StripTitleInPlace | internal/service/ytdlp.go:222-225 | the four assignments to the title leave the other fields alone and give the title `StripPromoSuffixes` computes |
| Ingestion.NoSeparatorUnknownArtist | internal/service/ytdlp.go:209-219 | without " - " the artist is "未知歌手" and the whole trimmed, stripped text is the title |
| Ingestion.SplitAtFirstSeparator | internal/service/ytdlp.go:215-219 | the split is at the first " - ": the artist is the trimmed text before it, and later separators stay in the title |
| Ingestion.ContainsHan | internal/service/ytdlp.go:326-333 | some rune is a Han ideograph |
| Ingestion.DetectRegion | internal/service/ytdlp.go:317-323 | CN exactly for names with a Han ideograph, else US |
| Ingestion.HanImpliesApiCJK | internal/service/ytdlp.go:326-333 | the downloader's CJK test implies the API's |
| Ingestion.DetectorsDisagreeOnHangul | internal/service/ytdlp.go:317-333 | a Hangul-only name is US here and KR for the API's detector |
| Ingestion.TitleArgs | internal/service/ytdlp.go:117-126 | the title run's arguments: the cookie pair first when configured, the URL last |
| Ingestion.DownloadArgs | internal/service/ytdlp.go:138-150 | the download run's arguments: 10, or 12 with cookies; the output file name after "-o"; the URL last |
| Ingestion.TempFileName | internal/service/ytdlp.go:112 | the download's file name ends in "_music" after the nanosecond time stamp |
| Ingestion.TempBase | internal/service/ytdlp.go:113 | the file name joined under the temporary directory: the directory and "/" first when a directory is set, "_music" last |
| Ingestion.TempBaseRoundTrip | internal/service/ytdlp.go:112-113 | the time stamp reads back from the temporary path it was made into |
| Ingestion.TempBasesDistinct | internal/service/ytdlp.go:112-113 | downloads started at different nanoseconds write to different paths |
| Ingestion.FavCallback | internal/service/ytdlp.go:292 | "fav_" followed by the decimal song ID |
| Ingestion.DownloadedInfo | internal/service/ytdlp.go:135-202 | the parsed title of the trimmed tool output, with the probed duration and no album |
| Ingestion.Locate | internal/service/ytdlp.go:167-183 | the ".mp3" file when it exists, else the bare name when it exists, else nothing |
| Ingestion.Record | internal/service/ytdlp.go:78-88 | the new row: hash, URL, uploaded file ID and size, parsed title, artist and duration, active, not missing, no album and no country code |
| Ingestion.UploadName | internal/service/ytdlp.go:256-259 | the upload's file name "artist - title.mp3" ends in ".mp3" |
| Ingestion.UploadNameParsesBack | internal/service/ytdlp.go:256-259 | parsing the upload name as a title gives back a trimmed artist without " - ", and the trimmed title with ".mp3" still attached |
| Ingestion.YTDLPService.constructor | internal/service/ytdlp.go:28-42 | the size limit is kept in bytes |
| Ingestion.YTDLPService.DownloadWithYTDLP | internal/service/ytdlp.go:110-205 | per failure, which tool runs happened and that the file system is unchanged; a rejected file is removed (too large before empty); an accepted file stays for the caller with its parsed info |
| Ingestion.YTDLPService.CheckDownloadedFile | internal/service/ytdlp.go:186-195 | too large tested before empty; a rejected file is removed with its error, an accepted one stays with its parsed title |
| Ingestion.YTDLPService.SendDownloadedSong | internal/service/ytdlp.go:275-307 | the audio goes out with a "fav_<id>" button; a play is recorded only when the send succeeds |
| Ingestion.YTDLPService.SaveRecord | internal/service/ytdlp.go:90-92 | the new row is inserted under the next key; when a racing request has stored the same hash first, the insert fails on the unique index and only the racer's row is added |
| Ingestion.YTDLPService.UploadAndRecord | internal/service/ytdlp.go:68-98 | the temporary file is removed on every exit; the upload follows the earlier actions; an upload failure changes no table; losing the insert race is reported with no re-fetch; otherwise exactly the new row is appended, sent as audio with its "fav_" button, and its play recorded exactly when the send succeeds |
| Ingestion.YTDLPService.FetchAndRecord | internal/service/ytdlp.go:56-98 | the miss path: the title run comes first; a download that leaves no accepted file is a download error after just the tool runs, with no table changed; an accepted file is probed, uploaded, recorded and sent as for UploadAndRecord |
| Ingestion.YTDLPService.DownloadAndSave | internal/service/ytdlp.go:45-99 | one outcome per path. A known hash re-sends the stored song, and a play is recorded exactly when the send succeeds. A failed download is a download error. A failed upload is an upload error. Both leave the catalog and history unchanged. A racing row makes the insert fail on the unique hash. Otherwise exactly one row is added, built from the URL's hash, the upload and the parsed title, and the result is that row exactly when the send succeeds, with its play recorded. On a miss the actions are pinned: the title run first, both tool runs before a download error, then the probe and the upload of an accepted file, and last the audio send with the new row's "fav_" button. A hit runs no tool and only re-sends the stored audio with its "fav_" button. No temporary file survives |
| MusicService.ProcessDownload | internal/service/music.go:29-39 | the stored song with the lookup key, else the "not available" error; never writes |
| MusicService.LookupHash | internal/service/music.go:31 | the lookup key ends with "_name_artists", and the text before its first "_" reads back as the current second |
| MusicService.LookupKeyChangesEverySecond | internal/service/music.go:31 | the same result looked up at two different seconds gives two different keys |
| MusicService.LookupNeverMatchesDownloaderHash | internal/service/music.go:31 | the lookup key is never a downloader hash |
| MusicService.SearchMusic | internal/service/music.go:42-51 | succeeds exactly when the catalog search is non-empty, giving those songs and no API results |
| MusicService.SearchMusicFindsActiveMatches | internal/service/music.go:42-51 | a successful search lists one to ten active rows matching the keyword |
| MusicService.ReprocessMissingSong | internal/service/music.go:54-57 | always the "in development" error |
| MusicService.Execute | internal/service/music.go:76-89 | always fails: "no results" when the catalog has no match, else "not found" |
| Config.Validate | internal/config/config.go:113-127 | fails exactly when the token, admin ID, host or database name is unset; the first unset one in that order is reported |
| Config.ValidateReadsOnlyRequiredFields | internal/config/config.go:113-127 | configurations agreeing on the four required fields get the same verdict |
| Config.GetDSN | internal/config/config.go:130-135 | starts with host, port and "user=", ends with the database name and SSL mode |
| Config.GetDSNPlacesCredentials | internal/config/config.go:130-135 | the user and password sit in order between "user=", " password=" and the tail, and the string is exactly those parts, with nothing between or after them |
| Config.EffectiveTempDir | internal/config/config.go:139-141 | never empty: the configured directory, or "./tmp" |
| Config.EffectiveTempDirIdempotent | internal/config/config.go:139-141 | settling the directory twice changes nothing more |
| Config.DownloadConfig.EnsureTempDir | internal/config/config.go:138-146 | the directory is settled in place before creation, the other settings untouched, the creation's outcome returned |
| Web.BasicAuth | internal/handler/web.go:47-58 | the handler runs exactly for presented credentials equal to the configured pair; a missing header or any other pair is refused |
| Web.DefaultQuery | internal/handler/web.go:79-80 | a present parameter, even empty, wins over the default |
| Web.Query | internal/handler/web.go:81-83 | an absent parameter reads as "" |
| Web.OptionalColumns | internal/handler/web.go:188-197 | title, artist and album entries exactly for the non-empty fields, with their values |
| Web.ListParamsOf | internal/handler/web.go:79-85 | page and limit read with Atoi (defaults "1" and "20"), offset (page-1)*limit in 64-bit arithmetic, the three filters |
| Web.ListDefaults | internal/handler/web.go:79-85 | no parameters list page 1 with 20 rows from offset 0 |
| Web.OffsetExact | internal/handler/web.go:85 | without overflow the offset is exactly (page-1)*limit |
| Web.Window | internal/handler/web.go:102 | OFFSET only when positive and LIMIT only when non-negative select a contiguous run of the ordered rows |
| Web.Matching | internal/handler/web.go:88-102 | exactly the rows passing each non-empty filter (no status filter), newest first |
| Web.ListSongs | internal/handler/web.go:78-113 | the page is exactly the OFFSET/LIMIT window of the matching rows in newest-first order: at most `limit` rows, with strictly decreasing keys |
| Web.EveryMatchIsListed | internal/handler/web.go:85-102 | paging skips no row: every matching row appears on the page whose offset is its position rounded down to a multiple of the limit |
| Web.NextPageIsOlder | internal/handler/web.go:85-102 | every row on page n+1 is older than every row on page n |
| Web.UpdateMap | internal/handler/web.go:188-213 | title, artist and album keys exactly when non-empty; genre, language and country_code always; the country code derived from the stored row when only a language is given |
| Web.UpdateMapNeverEmpty | internal/handler/web.go:200-204 | the change map always has at least three keys, so the update always runs |
| Web.UpdateMapCountryFromLanguage | internal/handler/web.go:206-213 | a mapped language sets its code; an unmapped one keeps the stored code rather than "" |
| Web.LanguageCountryCode | internal/handler/web.go:206-213 | the stored row with the new language passed through the language mapping: a mapped language gives its code, any other keeps the stored code |
| Web.UpdateKeepsUnsetFields | internal/handler/web.go:188-215 | empty title, artist or album leave the stored values; genre and language are overwritten; file, status and hash untouched |
| Web.WebHandler.GetSong | internal/handler/web.go:116-131 | 400 for an unparsable ID, 404 for an absent row, else the stored row with that ID |
| Web.WebHandler.MissingSongs | internal/handler/web.go:134-145 | exactly the missing rows, with their count |
| Web.WebHandler.ReprocessSong | internal/handler/web.go:148-163 | 400 exactly for an unparsable ID, else an acknowledgement; the catalog is not touched |
| Web.WebHandler.BuildUpdates | internal/handler/web.go:188-213 | the key-by-key construction equals the change map |
| Web.WebHandler.UpdateSong | internal/handler/web.go:166-222 | 400 with no change for a bad ID or body; otherwise the change map applied to that row only, and "updated" even when no row has the ID |
| Web.WebHandler.DeleteSong | internal/handler/web.go:225-239 | 400 with no change for a bad ID; otherwise that row is gone and every other is kept |
| Bot.CommandFor | internal/handler/bot.go:83-106 | one handler per command name; favorites/favs and songs/list are aliases |
| Bot.UnknownCommandIsUnlisted | internal/handler/bot.go:83-106 | cmdUnknown exactly for the names outside the eleven known ones |
| Bot.TruncateString | internal/handler/bot.go:851-858 | the text when it has at most n runes, else its first n runes followed by "..." |
| Bot.TruncateFixedPoints | internal/handler/bot.go:851-858 | the text comes back unchanged exactly when it is short enough or already ends in "..." three runes past the limit |
| Bot.AnyContained | internal/handler/bot.go:638-645 | the early-return scan holds exactly when some fragment is contained |
| Bot.IsSupportedVideoPlatform | internal/handler/bot.go:626-646 | the lower-cased link contains one of the eight host fragments |
| Bot.PlatformTestIgnoresCase | internal/handler/bot.go:638 | the platform test gives the same answer for a link and its lower-case form |
| Bot.LinkSchemeIsCaseSensitive | internal/handler/bot.go:554-556 | text starting with "http://" or "https://" is a link, while an upper-case scheme is not a link and is searched for as text |
| Bot.FavoriteButton | internal/handler/bot.go:739-742 | "unfav_<id>" for a favourite, else "fav_<id>" |
| Bot.SongButton | internal/handler/bot.go:702-705 | a button labelled with its 1-based position that plays that song |
| Bot.SongButtons | internal/handler/bot.go:701-713 | one button per song, in order |
| Bot.PairUp | internal/handler/bot.go:698-713 | the row loop keeps every button in order, two to a row, with a last row of one for an odd count |
| Bot.BuildKeyboard | internal/handler/bot.go:698-713 | the rows hold the buttons in order, ceil(n/2) rows of two with possibly a last row of one (the same loop as internal/handler/bot.go:909-924) |
| Bot.ParseCallback | internal/handler/bot.go:775-817 | "play_" tested first, then "fav_", then "unfav_", else unknown; the rest must be a 32-bit decimal; favourite kinds strip both prefixes |
| Bot.CallbackRoundTrip | internal/handler/bot.go:792-817 | every play, favourite and unfavourite button the bot makes parses back to its song |
| Bot.DoublePrefixStillFavorites | internal/handler/bot.go:813 | "fav_unfav_<id>" favourites song <id>, because both prefixes are stripped |
| Bot.CookieFile | internal/handler/bot.go:994 | the fixed Netscape header and one __Secure-3PSID line ending in the value and a newline |
| Bot.CookieFileRoundTrip | internal/handler/bot.go:994 | the value reads back from between the header and the final newline |
| Bot.CmdCookies | internal/handler/bot.go:933-1023 | in order: non-admin refused, no arguments shows help, blank value refused, fewer than 50 UTF-8 bytes refused, else the cookie file is written |
| Bot.LongValuePassesLengthCheck | internal/handler/bot.go:987 | an admin's value of 50 runes or more always reaches the write |
| Bot.ShortAsciiValueRefused | internal/handler/bot.go:987 | an ASCII value of fewer than 50 characters is refused |
| Bot.BotHandler.HandleSearch | internal/handler/bot.go:548-623 | blank text ignored; "http://"/"https://" text routed as a link (user lookup, then the platform test); any other text searched, giving results or the "not found" notice |
| Bot.BotHandler.SearchResultsAreActiveMatches | internal/handler/bot.go:559-566 | the listed results are at most ten active matching rows, and all of them when fewer than ten |
| Bot.BotHandler.HandlePrivateMessage | internal/handler/bot.go:56-80 | the sender's user row is found or created first; commands are dispatched by name; other text goes to the search, where a link then never fails on the user lookup |
| Bot.BotHandler.SendSong | internal/handler/bot.go:724-762 | the favourite button follows IsFavorited; success records one play; an error mentioning "file" or "invalid" flags the row missing; nothing else changes |
| Bot.StaleFileErrorAnyMention | internal/handler/bot.go:751-753 | an error text with "file" or "invalid" anywhere in it marks the song missing |
| Bot.BotHandler.CallbackPlay | internal/handler/bot.go:791-809 | `PlayEffect`: an absent song changes nothing; otherwise the send's outcome decides the answer, a sent song gets one history row, and an error naming a dead file flags the row missing |
| Bot.BotHandler.HandleCallback | internal/handler/bot.go:765-830 | an unknown sender is answered first and changes nothing; then the parsed action: unknown, invalid ID, a play with the catalog and history effects of `PlayEffect`, a favourite row appended, or every row of the pair removed. Only the action's own tables change. The answer is an alert exactly for the failures (`ShowsAlert`) |
| Bot.BotHandler.RunAction | internal/handler/bot.go:776-830 | the action the callback data names, for a known user, with the same per-action effects and alert flag |

## Left out

- The worker pool (`pkg/worker/pool.go`) is left out: it is goroutines, a channel queue and cancellation, and nothing in the core submits to it.
- Telegram message texts, captions, HTML formatting, status-message deletion and `answerCallback`'s request are left out. The model returns what is sent or decided, not the wording.
- `cmdStart`, `cmdHelp`, `cmdAdd`, `cmdUnknown`, `cmdHistory`, `cmdFavorites`, `cmdRandom` and `cmdStats` are modelled only as the dispatch target. They send fixed or formatted texts over `GetByUser`, `GetRandom` and `GetStats`, which rely on `RANDOM()`, `DISTINCT ON`, `Preload` and `CURRENT_DATE`. `cmdSongs` and `sendSearchResults` are modelled for their keyboard only (`Bot.BuildKeyboard`); their song list comes from the search or from `RANDOM()`.
- The URL route of the bot stops at the decision to call `DownloadAndSave` (`Bot.StartDownload`). The download itself is `Ingestion.YTDLPService.DownloadAndSave`, and the two are not wired together.
- `UpdateLastSeen` after a successful send, GORM's timestamps, default values, column sizes and foreign keys are left out. `LastSeen`, `CreatedAt` and `UpdatedAt` are not in the records; creation order stands for `created_at`.
- Database errors other than "not found" and the duplicate key (connectivity, timeouts) are left out, and with them the 500 replies of the web API and the "收藏失败" / "取消收藏失败" answers.
- ILIKE's wildcard characters inside a keyword are left out; the keyword is matched as a plain substring. Case folding covers ASCII and the two non-ASCII runes that lower-case to ASCII letters.
- `Web.ListSongs` does not model the `total` of the list reply. It is counted on the same GORM statement after Offset and Limit, whose count semantics are GORM internals.
- The file system is reduced to the set of temporary files (`Ingestion.Scratch`). `filepath.Join` does not clean paths. The directory listing in the "stat failed" error text is left out.
- ffprobe's duration is an integer input (0 when probing fails): parsing its floating-point output is left out.
- MusicApi.FormatLyrics: the trim of the truncated bytes (`Text.TrimSpaceBytes`) removes ASCII white space only. Go's `strings.TrimSpace` also removes the non-ASCII white space of `unicode.IsSpace`, such as U+00A0 and U+3000, decoded from UTF-8 once it meets a non-ASCII byte. Truncated lyrics that end or start with such a character keep it in the model. The function works on bytes; that its notice constant is the UTF-8 encoding of the Chinese notice is stated in the constant, not derived from a text.
- `SongModel.UpdateCountryCodeByLanguage` and the handlers' `song.Language = …` return an updated record value instead of mutating a struct in place; no aliasing of `*Song` is modelled.
- Loading the configuration (viper, environment variables, defaults), the logger, the database connection and migrations (`internal/database/database.go`), the two `main.go` files and `scripts/add_song.go` are left out: they are bootstrap and I/O.
- The HTTP requests and JSON decoding of the NetEase client are left out; only the acceptance rules over decoded responses are modelled.
- Telegram's `IsCommand`, `Command` and `CommandArguments` parsing is left out: a message carries its command name and arguments already split.
- The basic-auth header decoding is left out: `Web.BasicAuth` receives the decoded pair, or none.
