/**
 * The admin API of internal/handler/web.go: the Basic-auth gate, the song listing's
 * paging and filters, the ID guard and the change map of the song update. Gin's request
 * and response plumbing is replaced by explicit inputs and a `Reply` value.
 */
module Web {
  import opened Wrappers
  import opened Text
  import opened SongModel
  import opened Catalog

  // ---------------------------------------------------------------------------
  // basicAuth
  // ---------------------------------------------------------------------------

  datatype Credentials = Credentials(username: string, password: string)

  /**
   * basicAuth: the wrapped handler runs only when the request carries Basic credentials
   * equal to the configured pair; otherwise the reply is 401 and the chain is aborted.
   */
  function BasicAuth(presented: Option<Credentials>, username: string, password: string): (ok: bool)
    ensures ok <==> presented == Some(Credentials(username, password))
  {
    presented.Some? && presented.value.username == username && presented.value.password == password
  }

  // ---------------------------------------------------------------------------
  // apiListSongs
  // ---------------------------------------------------------------------------

  /** Gin's DefaultQuery: the parameter's value when present (even empty), else the default. */
  function DefaultQuery(query: map<string, string>, key: string, default: string): (r: string)
    ensures key in query ==> r == query[key]
    ensures key !in query ==> r == default
  {
    if key in query then query[key] else default
  }

  /** Gin's Query: the parameter's value, or "" when absent. */
  function Query(query: map<string, string>, key: string): (r: string)
    ensures r == DefaultQuery(query, key, "")
  {
    DefaultQuery(query, key, "")
  }

  /** The three filters of the listing; an empty one is not applied. */
  datatype ListFilter = ListFilter(keyword: string, genre: string, language: string)

  datatype ListParams = ListParams(page: Int64, limit: Int64, offset: Int64, filter: ListFilter)

  /**
   * The listing's parameters: page and limit read with Atoi (errors ignored) from "page"
   * (default "1") and "limit" (default "20"); offset = (page - 1) * limit in 64-bit
   * arithmetic; the three filters as given.
   */
  function ListParamsOf(query: map<string, string>): (p: ListParams)
    ensures p.page == Atoi(DefaultQuery(query, "page", "1"))
    ensures p.limit == Atoi(DefaultQuery(query, "limit", "20"))
    ensures p.offset == Wrap64(Wrap64(p.page as int - 1) * p.limit)
    ensures p.filter == ListFilter(Query(query, "q"), Query(query, "genre"), Query(query, "language"))
  {
    var page := Atoi(DefaultQuery(query, "page", "1"));
    var limit := Atoi(DefaultQuery(query, "limit", "20"));
    ListParams(page, limit, Wrap64(Wrap64(page as int - 1) * limit),
               ListFilter(Query(query, "q"), Query(query, "genre"), Query(query, "language")))
  }

  /** Without parameters the first page of twenty is listed. */
  lemma ListDefaults()
    ensures var p := ListParamsOf(map[]); p.page == 1 && p.limit == 20 && p.offset == 0
  {
    AtoiOfDecimal(1);
    AtoiOfDecimal(20);
    assert IntToDecimal(1) == "1" && IntToDecimal(20) == "20";
  }

  /** For ordinary values the offset is exactly (page - 1) * limit. */
  lemma OffsetExact(page: Int64, limit: Int64)
    requires 1 <= page && 0 <= limit && (page as int - 1) * limit <= MaxInt64
    ensures Wrap64(Wrap64(page as int - 1) * limit) == (page as int - 1) * limit
  {
    assert 0 <= (page as int - 1) * limit;
  }

  /**
   * The WHERE clause: title or artist containing the keyword case-insensitively, then the
   * exact genre and the exact language, each condition only when its value is non-empty.
   * Unlike the bot's search, the status is not filtered.
   */
  predicate ListMatch(x: Song, p: ListFilter) {
    (p.keyword == "" || Contains(ToLower(x.title), ToLower(p.keyword)) ||
     Contains(ToLower(x.artist), ToLower(p.keyword))) &&
    (p.genre == "" || x.genre == p.genre) &&
    (p.language == "" || x.language == p.language)
  }

  /** The rows OFFSET skips: only a positive offset applies. */
  function Skipped(offset: int): nat {
    if offset > 0 then offset else 0
  }

  /** OFFSET applies only when positive, LIMIT only when not negative. */
  function Window<T>(all: seq<T>, offset: int, limit: int): (r: seq<T>)
    ensures limit >= 0 ==> |r| <= limit
    ensures forall i :: 0 <= i < |r| ==> Skipped(offset) + i < |all| && r[i] == all[Skipped(offset) + i]
    ensures limit < 0 || |r| < limit ==>
      |r| == if Skipped(offset) < |all| then |all| - Skipped(offset) else 0
  {
    var skip := Skipped(offset);
    var rest := if skip < |all| then all[skip..] else [];
    if 0 <= limit < |rest| then rest[..limit] else rest
  }

  /** Every matching row, newest first: the listing before OFFSET and LIMIT. */
  function Matching(rows: seq<Song>, f: ListFilter): (all: seq<Song>)
    ensures forall x :: x in all <==> x in rows && ListMatch(x, f)
    ensures IdsIncreasing(rows) ==> forall i, j :: 0 <= i < j < |all| ==> all[i].id > all[j].id
  {
    var filtered := FilterSongs(rows, (x: Song) => ListMatch(x, f));
    var all := Reverse(filtered);
    assert forall i :: 0 <= i < |all| ==> all[i] == filtered[|filtered| - 1 - i];
    all
  }

  /** The listed page: matching rows, newest first, then OFFSET and LIMIT. */
  function ListSongs(rows: seq<Song>, p: ListParams): (r: seq<Song>)
    ensures r == Window(Matching(rows, p.filter), p.offset, p.limit)
    ensures forall x :: x in r ==> x in rows && ListMatch(x, p.filter)
    ensures p.limit >= 0 ==> |r| <= p.limit
    ensures IdsIncreasing(rows) ==> forall i, j :: 0 <= i < j < |r| ==> r[i].id > r[j].id
  {
    var all := Matching(rows, p.filter);
    var r := Window(all, p.offset, p.limit);
    assert forall i :: 0 <= i < |r| ==> r[i] in all;
    r
  }

  /**
   * Paging walks down the newest-first list without overlap: every row on page n + 1
   * is older than every row on page n.
   */
  lemma NextPageIsOlder(rows: seq<Song>, p: ListParams, q: ListParams, n: nat)
    requires IdsIncreasing(rows)
    requires p.filter == q.filter
    requires p.limit == q.limit && p.limit > 0
    requires p.offset == n * p.limit && q.offset == (n + 1) * p.limit
    ensures forall x, y :: x in ListSongs(rows, p) && y in ListSongs(rows, q) ==> y.id < x.id
  {
    var all := Matching(rows, p.filter);
    assert q.offset == p.offset + p.limit;
    WindowsInOrder(all, p.offset, q.offset, p.limit);
  }

  /**
   * No matching row is skipped by paging: the row at position i of the newest-first
   * list is on the page whose offset is i rounded down to a multiple of the limit.
   */
  lemma EveryMatchIsListed(rows: seq<Song>, p: ListParams, i: nat)
    requires p.limit > 0 && i < |Matching(rows, p.filter)|
    requires p.offset == (i / p.limit) * p.limit
    ensures Matching(rows, p.filter)[i] in ListSongs(rows, p)
  {
    PageOfPosition(i, p.limit);
    WindowHolds(Matching(rows, p.filter), p.offset, p.limit, i);
  }

  /** Position i lies on the page that starts at i rounded down to a multiple of the limit. */
  lemma PageOfPosition(i: nat, limit: int)
    requires limit > 0
    ensures 0 <= (i / limit) * limit <= i < (i / limit) * limit + limit
  {
    var n := i / limit;
    assert i == limit * n + i % limit;
    assert n * limit == limit * n;
  }

  /** A window holds every element from its offset up to the offset plus the limit. */
  lemma WindowHolds<T>(all: seq<T>, offset: int, limit: int, i: int)
    requires 0 <= offset <= i < offset + limit && i < |all|
    ensures all[i] in Window(all, offset, limit)
  {
    var r := Window(all, offset, limit);
    assert Skipped(offset) == offset;
    assert i - offset < |r|;
    assert r[i - offset] == all[i];
  }

  /** Two windows of a newest-first list, the second starting where the first ends. */
  lemma WindowsInOrder(all: seq<Song>, first: int, second: int, limit: int)
    requires forall i, j :: 0 <= i < j < |all| ==> all[i].id > all[j].id
    requires 0 <= first && 0 < limit && second == first + limit
    ensures forall x, y :: x in Window(all, first, limit) && y in Window(all, second, limit) ==> y.id < x.id
  {
    var a := Window(all, first, limit);
    var b := Window(all, second, limit);
    assert Skipped(first) == first && Skipped(second) == second;
    forall x, y | x in a && y in b
      ensures y.id < x.id
    {
      var i :| 0 <= i < |a| && a[i] == x;
      var j :| 0 <= j < |b| && b[j] == y;
      assert first + i < |all| && all[first + i] == x;
      assert second + j < |all| && all[second + j] == y;
      assert first + i < second + j;
    }
  }

  // ---------------------------------------------------------------------------
  // Handlers guarded by the ID parse
  // ---------------------------------------------------------------------------

  /** The JSON body of a song update. */
  datatype SongInput = SongInput(
    title: string, artist: string, album: string, genre: string, language: string, countryCode: string)

  /** What a handler answers, with its HTTP status. */
  datatype Reply =
    | SongReply(song: Song)                   // 200, the row
    | MissingReply(songs: seq<Song>, count: nat)  // 200, the missing rows and their number
    | Submitted(id: nat)                      // 200, "重新处理任务已提交"
    | Updated                                 // 200, "更新成功"
    | Deleted                                 // 200, "删除成功"
    | BadRequest                              // 400, "无效的歌曲ID" or an undecodable body
    | NotFound                                // 404, "歌曲不存在"

  /** The code UpdateCountryCodeByLanguage gives the stored row once its language is set. */
  function LanguageCountryCode(stored: Song, language: string): (code: string)
    ensures language in LangToCountry ==> code == LangToCountry[language]
    ensures language !in LangToCountry ==> code == stored.countryCode
  {
    UpdateCountryCodeByLanguage(stored.(language := language)).countryCode
  }

  /** The title, artist and album entries: each present exactly when given non-empty. */
  function OptionalColumns(input: SongInput): (m: map<Column, string>)
    ensures TitleColumn in m <==> input.title != ""
    ensures ArtistColumn in m <==> input.artist != ""
    ensures AlbumColumn in m <==> input.album != ""
    ensures TitleColumn in m ==> m[TitleColumn] == input.title
    ensures ArtistColumn in m ==> m[ArtistColumn] == input.artist
    ensures AlbumColumn in m ==> m[AlbumColumn] == input.album
  {
    SetIfGiven(SetIfGiven(SetIfGiven(map[], TitleColumn, input.title), ArtistColumn, input.artist),
               AlbumColumn, input.album)
  }

  /** One `if value != "" { updates[key] = value }` step. */
  function SetIfGiven(m: map<Column, string>, key: Column, value: string): map<Column, string> {
    if value != "" then m[key := value] else m
  }

  /**
   * The change map of apiUpdateSong: title, artist and album only when non-empty; genre,
   * language and country_code always. With no country code but a language, and a stored
   * row, the country code is the one the stored row gets from that language: its current
   * code when the language is not in the table.
   */
  function UpdateMap(input: SongInput, stored: Result<Song, DbError>): (m: map<Column, string>)
    ensures TitleColumn in m <==> input.title != ""
    ensures ArtistColumn in m <==> input.artist != ""
    ensures AlbumColumn in m <==> input.album != ""
    ensures TitleColumn in m ==> m[TitleColumn] == input.title
    ensures ArtistColumn in m ==> m[ArtistColumn] == input.artist
    ensures AlbumColumn in m ==> m[AlbumColumn] == input.album
    ensures GenreColumn in m && m[GenreColumn] == input.genre
    ensures LanguageColumn in m && m[LanguageColumn] == input.language
    ensures CountryCodeColumn in m
    ensures input.countryCode != "" || input.language == "" || stored.Failure? ==>
      m[CountryCodeColumn] == input.countryCode
    ensures input.countryCode == "" && input.language != "" && stored.Success? ==>
      m[CountryCodeColumn] == LanguageCountryCode(stored.value, input.language)
  {
    var m := OptionalColumns(input);
    var country := if input.countryCode == "" && input.language != "" && stored.Success? then
      LanguageCountryCode(stored.value, input.language)
    else input.countryCode;
    m[GenreColumn := input.genre][LanguageColumn := input.language][CountryCodeColumn := country]
  }

  /** The map always has genre, language and country_code, so the update always runs. */
  lemma UpdateMapNeverEmpty(input: SongInput, stored: Result<Song, DbError>)
    ensures |UpdateMap(input, stored)| >= 3
  {
    var m := UpdateMap(input, stored);
    assert {GenreColumn, LanguageColumn, CountryCodeColumn} <= m.Keys;
    assert |{GenreColumn, LanguageColumn, CountryCodeColumn}| == 3;
    SubsetCardinality({GenreColumn, LanguageColumn, CountryCodeColumn}, m.Keys);
  }

  lemma SubsetCardinality<T>(a: set<T>, b: set<T>)
    requires a <= b
    ensures |a| <= |b|
  {
    assert b == a + (b - a);
  }

  /** A mapped language overrides the stored code; an unmapped one keeps it, never "". */
  lemma UpdateMapCountryFromLanguage(input: SongInput, stored: Song)
    requires input.countryCode == "" && input.language != ""
    ensures input.language in LangToCountry ==>
      UpdateMap(input, Success(stored))[CountryCodeColumn] == LangToCountry[input.language]
    ensures input.language !in LangToCountry ==>
      UpdateMap(input, Success(stored))[CountryCodeColumn] == stored.countryCode
  {
  }

  /** Updating a row with the map: the three optional fields change only when given. */
  lemma UpdateKeepsUnsetFields(s: Song, input: SongInput, stored: Result<Song, DbError>)
    ensures var t := ApplyChanges(s, UpdateMap(input, stored));
      (input.title == "" ==> t.title == s.title) &&
      (input.artist == "" ==> t.artist == s.artist) &&
      (input.album == "" ==> t.album == s.album) &&
      t.genre == input.genre && t.language == input.language &&
      t.fileId == s.fileId && t.status == s.status && t.uniqueHash == s.uniqueHash
  {
  }

  class WebHandler {
    const songRepo: SongRepository
    const username: string
    const password: string

    constructor(songRepo: SongRepository, username: string, password: string)
      ensures this.songRepo == songRepo && this.username == username && this.password == password
    {
      this.songRepo := songRepo;
      this.username := username;
      this.password := password;
    }

    /** apiGetSong: 400 for an unparsable ID, 404 for an absent row, else the row. */
    function GetSong(idText: string): (r: Reply)
      reads songRepo
      ensures ParseUint32(idText).None? ==> r == BadRequest
      ensures ParseUint32(idText).Some? ==>
        var found := songRepo.GetById(ParseUint32(idText).value);
        (found.Failure? ==> r == NotFound) && (found.Success? ==> r == SongReply(found.value))
      ensures r.SongReply? ==> r.song in songRepo.rows && ParseUint32(idText) == Some(r.song.id)
    {
      var id := ParseUint32(idText);
      if id.None? then BadRequest
      else
        var found := songRepo.GetById(id.value);
        if found.Failure? then NotFound else SongReply(found.value)
    }

    /** apiMissingSongs: the missing rows and their number. */
    function MissingSongs(): (r: Reply)
      reads songRepo
      ensures r.MissingReply? && r.count == |r.songs|
      ensures forall x :: x in r.songs <==> x in songRepo.rows && IsMissingRow(x)
    {
      var songs := songRepo.GetMissingSongs();
      MissingReply(songs, |songs|)
    }

    /**
     * apiReprocessSong: 400 for an unparsable ID, otherwise only an acknowledgement; the
     * catalog is not even read.
     */
    function ReprocessSong(idText: string): (r: Reply)
      ensures ParseUint32(idText).None? <==> r == BadRequest
      ensures ParseUint32(idText).Some? ==> r == Submitted(ParseUint32(idText).value)
    {
      var id := ParseUint32(idText);
      if id.None? then BadRequest else Submitted(id.value)
    }

    /** The change map, built key by key as apiUpdateSong does. */
    method BuildUpdates(id: nat, input: SongInput) returns (updates: map<Column, string>)
      ensures updates == UpdateMap(input, songRepo.GetById(id))
    {
      updates := map[];
      ghost var given := updates;
      if input.title != "" {
        updates := updates[TitleColumn := input.title];
      }
      assert updates == SetIfGiven(given, TitleColumn, input.title);
      given := updates;
      if input.artist != "" {
        updates := updates[ArtistColumn := input.artist];
      }
      assert updates == SetIfGiven(given, ArtistColumn, input.artist);
      given := updates;
      if input.album != "" {
        updates := updates[AlbumColumn := input.album];
      }
      assert updates == SetIfGiven(given, AlbumColumn, input.album);
      updates := updates[GenreColumn := input.genre];
      updates := updates[LanguageColumn := input.language];
      var fields := updates;
      updates := updates[CountryCodeColumn := input.countryCode];
      if input.countryCode == "" && input.language != "" {
        var found := songRepo.GetById(id);
        if found.Success? {
          var song := found.value.(language := input.language);
          song := UpdateCountryCodeByLanguage(song);
          assert song.countryCode == LanguageCountryCode(found.value, input.language);
          updates := updates[CountryCodeColumn := song.countryCode];
          assert updates == fields[CountryCodeColumn := song.countryCode];
        }
      }
      ghost var stored := songRepo.GetById(id);
      ghost var country := if input.countryCode == "" && input.language != "" && stored.Success? then
        LanguageCountryCode(stored.value, input.language)
      else input.countryCode;
      assert updates == fields[CountryCodeColumn := country];
    }

    /**
     * apiUpdateSong: 400 for an unparsable ID or body (`input` is None when the JSON does
     * not decode), with no change; otherwise the change map is applied to the row with
     * that ID, if any, and the reply is "updated" even when there is no such row.
     */
    method UpdateSong(idText: string, input: Option<SongInput>) returns (r: Reply)
      requires songRepo.Valid()
      modifies songRepo
      ensures songRepo.Valid()
      ensures ParseUint32(idText).None? || input.None? ==>
        r == BadRequest && songRepo.rows == old(songRepo.rows)
      ensures ParseUint32(idText).Some? && input.Some? ==>
        var id := ParseUint32(idText).value;
        var m := UpdateMap(input.value, old(songRepo.GetById(id)));
        r == Updated && |songRepo.rows| == |old(songRepo.rows)| &&
        forall i :: 0 <= i < |songRepo.rows| ==>
          songRepo.rows[i] == if old(songRepo.rows)[i].id == id then ApplyChanges(old(songRepo.rows)[i], m)
                              else old(songRepo.rows)[i]
    {
      var id := ParseUint32(idText);
      if id.None? || input.None? {
        return BadRequest;
      }
      var updates := BuildUpdates(id.value, input.value);
      songRepo.Updates(id.value, updates);
      r := Updated;
    }

    /** apiDeleteSong: 400 for an unparsable ID with no change; otherwise a hard delete. */
    method DeleteSong(idText: string) returns (r: Reply)
      requires songRepo.Valid()
      modifies songRepo
      ensures songRepo.Valid()
      ensures ParseUint32(idText).None? ==> r == BadRequest && songRepo.rows == old(songRepo.rows)
      ensures ParseUint32(idText).Some? ==>
        r == Deleted && songRepo.GetById(ParseUint32(idText).value).Failure? &&
        forall x :: x in songRepo.rows <==> x in old(songRepo.rows) && x.id != ParseUint32(idText).value
    {
      var id := ParseUint32(idText);
      if id.None? {
        return BadRequest;
      }
      songRepo.DeleteById(id.value);
      r := Deleted;
    }
  }
}
