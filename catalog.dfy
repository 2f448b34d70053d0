/**
 * The catalog of internal/database/repository.go: the `songs`, `users`, `favorites` and
 * `history` tables held in memory, one class per repository. Rows are kept in insertion
 * order; the database assigns increasing primary keys, so GORM's `First` (lowest primary
 * key) is the earliest matching row. Database connectivity errors are not modelled: the
 * only failures are "record not found" and the unique-index violation.
 */
module Catalog {
  import opened Wrappers
  import opened Text
  import opened SongModel
  import opened UserModel

  /** The `favorites` and `history` rows of internal/model/favorite.go and history.go. */
  datatype Favorite = Favorite(id: nat, userId: nat, songId: nat)
  datatype History = History(id: nat, userId: nat, songId: nat)

  /** gorm.ErrRecordNotFound, and the error a unique index raises on a duplicate key. */
  datatype DbError = RecordNotFound | DuplicateKey

  // ---------------------------------------------------------------------------
  // Row sequences
  // ---------------------------------------------------------------------------

  /** The index of the first element satisfying `p`, or `|s|` when there is none. */
  function FirstIndex<T>(s: seq<T>, p: T -> bool): (k: nat)
    ensures k <= |s|
    ensures k < |s| ==> p(s[k])
    ensures forall j :: 0 <= j < k ==> !p(s[j])
  {
    if s == [] then 0 else if p(s[0]) then 0 else 1 + FirstIndex(s[1..], p)
  }

  predicate IdsIncreasing(s: seq<Song>) {
    forall i, j :: 0 <= i < j < |s| ==> s[i].id < s[j].id
  }

  predicate HashesUnique(s: seq<Song>) {
    forall i, j :: 0 <= i < j < |s| ==> s[i].uniqueHash != s[j].uniqueHash
  }

  /** The rows satisfying `p`, in their original order. */
  function FilterSongs(s: seq<Song>, p: Song -> bool): (r: seq<Song>)
    ensures |r| <= |s|
    ensures forall x :: x in r ==> x in s && p(x)
    ensures forall x :: x in s && p(x) ==> x in r
    ensures IdsIncreasing(s) ==> IdsIncreasing(r)
  {
    if s == [] then []
    else
      var rest := FilterSongs(s[1..], p);
      assert IdsIncreasing(s) ==> forall x :: x in s[1..] ==> s[0].id < x.id;
      if p(s[0]) then [s[0]] + rest else rest
  }

  /** The rows newest first. */
  function Reverse(s: seq<Song>): (r: seq<Song>)
    ensures |r| == |s|
    ensures forall i :: 0 <= i < |s| ==> r[i] == s[|s| - 1 - i]
    ensures forall x :: x in r <==> x in s
  {
    var r := seq(|s|, i requires 0 <= i < |s| => s[|s| - 1 - i]);
    assert forall i :: 0 <= i < |s| ==> s[i] == r[|s| - 1 - i];
    r
  }

  /** Postgres ILIKE '%keyword%' on title or artist, of an active row. */
  predicate SearchMatch(x: Song, keyword: string) {
    x.status == Active &&
    (keyword == "" || Contains(ToLower(x.title), ToLower(keyword)) ||
     Contains(ToLower(x.artist), ToLower(keyword)))
  }

  predicate IsMissingRow(x: Song) {
    x.isMissing || x.status == MissingStatus
  }

  /** The columns a change map can name; ColumnName gives each one's database name. */
  datatype Column = TitleColumn | ArtistColumn | AlbumColumn | GenreColumn | LanguageColumn | CountryCodeColumn

  function ColumnName(c: Column): string {
    match c
    case TitleColumn => "title"
    case ArtistColumn => "artist"
    case AlbumColumn => "album"
    case GenreColumn => "genre"
    case LanguageColumn => "language"
    case CountryCodeColumn => "country_code"
  }

  /** A column update that GORM's `Updates` with a change map applies to one row. */
  function ApplyChanges(s: Song, changes: map<Column, string>): (r: Song)
    ensures r.id == s.id && r.uniqueHash == s.uniqueHash && r.fileId == s.fileId
    ensures r.sourceUrl == s.sourceUrl && r.status == s.status && r.isMissing == s.isMissing
    ensures r.duration == s.duration && r.fileSize == s.fileSize && r.year == s.year
    ensures r.title == (if TitleColumn in changes then changes[TitleColumn] else s.title)
    ensures r.artist == (if ArtistColumn in changes then changes[ArtistColumn] else s.artist)
    ensures r.album == (if AlbumColumn in changes then changes[AlbumColumn] else s.album)
    ensures r.genre == (if GenreColumn in changes then changes[GenreColumn] else s.genre)
    ensures r.language == (if LanguageColumn in changes then changes[LanguageColumn] else s.language)
    ensures r.countryCode == (if CountryCodeColumn in changes then changes[CountryCodeColumn] else s.countryCode)
    ensures changes == map[] ==> r == s
  {
    Song(s.id, s.uniqueHash, s.fileId, s.sourceUrl,
         if TitleColumn in changes then changes[TitleColumn] else s.title,
         if ArtistColumn in changes then changes[ArtistColumn] else s.artist,
         if AlbumColumn in changes then changes[AlbumColumn] else s.album,
         s.duration, s.fileSize,
         if CountryCodeColumn in changes then changes[CountryCodeColumn] else s.countryCode,
         s.year, s.coverUrl, s.lyrics,
         if GenreColumn in changes then changes[GenreColumn] else s.genre,
         if LanguageColumn in changes then changes[LanguageColumn] else s.language,
         s.isMissing, s.status)
  }

  // ---------------------------------------------------------------------------
  // SongRepository
  // ---------------------------------------------------------------------------

  class SongRepository {
    var rows: seq<Song>
    var nextId: nat

    /** Primary keys are positive, increasing and below the next key; hashes are unique. */
    predicate Valid()
      reads this
    {
      IdsIncreasing(rows) && HashesUnique(rows) &&
      nextId > 0 && (forall i :: 0 <= i < |rows| ==> 0 < rows[i].id < nextId)
    }

    constructor()
      ensures Valid() && rows == [] && nextId == 1
    {
      rows := [];
      nextId := 1;
    }

    /** FindByFileID: the first active row with that file ID. */
    function FindByFileID(fileId: string): (r: Result<Song, DbError>)
      reads this
      ensures r.Success? ==> r.value in rows && r.value.fileId == fileId && r.value.status == Active
      ensures r.Success? ==>
        exists k :: 0 <= k < |rows| && rows[k] == r.value &&
          forall j :: 0 <= j < k ==> !(rows[j].fileId == fileId && rows[j].status == Active)
      ensures r.Failure? <==> forall x :: x in rows ==> !(x.fileId == fileId && x.status == Active)
      ensures r.Failure? ==> r.error == RecordNotFound
    {
      var k := FirstIndex(rows, (x: Song) => x.fileId == fileId && x.status == Active);
      if k < |rows| then Success(rows[k]) else Failure(RecordNotFound)
    }

    /** FindByUniqueHash: the row with that hash, whatever its status. */
    function FindByUniqueHash(hash: string): (r: Result<Song, DbError>)
      reads this
      ensures r.Success? ==> r.value in rows && r.value.uniqueHash == hash
      ensures r.Failure? <==> forall x :: x in rows ==> x.uniqueHash != hash
      ensures r.Failure? ==> r.error == RecordNotFound
    {
      var k := FirstIndex(rows, (x: Song) => x.uniqueHash == hash);
      if k < |rows| then Success(rows[k]) else Failure(RecordNotFound)
    }

    /** A row is found by its hash whether it is active, missing or processing. */
    lemma FindByUniqueHashIgnoresStatus(s: Song)
      requires Valid() && s in rows
      ensures FindByUniqueHash(s.uniqueHash) == Success(s)
    {
      var r := FindByUniqueHash(s.uniqueHash);
      var i :| 0 <= i < |rows| && rows[i] == s;
      var j :| 0 <= j < |rows| && rows[j] == r.value;
      assert rows[i].uniqueHash == rows[j].uniqueHash;
    }

    /** The row with that primary key (`First(&song, id)` in the handlers). */
    function GetById(id: nat): (r: Result<Song, DbError>)
      reads this
      ensures r.Success? ==> r.value in rows && r.value.id == id
      ensures r.Failure? <==> forall x :: x in rows ==> x.id != id
      ensures r.Failure? ==> r.error == RecordNotFound
    {
      var k := FirstIndex(rows, (x: Song) => x.id == id);
      if k < |rows| then Success(rows[k]) else Failure(RecordNotFound)
    }

    /**
     * Search: active rows whose title or artist contains the keyword case-insensitively
     * (any active row for an empty keyword), newest first, at most `limit` of them; a
     * negative limit means no limit.
     */
    function Search(keyword: string, limit: int): (r: seq<Song>)
      reads this
      ensures forall x :: x in r ==> x in rows && SearchMatch(x, keyword)
      ensures limit >= 0 ==> |r| <= limit
      ensures limit < 0 || |r| < limit ==> forall x :: x in rows && SearchMatch(x, keyword) ==> x in r
      ensures IdsIncreasing(rows) ==> forall i, j :: 0 <= i < j < |r| ==> r[i].id > r[j].id
    {
      var all := Reverse(FilterSongs(rows, (x: Song) => SearchMatch(x, keyword)));
      if 0 <= limit < |all| then
        assert forall x :: x in all[..limit] ==> x in all;
        all[..limit]
      else all
    }

    /** GetMissingSongs: exactly the rows flagged missing or with status "missing". */
    function GetMissingSongs(): (r: seq<Song>)
      reads this
      ensures forall x :: x in r <==> x in rows && IsMissingRow(x)
    {
      FilterSongs(rows, IsMissingRow)
    }

    /**
     * Create: insert a row under the next primary key; fails without change when the
     * unique index already holds the hash.
     */
    method Create(song: Song) returns (r: Result<Song, DbError>)
      requires Valid()
      modifies this
      ensures Valid()
      ensures old(FindByUniqueHash(song.uniqueHash)).Success? ==>
        r == Failure(DuplicateKey) && rows == old(rows) && nextId == old(nextId)
      ensures old(FindByUniqueHash(song.uniqueHash)).Failure? ==>
        r == Success(song.(id := old(nextId))) && rows == old(rows) + [r.value] &&
        nextId == old(nextId) + 1
    {
      if FindByUniqueHash(song.uniqueHash).Success? {
        return Failure(DuplicateKey);
      }
      var row := song.(id := nextId);
      rows := rows + [row];
      nextId := nextId + 1;
      r := Success(row);
    }

    /** UpdateFileID: the row gets the new file ID, is no longer missing and is active. */
    method UpdateFileID(id: nat, fileId: string)
      requires Valid()
      modifies this
      ensures Valid() && nextId == old(nextId) && |rows| == |old(rows)|
      ensures forall i :: 0 <= i < |rows| ==>
        rows[i] == if old(rows)[i].id == id then old(rows)[i].(fileId := fileId, isMissing := false, status := Active)
                   else old(rows)[i]
    {
      rows := seq(|rows|, i requires 0 <= i < |rows| reads this =>
        if rows[i].id == id then rows[i].(fileId := fileId, isMissing := false, status := Active)
        else rows[i]);
    }

    /** MarkMissing: only the `is_missing` flag of that row is set; its status is kept. */
    method MarkMissing(id: nat)
      requires Valid()
      modifies this
      ensures Valid() && nextId == old(nextId) && |rows| == |old(rows)|
      ensures forall i :: 0 <= i < |rows| ==>
        rows[i] == if old(rows)[i].id == id then old(rows)[i].(isMissing := true) else old(rows)[i]
    {
      rows := seq(|rows|, i requires 0 <= i < |rows| reads this =>
        if rows[i].id == id then rows[i].(isMissing := true) else rows[i]);
    }

    /** `Updates(changes)` on the row with that primary key. */
    method Updates(id: nat, changes: map<Column, string>)
      requires Valid()
      modifies this
      ensures Valid() && nextId == old(nextId) && |rows| == |old(rows)|
      ensures forall i :: 0 <= i < |rows| ==>
        rows[i] == if old(rows)[i].id == id then ApplyChanges(old(rows)[i], changes) else old(rows)[i]
    {
      rows := seq(|rows|, i requires 0 <= i < |rows| reads this =>
        if rows[i].id == id then ApplyChanges(rows[i], changes) else rows[i]);
    }

    /** `Delete(&Song{}, id)`: a hard delete of the row with that primary key. */
    method DeleteById(id: nat)
      requires Valid()
      modifies this
      ensures Valid() && nextId == old(nextId)
      ensures GetById(id).Failure?
      ensures forall x :: x in rows <==> x in old(rows) && x.id != id
    {
      var kept := FilterSongs(rows, (x: Song) => x.id != id);
      assert forall x :: x in rows ==> 0 < x.id < nextId;
      assert HashesUnique(kept) by {
        KeptHashesUnique(rows, kept);
      }
      rows := kept;
    }
  }

  /** A subsequence by membership of rows with increasing ids keeps hashes unique. */
  lemma KeptHashesUnique(s: seq<Song>, r: seq<Song>)
    requires IdsIncreasing(s) && HashesUnique(s) && IdsIncreasing(r)
    requires forall x :: x in r ==> x in s
    ensures HashesUnique(r)
  {
    forall i, j | 0 <= i < j < |r|
      ensures r[i].uniqueHash != r[j].uniqueHash
    {
      assert r[i] in s && r[j] in s;
      var a :| 0 <= a < |s| && s[a] == r[i];
      var b :| 0 <= b < |s| && s[b] == r[j];
      assert a != b;
    }
  }

  // ---------------------------------------------------------------------------
  // UserRepository
  // ---------------------------------------------------------------------------

  class UserRepository {
    var rows: seq<User>
    var nextId: nat

    /** Primary keys are positive and below the next key; Telegram IDs are unique. */
    predicate Valid()
      reads this
    {
      nextId > 0 && (forall i :: 0 <= i < |rows| ==> 0 < rows[i].id < nextId) &&
      (forall i, j :: 0 <= i < j < |rows| ==> rows[i].telegramId != rows[j].telegramId)
    }

    constructor()
      ensures Valid() && rows == [] && nextId == 1
    {
      rows := [];
      nextId := 1;
    }

    /** FindByTelegramID: the user with that Telegram ID. */
    function FindByTelegramID(telegramId: Int64): (r: Result<User, DbError>)
      reads this
      ensures r.Success? ==> r.value in rows && r.value.telegramId == telegramId
      ensures r.Failure? <==> forall u :: u in rows ==> u.telegramId != telegramId
      ensures r.Failure? ==> r.error == RecordNotFound
    {
      var k := FirstIndex(rows, (u: User) => u.telegramId == telegramId);
      if k < |rows| then Success(rows[k]) else Failure(RecordNotFound)
    }

    /**
     * FindOrCreate: the existing user with that Telegram ID, or a new one with the given
     * names and the column defaults (language "zh", not admin, active).
     */
    method FindOrCreate(telegramId: Int64, username: string, firstName: string, lastName: string)
      returns (u: User)
      requires Valid()
      modifies this
      ensures Valid()
      ensures u in rows && u.telegramId == telegramId
      ensures old(FindByTelegramID(telegramId)).Success? ==>
        u == old(FindByTelegramID(telegramId)).value && rows == old(rows) && nextId == old(nextId)
      ensures old(FindByTelegramID(telegramId)).Failure? ==>
        u == User(old(nextId), telegramId, username, firstName, lastName, "zh", false, true) &&
        rows == old(rows) + [u] && nextId == old(nextId) + 1
    {
      var found := FindByTelegramID(telegramId);
      if found.Success? {
        return found.value;
      }
      u := User(nextId, telegramId, username, firstName, lastName, "zh", false, true);
      rows := rows + [u];
      nextId := nextId + 1;
    }
  }

  // ---------------------------------------------------------------------------
  // FavoriteRepository and HistoryRepository
  // ---------------------------------------------------------------------------

  /** The number of favourite rows linking that user to that song. */
  function CountPair(fs: seq<Favorite>, userId: nat, songId: nat): (n: nat)
    ensures n <= |fs|
    ensures n > 0 <==> exists i :: 0 <= i < |fs| && fs[i].userId == userId && fs[i].songId == songId
  {
    if fs == [] then 0
    else
      var rest := CountPair(fs[1..], userId, songId);
      assert forall i :: 1 <= i < |fs| ==> fs[i] == fs[1..][i - 1];
      (if fs[0].userId == userId && fs[0].songId == songId then 1 else 0) + rest
  }

  lemma {:induction false} CountPairAppend(fs: seq<Favorite>, f: Favorite, userId: nat, songId: nat)
    ensures CountPair(fs + [f], userId, songId) ==
      CountPair(fs, userId, songId) + (if f.userId == userId && f.songId == songId then 1 else 0)
  {
    if fs != [] {
      assert (fs + [f])[1..] == fs[1..] + [f];
      CountPairAppend(fs[1..], f, userId, songId);
    }
  }

  /** The favourite rows not linking that user to that song, in order. */
  function WithoutPair(fs: seq<Favorite>, userId: nat, songId: nat): (r: seq<Favorite>)
    ensures forall f :: f in r <==> f in fs && !(f.userId == userId && f.songId == songId)
  {
    if fs == [] then []
    else
      var rest := WithoutPair(fs[1..], userId, songId);
      if fs[0].userId == userId && fs[0].songId == songId then rest else [fs[0]] + rest
  }

  class FavoriteRepository {
    var rows: seq<Favorite>
    var nextId: nat

    predicate Valid()
      reads this
    {
      nextId > 0 && forall i :: 0 <= i < |rows| ==> 0 < rows[i].id < nextId
    }

    constructor()
      ensures Valid() && rows == [] && nextId == 1
    {
      rows := [];
      nextId := 1;
    }

    /** IsFavorited: the count of (user, song) rows is positive. */
    function IsFavorited(userId: nat, songId: nat): (r: bool)
      reads this
      ensures r <==> exists f :: f in rows && f.userId == userId && f.songId == songId
    {
      CountPair(rows, userId, songId) > 0
    }

    /** Add: always appends a row, even when the pair is already a favourite. */
    method Add(userId: nat, songId: nat)
      requires Valid()
      modifies this
      ensures Valid()
      ensures rows == old(rows) + [Favorite(old(nextId), userId, songId)] && nextId == old(nextId) + 1
      ensures CountPair(rows, userId, songId) == old(CountPair(rows, userId, songId)) + 1
      ensures IsFavorited(userId, songId)
    {
      CountPairAppend(rows, Favorite(nextId, userId, songId), userId, songId);
      rows := rows + [Favorite(nextId, userId, songId)];
      nextId := nextId + 1;
    }

    /** Remove: deletes every row of the pair and no other row. */
    method Remove(userId: nat, songId: nat)
      requires Valid()
      modifies this
      ensures Valid() && nextId == old(nextId)
      ensures rows == WithoutPair(old(rows), userId, songId)
      ensures !IsFavorited(userId, songId)
      ensures forall f :: f in rows <==> f in old(rows) && !(f.userId == userId && f.songId == songId)
    {
      rows := WithoutPair(rows, userId, songId);
    }
  }

  class HistoryRepository {
    var rows: seq<History>
    var nextId: nat

    predicate Valid()
      reads this
    {
      nextId > 0 && forall i :: 0 <= i < |rows| ==> 0 < rows[i].id < nextId
    }

    constructor()
      ensures Valid() && rows == [] && nextId == 1
    {
      rows := [];
      nextId := 1;
    }

    /** Add: appends one play of that song by that user. */
    method Add(userId: nat, songId: nat)
      requires Valid()
      modifies this
      ensures Valid()
      ensures rows == old(rows) + [History(old(nextId), userId, songId)] && nextId == old(nextId) + 1
    {
      rows := rows + [History(nextId, userId, songId)];
      nextId := nextId + 1;
    }
  }
}
