/**
 * The catalog-facing service of internal/service/music.go. The search client is never
 * consulted by the code, so it is not modelled; the clock reading GenerateUniqueHash
 * makes is a parameter.
 */
module MusicService {
  import opened Wrappers
  import opened Text
  import opened SongModel
  import opened Catalog
  import Netease
  import MusicApi
  import Ingestion

  /** "自动下载功能暂不可用", "数据库无结果", "补档功能开发中" and "未找到相关歌曲". */
  datatype ServiceError = DownloadUnavailable | NoDbResults | ReprocessUnavailable | NotFound

  /** The key ProcessDownload looks a search result up by. */
  function LookupHash(name: string, joinedArtists: string, unixSeconds: Int64): (r: string)
    ensures HasSuffix(r, "_" + name + "_" + joinedArtists)
    ensures Index(r, "_") != -1 && Atoi(r[..Index(r, "_")]) == unixSeconds
  {
    MusicApi.UniqueHashTimestamp("", name, joinedArtists, unixSeconds);
    MusicApi.GenerateUniqueHash("", name, joinedArtists, unixSeconds)
  }

  /**
   * The key carries the current second, so the same search result looked up at two
   * different seconds gives two different keys.
   */
  lemma LookupKeyChangesEverySecond(name: string, joinedArtists: string, s1: Int64, s2: Int64)
    requires s1 != s2
    ensures LookupHash(name, joinedArtists, s1) != LookupHash(name, joinedArtists, s2)
  {
    MusicApi.UniqueHashSecondsDiffer("", name, joinedArtists, s1, "", name, joinedArtists, s2);
  }

  /**
   * ProcessDownload: the stored song whose hash is the time-stamped hash of the result's
   * name and artists, or the "not available" error. Nothing is ever written.
   */
  method ProcessDownload(repo: SongRepository, result: Netease.SongInfo, unixSeconds: Int64)
    returns (r: Result<Song, ServiceError>)
    ensures var found := repo.FindByUniqueHash(LookupHash(result.name, Netease.JoinedArtists(result.artists), unixSeconds));
      && (found.Success? ==> r == Success(found.value))
      && (found.Failure? ==> r == Failure(DownloadUnavailable))
    ensures r.Success? ==> r.value in repo.rows
  {
    var artists := Netease.FormatArtist(result.artists);
    var uniqueHash := MusicApi.GenerateUniqueHash("", result.name, artists, unixSeconds);
    var existing := repo.FindByUniqueHash(uniqueHash);
    if existing.Success? {
      return Success(existing.value);
    }
    r := Failure(DownloadUnavailable);
  }

  /**
   * A lookup key always holds an "_" after the time stamp, and a downloader hash never
   * holds one: ProcessDownload never finds a song the yt-dlp path stored.
   */
  lemma LookupNeverMatchesDownloaderHash(md5: seq<Byte> -> Ingestion.Digest, url: string,
                                        name: string, artists: string, t: Int64)
    ensures LookupHash(name, artists, t) != Ingestion.GenerateHash(md5, url)
  {
    var h := LookupHash(name, artists, t);
    MusicApi.UniqueHashTimestamp("", name, artists, t);
    var k := Index(h, "_");
    assert OccursAt(h, "_", k);
    assert h[k] == '_';
    assert !Ingestion.IsHexChar('_');
  }

  /** The catalog answer: DB songs and API results (the latter is always empty). */
  datatype SearchResult = SearchResult(dbSongs: seq<Song>, apiResults: seq<Netease.SongInfo>)

  const SearchLimit := 10

  /**
   * SearchMusic: the first ten catalog matches when there are any, with no API results;
   * otherwise the "no results" error.
   */
  function SearchMusic(repo: SongRepository, keyword: string): (r: Result<SearchResult, ServiceError>)
    reads repo
    ensures r.Success? <==> |repo.Search(keyword, SearchLimit)| > 0
    ensures r.Success? ==> r.value == SearchResult(repo.Search(keyword, SearchLimit), [])
    ensures r.Failure? ==> r.error == NoDbResults
  {
    var songs := repo.Search(keyword, SearchLimit);
    if |songs| > 0 then Success(SearchResult(songs, [])) else Failure(NoDbResults)
  }

  /** A successful search lists active, matching rows, at most ten of them. */
  lemma SearchMusicFindsActiveMatches(repo: SongRepository, keyword: string)
    requires SearchMusic(repo, keyword).Success?
    ensures var songs := SearchMusic(repo, keyword).value.dbSongs;
      0 < |songs| <= SearchLimit &&
      forall x :: x in songs ==> x in repo.rows && x.status == Active && SearchMatch(x, keyword)
  {
  }

  /** ReprocessMissingSong: always the "in development" error. */
  function ReprocessMissingSong(songId: nat): (r: Option<ServiceError>)
    ensures r == Some(ReprocessUnavailable)
  {
    Some(ReprocessUnavailable)
  }

  /**
   * SearchAndDownloadTask.Execute: the search error when the catalog has no match;
   * otherwise, since the search never yields API results, "not found". It never
   * succeeds and never reaches ProcessDownload.
   */
  method Execute(repo: SongRepository, keyword: string, unixSeconds: Int64) returns (r: Option<ServiceError>)
    ensures r.Some?
    ensures SearchMusic(repo, keyword).Failure? ==> r == Some(NoDbResults)
    ensures SearchMusic(repo, keyword).Success? ==> r == Some(NotFound)
  {
    var search := SearchMusic(repo, keyword);
    if search.Failure? {
      return Some(search.error);
    }
    if |search.value.apiResults| > 0 {
      // The download of the first API result: unreachable, the list is always empty.
      assert false;
    }
    r := Some(NotFound);
  }
}
