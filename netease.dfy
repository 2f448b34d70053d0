/**
 * The NetEase music API client of pkg/api/netease.go, without its HTTP transport and JSON
 * decoding: the base-URL default, the acceptance rules applied to each decoded response,
 * the artist-list formatting and the millisecond-to-second conversion.
 */
module Netease {
  import opened Wrappers
  import opened Text

  const DefaultBaseURL := "https://music-api-xuanwuserver.vercel.app"

  /** NewNeteaseAPI: the base URL the client uses, the public default for an empty one. */
  function ClientBaseURL(baseURL: string): (r: string)
    ensures r != ""
    ensures baseURL != "" ==> r == baseURL
    ensures baseURL == "" ==> r == DefaultBaseURL
  {
    if baseURL == "" then DefaultBaseURL else baseURL
  }

  datatype Artist = Artist(id: Int64, name: string)
  datatype Album = Album(id: Int64, name: string, picUrl: string)
  datatype SongInfo = SongInfo(
    id: Int64, name: string, artists: seq<Artist>, album: Album, duration: Int64, musicId: string)
  datatype SongURL = SongURL(id: Int64, url: string, size: Int64)

  /** The decoded bodies of the four endpoints. */
  datatype SearchResponse = SearchResponse(songs: seq<SongInfo>, songCount: Int64, code: Int64)
  datatype SongURLResponse = SongURLResponse(data: seq<SongURL>, code: Int64)
  datatype LyricResponse = LyricResponse(lyric: string, code: Int64)
  datatype SongDetailResponse = SongDetailResponse(songs: seq<SongInfo>, code: Int64)

  /** "API 返回错误: <code>", "无法获取歌曲地址" and "无法获取歌曲详情". */
  datatype ApiError = BadCode(code: Int64) | NoSongURL | NoSongDetail

  const OK := 200

  /** Search: the songs of a response whose code is 200. */
  function AcceptSearch(resp: SearchResponse): (r: Result<seq<SongInfo>, ApiError>)
    ensures r.Success? <==> resp.code == OK
    ensures r.Success? ==> r.value == resp.songs
    ensures r.Failure? ==> r.error == BadCode(resp.code)
  {
    if resp.code != OK then Failure(BadCode(resp.code)) else Success(resp.songs)
  }

  /** GetSongURL: the first URL of a response whose code is 200 and whose data is non-empty. */
  function AcceptSongURL(resp: SongURLResponse): (r: Result<string, ApiError>)
    ensures r.Success? <==> resp.code == OK && |resp.data| > 0
    ensures r.Success? ==> r.value == resp.data[0].url
    ensures r.Failure? ==> r.error == NoSongURL
  {
    if resp.code != OK || |resp.data| == 0 then Failure(NoSongURL) else Success(resp.data[0].url)
  }

  /** GetLyric: the lyric of a response whose code is 200, even when it is empty. */
  function AcceptLyric(resp: LyricResponse): (r: Result<string, ApiError>)
    ensures r.Success? <==> resp.code == OK
    ensures r.Success? ==> r.value == resp.lyric
    ensures r.Failure? ==> r.error == BadCode(resp.code)
  {
    if resp.code != OK then Failure(BadCode(resp.code)) else Success(resp.lyric)
  }

  /** GetSongDetail: the first song of a response whose code is 200 and that lists one. */
  function AcceptSongDetail(resp: SongDetailResponse): (r: Result<SongInfo, ApiError>)
    ensures r.Success? <==> resp.code == OK && |resp.songs| > 0
    ensures r.Success? ==> r.value == resp.songs[0]
    ensures r.Failure? ==> r.error == NoSongDetail
  {
    if resp.code != OK || |resp.songs| == 0 then Failure(NoSongDetail) else Success(resp.songs[0])
  }

  // ---------------------------------------------------------------------------
  // FormatArtist
  // ---------------------------------------------------------------------------

  const ArtistSeparator := ", "

  function ArtistNames(artists: seq<Artist>): (r: seq<string>)
    ensures |r| == |artists| && forall i :: 0 <= i < |artists| ==> r[i] == artists[i].name
  {
    seq(|artists|, i requires 0 <= i < |artists| => artists[i].name)
  }

  /** The names joined by ", ", as FormatArtist computes them. */
  function JoinedArtists(artists: seq<Artist>): string {
    Join(ArtistNames(artists), ArtistSeparator)
  }

  /** FormatArtist: fills a slice of names by index, then joins it with ", ". */
  method FormatArtist(artists: seq<Artist>) returns (r: string)
    ensures r == JoinedArtists(artists)
  {
    var names := new string[|artists|];
    for i := 0 to |artists|
      invariant forall j :: 0 <= j < i ==> names[j] == artists[j].name
    {
      names[i] := artists[i].name;
    }
    assert names[..] == ArtistNames(artists);
    r := Join(names[..], ArtistSeparator);
  }

  /** Where part `i` starts in the joined text: the earlier parts and separators. */
  function PartOffset(parts: seq<string>, sep: string, i: nat): nat
    requires i < |parts|
  {
    if i == 0 then 0 else |parts[0]| + |sep| + PartOffset(parts[1..], sep, i - 1)
  }

  /** The joined text is the first part, then the separator and the rest when there is more. */
  lemma JoinHead(parts: seq<string>, sep: string)
    requires |parts| > 1
    ensures Join(parts, sep) == (parts[0] + sep) + Join(parts[1..], sep)
  {
  }

  /** Each part sits at its offset in the joined text. */
  lemma {:induction false} JoinPartAt(parts: seq<string>, sep: string, i: nat)
    requires i < |parts|
    ensures var off := PartOffset(parts, sep, i);
      off + |parts[i]| <= |Join(parts, sep)| && Join(parts, sep)[off..off + |parts[i]|] == parts[i]
    decreases i
  {
    if |parts| > 1 {
      JoinHead(parts, sep);
      var head := parts[0] + sep;
      var rest := Join(parts[1..], sep);
      if i == 0 {
        assert (head + rest)[..|parts[0]|] == parts[0];
      } else {
        JoinPartAt(parts[1..], sep, i - 1);
        assert parts[1..][i - 1] == parts[i];
        var off' := PartOffset(parts[1..], sep, i - 1);
        SliceOfRight(head, rest, off', off' + |parts[i]|);
      }
    }
  }

  /** Every part but the last is followed by the separator. */
  lemma {:induction false} JoinSeparatorAfter(parts: seq<string>, sep: string, i: nat)
    requires i + 1 < |parts|
    ensures var end := PartOffset(parts, sep, i) + |parts[i]|;
      end + |sep| <= |Join(parts, sep)| && Join(parts, sep)[end..end + |sep|] == sep
    decreases i
  {
    JoinHead(parts, sep);
    var head := parts[0] + sep;
    var rest := Join(parts[1..], sep);
    if i == 0 {
      SliceOfLeft(parts[0] + sep, rest, |parts[0]|, |head|);
      assert (parts[0] + sep)[|parts[0]|..|head|] == sep;
    } else {
      JoinSeparatorAfter(parts[1..], sep, i - 1);
      assert parts[1..][i - 1] == parts[i];
      var end' := PartOffset(parts[1..], sep, i - 1) + |parts[i]|;
      SliceOfRight(head, rest, end', end' + |sep|);
    }
  }

  /** The last part ends the joined text. */
  lemma {:induction false} JoinLastPartEnds(parts: seq<string>, sep: string)
    requires |parts| > 0
    ensures PartOffset(parts, sep, |parts| - 1) + |parts[|parts| - 1]| == |Join(parts, sep)|
    decreases |parts|
  {
    if |parts| > 1 {
      JoinHead(parts, sep);
      JoinLastPartEnds(parts[1..], sep);
      assert parts[1..][|parts| - 2] == parts[|parts| - 1];
    }
  }

  /**
   * The joined text holds every part, in order, at its offset, each followed by the
   * separator except the last; its length is the last part's end.
   */
  lemma JoinPlacesParts(parts: seq<string>, sep: string, i: nat)
    requires i < |parts|
    ensures var j := Join(parts, sep); var off := PartOffset(parts, sep, i);
      off + |parts[i]| <= |j| && j[off..off + |parts[i]|] == parts[i] &&
      (i + 1 < |parts| ==> off + |parts[i]| + |sep| <= |j| && j[off + |parts[i]|..off + |parts[i]| + |sep|] == sep) &&
      (i + 1 == |parts| ==> off + |parts[i]| == |j|)
  {
    JoinPartAt(parts, sep, i);
    if i + 1 < |parts| {
      JoinSeparatorAfter(parts, sep, i);
    } else {
      JoinLastPartEnds(parts, sep);
    }
  }

  /** A slice of the left operand of a concatenation. */
  lemma SliceOfLeft<T>(a: seq<T>, b: seq<T>, lo: nat, hi: nat)
    requires lo <= hi <= |a|
    ensures (a + b)[lo..hi] == a[lo..hi]
  {
  }

  /** A slice of the right operand of a concatenation, shifted by the left one's length. */
  lemma SliceOfRight<T>(a: seq<T>, b: seq<T>, lo: nat, hi: nat)
    requires lo <= hi <= |b|
    ensures (a + b)[|a| + lo..|a| + hi] == b[lo..hi]
  {
  }

  /** No artists give the empty string. */
  lemma FormatArtistEmpty()
    ensures JoinedArtists([]) == ""
  {
  }

  /** One artist gives exactly their name, with no separator. */
  lemma FormatArtistSingle(a: Artist)
    ensures JoinedArtists([a]) == a.name
  {
  }

  /** Each artist's name appears at its place, in list order. */
  lemma FormatArtistInOrder(artists: seq<Artist>, i: nat)
    requires i < |artists|
    ensures var j := JoinedArtists(artists); var off := PartOffset(ArtistNames(artists), ArtistSeparator, i);
      off + |artists[i].name| <= |j| && j[off..off + |artists[i].name|] == artists[i].name
  {
    JoinPlacesParts(ArtistNames(artists), ArtistSeparator, i);
  }

  // ---------------------------------------------------------------------------
  // ParseDuration
  // ---------------------------------------------------------------------------

  /** ParseDuration: Go's `ms / 1000`, which truncates toward zero. */
  function ParseDuration(ms: Int64): (r: Int64)
    ensures ms >= 0 ==> r >= 0 && r * 1000 <= ms < r * 1000 + 1000
    ensures ms < 0 ==> r <= 0 && r * 1000 - 1000 < ms <= r * 1000
  {
    if ms >= 0 then ms / 1000 else -((-(ms as int)) / 1000)
  }

  /**
   * For a negative duration that is not a whole number of seconds the Go result is one
   * more than Euclidean division; otherwise the two agree.
   */
  lemma ParseDurationVersusEuclidean(ms: Int64)
    ensures ms >= 0 || ms % 1000 == 0 ==> ParseDuration(ms) == ms / 1000
    ensures ms < 0 && ms % 1000 != 0 ==> ParseDuration(ms) == ms / 1000 + 1
  {
  }
}
