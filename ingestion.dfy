/**
 * The yt-dlp ingestion path of internal/service/ytdlp.go: from a video URL to a song row
 * in the catalog and an audio message in the chat.
 *
 * The external steps are inputs: what the two yt-dlp runs, the two `os.Stat` calls and
 * ffprobe report is a `ToolRun`; the Telegram upload's outcome is an `UploadResult`;
 * whether sending the audio succeeds is a flag; the md5 digest is a function passed in;
 * the wall clock is a number of nanoseconds. What the service asks of the outside world
 * is returned as a list of `Action`s. The temporary directory is a `Scratch` set of paths.
 */
module Ingestion {
  import opened Wrappers
  import opened Text
  import opened SongModel
  import opened Catalog
  import MusicApi

  // ---------------------------------------------------------------------------
  // Size limit (NewYTDLPService, downloadWithYTDLP)
  // ---------------------------------------------------------------------------

  /** `int64(maxSize) * 1024 * 1024`, each product wrapping around in 64 bits. */
  function MaxSizeBytes(mb: Int64): (r: Int64)
    ensures 0 <= mb < 0x800_0000_0000 ==> r == mb * 1048576 && r >= 0
  {
    Wrap64(Wrap64(mb * 1024) * 1024)
  }

  /** A limit of 2^43 MB wraps around to the most negative int64: every file is too large. */
  lemma MaxSizeWrapsAt2Pow43()
    ensures MaxSizeBytes(0x800_0000_0000) == MinInt64
  {
  }

  datatype SizeVerdict = SizeOk | TooLarge | Empty

  /** The size checks: the too-large test comes before the empty test. */
  function CheckSize(size: nat, maxSize: Int64): (v: SizeVerdict)
    ensures v == SizeOk <==> 0 < size <= maxSize
    ensures v == TooLarge <==> size > maxSize
    ensures v == Empty <==> size == 0 && 0 <= maxSize
  {
    if size > maxSize then TooLarge else if size == 0 then Empty else SizeOk
  }

  /** A file of exactly the limit is accepted; one byte more is rejected. */
  lemma LimitIsInclusive(maxSize: Int64)
    requires maxSize > 0
    ensures CheckSize(maxSize as nat, maxSize) == SizeOk
    ensures CheckSize(maxSize as nat + 1, maxSize) == TooLarge
  {
  }

  // ---------------------------------------------------------------------------
  // generateHash: the first 16 hex digits of the md5 of the URL
  // ---------------------------------------------------------------------------

  type Digest = d: seq<Byte> | |d| == 16 witness [0, 0, 0, 0, 0, 0, 0, 0, 0, 0, 0, 0, 0, 0, 0, 0]

  /** A lower-case hexadecimal digit character. */
  predicate IsHexChar(c: char) {
    '0' <= c <= '9' || 'a' <= c <= 'f'
  }

  predicate IsLowerHex(s: string) {
    forall i :: 0 <= i < |s| ==> IsHexChar(s[i])
  }

  /** The digit of a nibble in "0123456789abcdef". */
  function HexDigit(n: nat): (c: char)
    requires n < 16
    ensures IsHexChar(c)
  {
    if n < 10 then ('0' as int + n) as char else ('a' as int + n - 10) as char
  }

  function HexByte(b: Byte): (r: string)
    ensures |r| == 2 && IsLowerHex(r)
  {
    [HexDigit(b / 16), HexDigit(b % 16)]
  }

  /** hex.EncodeToString: two lower-case digits per byte, high nibble first. */
  function HexEncode(bs: seq<Byte>): (r: string)
    ensures |r| == 2 * |bs| && IsLowerHex(r)
  {
    if bs == [] then "" else HexByte(bs[0]) + HexEncode(bs[1..])
  }

  /** The nibble a hex digit stands for (0 for any other character). */
  function HexValue(c: char): (v: nat)
    ensures v < 16
    ensures IsHexChar(c) ==> HexDigit(v) == c
  {
    if '0' <= c <= '9' then c as int - '0' as int
    else if 'a' <= c <= 'f' then c as int - 'a' as int + 10
    else 0
  }

  /** The bytes that a string of lower-case hex digits spells. */
  function HexDecode(s: string): (r: seq<Byte>)
    requires |s| % 2 == 0
    ensures |r| == |s| / 2
  {
    if s == [] then [] else [HexValue(s[0]) * 16 + HexValue(s[1])] + HexDecode(s[2..])
  }

  lemma {:induction false} HexRoundTrip(bs: seq<Byte>)
    ensures HexDecode(HexEncode(bs)) == bs
  {
    if bs != [] {
      var h := HexEncode(bs);
      var b := bs[0];
      assert h[0] == HexDigit(b / 16) && h[1] == HexDigit(b % 16);
      assert HexValue(h[0]) == b / 16 && HexValue(h[1]) == b % 16;
      assert h[2..] == HexEncode(bs[1..]);
      HexRoundTrip(bs[1..]);
    }
  }

  /** The first 2k hex digits encode the first k bytes. */
  lemma {:induction false} HexEncodePrefix(bs: seq<Byte>, k: nat)
    requires k <= |bs|
    ensures HexEncode(bs)[..2 * k] == HexEncode(bs[..k])
  {
    if k > 0 {
      HexEncodePrefix(bs[1..], k - 1);
      assert bs[..k][1..] == bs[1..][..k - 1];
      assert HexEncode(bs)[..2 * k] == HexByte(bs[0]) + HexEncode(bs[1..])[..2 * (k - 1)];
    }
  }

  /**
   * generateHash: the first 16 characters of the lower-case hex of the md5 of the raw
   * input bytes, which is the hex of the digest's first 8 bytes.
   */
  function GenerateHash(md5: seq<Byte> -> Digest, input: string): (r: string)
    ensures |r| == 16 && IsLowerHex(r)
    ensures r == HexEncode(md5(Utf8Encode(input))[..8])
  {
    var d := md5(Utf8Encode(input));
    HexEncodePrefix(d, 8);
    HexEncode(d)[..16]
  }

  /** The hash gives back exactly the first 8 digest bytes. */
  lemma GenerateHashDecodes(md5: seq<Byte> -> Digest, input: string)
    ensures HexDecode(GenerateHash(md5, input)) == md5(Utf8Encode(input))[..8]
  {
    HexRoundTrip(md5(Utf8Encode(input))[..8]);
  }

  // ---------------------------------------------------------------------------
  // parseTitle
  // ---------------------------------------------------------------------------

  const UnknownArtist := "未知歌手"
  const TitleSeparator := " - "

  /** The song information parsed from a video title (the downloader's SongInfo). */
  datatype TitleInfo = TitleInfo(title: string, artist: string, album: string, duration: int)

  /**
   * "Official Video", then "MV", then "Lyrics" each removed once when the title ends with
   * it exactly, then the white space at both ends dropped.
   */
  function StripPromoSuffixes(t: string): (r: string)
    ensures Trimmed(r) && |r| <= |t|
  {
    TrimSpace(TrimSuffix(TrimSuffix(TrimSuffix(t, "Official Video"), "MV"), "Lyrics"))
  }

  /** A trimmed title ending in ')' is kept as it is, "(Official Video)" included. */
  lemma ParenthesisedSuffixKept(t: string)
    requires Trimmed(t) && t != [] && t[|t| - 1] == ')'
    ensures StripPromoSuffixes(t) == t
  {
    SuffixLastChar(t, "Official Video");
    assert TrimSuffix(t, "Official Video") == t;
    SuffixLastChar(t, "MV");
    assert TrimSuffix(t, "MV") == t;
    SuffixLastChar(t, "Lyrics");
    assert TrimSuffix(t, "Lyrics") == t;
  }

  /**
   * Each promotional suffix after a space is removed, whatever trimmed text precedes it:
   * the other two suffixes never match the end of the title with this one in place.
   */
  lemma PromoSuffixRemoved(s: string, x: string)
    requires Trimmed(s)
    requires x == "Official Video" || x == "MV" || x == "Lyrics"
    ensures StripPromoSuffixes(s + " " + x) == s
  {
    var t := s + " " + x;
    var spaced := s + " ";
    assert t == spaced + x;
    assert HasSuffix(t, x) by { assert t[|t| - |x|..] == x; }
    assert t[|t| - 1] == x[|x| - 1];
    assert spaced[|spaced| - 1] == ' ';
    SuffixLastChar(t, "Official Video");
    SuffixLastChar(t, "MV");
    SuffixLastChar(spaced, "MV");
    SuffixLastChar(spaced, "Lyrics");
    var afterVideo := TrimSuffix(t, "Official Video");
    assert afterVideo == if x == "Official Video" then spaced else t;
    var afterMV := TrimSuffix(afterVideo, "MV");
    assert afterMV == if x == "Lyrics" then t else spaced;
    assert TrimSuffix(afterMV, "Lyrics") == spaced;
    TrimSpaceDropsTrailingSpace(s, ' ');
  }

  /** The suffixes are matched case-sensitively: a lower-case " mv" stays in the title. */
  lemma LowerCaseSuffixKept(s: string)
    requires Trimmed(s) && s != []
    ensures StripPromoSuffixes(s + " mv") == s + " mv"
  {
    var t := s + " mv";
    assert t[0] == s[0] && t[|t| - 1] == 'v';
    SuffixLastChar(t, "Official Video");
    SuffixLastChar(t, "MV");
    SuffixLastChar(t, "Lyrics");
  }

  /**
   * parseTitle: with " - " in the title, the trimmed text before its first occurrence is
   * the artist and the trimmed text after it, stripped of promotional suffixes, the title;
   * otherwise the whole trimmed, stripped title with the unknown artist. No album.
   */
  function ParseTitle(title: string): (info: TitleInfo)
    ensures info.album == "" && info.duration == 0
    ensures Trimmed(info.title) && Trimmed(info.artist)
  {
    var idx := Index(title, TitleSeparator);
    assert Trimmed(UnknownArtist);
    if idx != -1 then TitleInfo(StripPromoSuffixes(TrimSpace(title[idx + 3..])), TrimSpace(title[..idx]), "", 0)
    else TitleInfo(StripPromoSuffixes(TrimSpace(title)), UnknownArtist, "", 0)
  }

  /**
   * parseTitle as the code runs it: the record starts as the trimmed title under the
   * unknown artist, the split overwrites artist and title, and the suffixes are then
   * removed from the title one assignment at a time.
   */
  method ParseTitleInPlace(title: string) returns (info: TitleInfo)
    ensures info == ParseTitle(title)
  {
    info := TitleInfo(TrimSpace(title), UnknownArtist, "", 0);
    var idx := Index(title, TitleSeparator);
    if idx != -1 {
      info := info.(artist := TrimSpace(title[..idx]));
      info := info.(title := TrimSpace(title[idx + 3..]));
    }
    if idx != -1 {
      assert info == TitleInfo(TrimSpace(title[idx + 3..]), TrimSpace(title[..idx]), "", 0);
      assert ParseTitle(title) == TitleInfo(StripPromoSuffixes(TrimSpace(title[idx + 3..])), TrimSpace(title[..idx]), "", 0);
    } else {
      assert info == TitleInfo(TrimSpace(title), UnknownArtist, "", 0);
      assert ParseTitle(title) == TitleInfo(StripPromoSuffixes(TrimSpace(title)), UnknownArtist, "", 0);
    }
    info := StripTitleInPlace(info);
  }

  /** The suffix steps of parseTitle, each an assignment to the record's title. */
  method StripTitleInPlace(before: TitleInfo) returns (info: TitleInfo)
    ensures info == before.(title := StripPromoSuffixes(before.title))
  {
    info := before;
    info := info.(title := TrimSuffix(info.title, "Official Video"));
    info := info.(title := TrimSuffix(info.title, "MV"));
    info := info.(title := TrimSuffix(info.title, "Lyrics"));
    info := info.(title := TrimSpace(info.title));
  }

  /** A title without " - " keeps all its text as the title, under the unknown artist. */
  lemma NoSeparatorUnknownArtist(title: string)
    requires forall i :: !OccursAt(title, TitleSeparator, i)
    ensures ParseTitle(title).artist == UnknownArtist
    ensures ParseTitle(title).title == StripPromoSuffixes(TrimSpace(title))
  {
  }

  /**
   * The split is at the FIRST " - ": later separators stay in the title. When `a` holds
   * no separator (none starts inside `a`), the artist comes from `a` and the title from
   * all of `b`.
   */
  lemma SplitAtFirstSeparator(a: string, b: string)
    requires forall i :: 0 <= i < |a| ==> !OccursAt(a + TitleSeparator + b, TitleSeparator, i)
    ensures ParseTitle(a + TitleSeparator + b) == TitleInfo(StripPromoSuffixes(TrimSpace(b)), TrimSpace(a), "", 0)
  {
    var t := a + TitleSeparator + b;
    assert t[|a|..|a| + 3] == TitleSeparator;
    assert OccursAt(t, TitleSeparator, |a|);
    var idx := Index(t, TitleSeparator);
    assert idx == |a|;
    assert t[..idx] == a;
    assert t[idx + 3..] == b;
  }

  // ---------------------------------------------------------------------------
  // detectRegion / containsCJK of the downloader
  // ---------------------------------------------------------------------------

  /** The downloader's containsCJK: only the Han ideograph block counts. */
  function ContainsHan(s: string): (r: bool)
    ensures r <==> exists i :: 0 <= i < |s| && MusicApi.IsHan(s[i])
  {
    if s == [] then false
    else if MusicApi.IsHan(s[0]) then true
    else
      assert forall i :: 1 <= i < |s| ==> s[i] == s[1..][i - 1];
      ContainsHan(s[1..])
  }

  /** detectRegion: "CN" exactly when the artist has a Han ideograph, else "US". */
  function DetectRegion(artist: string): (r: string)
    ensures r == "CN" || r == "US"
    ensures r == "CN" <==> exists i :: 0 <= i < |artist| && MusicApi.IsHan(artist[i])
  {
    if ContainsHan(artist) then "CN" else "US"
  }

  /** The downloader's test is narrower than the API package's containsCJK. */
  lemma HanImpliesApiCJK(s: string)
    requires ContainsHan(s)
    ensures MusicApi.ContainsCJK(s)
  {
  }

  /** The two detectors disagree on Hangul: a Korean name is "US" here but "KR" there. */
  lemma DetectorsDisagreeOnHangul()
    ensures DetectRegion("한") == "US"
    ensures MusicApi.DetectRegionFromArtistName("한") == "KR"
  {
    assert MusicApi.IsHangul("한"[0]);
  }

  // ---------------------------------------------------------------------------
  // The external world
  // ---------------------------------------------------------------------------

  /** What the tools report for one download. */
  datatype ToolRun = ToolRun(
    titleOk: bool,           // yt-dlp --print title exited successfully
    titleOutput: string,     // its combined output
    downloadOk: bool,        // yt-dlp -x exited successfully
    mp3Size: Option<nat>,    // os.Stat of "<base>.mp3": its size, or None when it fails
    bareSize: Option<nat>,   // os.Stat of "<base>"
    duration: int)           // ffprobe's whole seconds, 0 when it fails

  datatype UploadResult = Uploaded(fileId: string, fileSize: Int64) | UploadFailed

  /** What the service asks of the outside world, in order. */
  datatype Action =
    | RunYtDlp(args: seq<string>)
    | Probe(path: string)
    | UploadAudio(path: string, name: string)
    | SendAudio(fileId: string, callback: string)

  datatype DownloadError = TitleFailed | DownloadFailed | StatFailed | FileTooLarge(size: nat) | FileEmpty

  datatype IngestError =
    | Download(reason: DownloadError)
    | UploadError
    | SaveError(cause: DbError)
    | SendError

  datatype Downloaded = Downloaded(path: string, info: TitleInfo)

  /** filepath.Join of a directory and a file name (without Clean's normalisation). */
  function PathJoin(dir: string, name: string): string {
    if dir == "" then name else dir + "/" + name
  }

  /** The file name "<nanoseconds>_music" of one download. */
  function TempFileName(nanos: Int64): (r: string)
    ensures HasSuffix(r, "_music")
  {
    var name := IntToDecimal(nanos) + "_music";
    assert name[|name| - 6..] == "_music";
    name
  }

  /** The path yt-dlp is told to write to, before it adds the ".mp3" extension. */
  function TempBase(tempDir: string, nanos: Int64): (r: string)
    ensures tempDir != "" ==> HasPrefix(r, tempDir + "/")
    ensures HasSuffix(r, "_music")
  {
    var base := PathJoin(tempDir, TempFileName(nanos));
    assert tempDir != "" ==> base[..|tempDir + "/"|] == tempDir + "/";
    assert base[|base| - 6..] == TempFileName(nanos)[|TempFileName(nanos)| - 6..];
    base
  }

  /** The time stamp read back from a temporary path under that directory. */
  function TempStamp(tempDir: string, base: string): Int64 {
    var p := if tempDir == "" then 0 else |tempDir| + 1;
    if p + 6 <= |base| then Atoi(base[p..|base| - 6]) else 0
  }

  /** The temporary path gives back the nanosecond time stamp it was made from. */
  lemma TempBaseRoundTrip(tempDir: string, nanos: Int64)
    ensures TempStamp(tempDir, TempBase(tempDir, nanos)) == nanos
  {
    var d := IntToDecimal(nanos);
    var p := if tempDir == "" then "" else tempDir + "/";
    var base := TempBase(tempDir, nanos);
    assert base == p + d + "_music";
    assert base[|p|..|base| - 6] == d;
    AtoiOfDecimal(nanos);
  }

  /** Downloads started at different nanoseconds write to different paths. */
  lemma TempBasesDistinct(tempDir: string, n1: Int64, n2: Int64)
    requires n1 != n2
    ensures TempBase(tempDir, n1) != TempBase(tempDir, n2)
  {
    TempBaseRoundTrip(tempDir, n1);
    TempBaseRoundTrip(tempDir, n2);
  }

  /** The arguments of the title run: cookies first when configured, the URL last. */
  function TitleArgs(cookiesFile: string, url: string): (r: seq<string>)
    ensures |r| >= 5 && r[|r| - 1] == url
    ensures cookiesFile != "" <==> |r| == 7
    ensures cookiesFile != "" ==> r[..2] == ["--cookies", cookiesFile]
    ensures r[|r| - 5..|r| - 1] == ["--print", "title", "--no-playlist", "--no-warnings"]
  {
    var core := ["--print", "title", "--no-playlist", "--no-warnings"];
    (if cookiesFile != "" then ["--cookies", cookiesFile] + core else core) + [url]
  }

  /**
   * The arguments of the download run: extract mp3 at the best quality into `filename`
   * (relative to the temporary directory); cookies first when configured, the URL last.
   */
  function DownloadArgs(cookiesFile: string, filename: string, url: string): (r: seq<string>)
    ensures |r| >= 10 && r[|r| - 1] == url
    ensures cookiesFile != "" <==> |r| == 12
    ensures cookiesFile != "" ==> r[..2] == ["--cookies", cookiesFile]
    ensures r[|r| - 5] == "-o" && r[|r| - 4] == filename
  {
    var core := ["-x", "--audio-format", "mp3", "--audio-quality", "0", "-o", filename,
                 "--no-playlist", "--no-warnings"];
    assert |core| == 9;
    (if cookiesFile != "" then ["--cookies", cookiesFile] + core else core) + [url]
  }

  /** The callback data of the favourite button the downloader attaches. */
  function FavCallback(songId: nat): (r: string)
    ensures HasPrefix(r, "fav_") && AllDigits(r[4..]) && DigitsValue(r[4..]) == songId
  {
    DecimalRoundTrip(songId);
    var r := "fav_" + NatToDecimal(songId);
    assert r[4..] == NatToDecimal(songId);
    r
  }

  /** The upload's file name "<artist> - <title>.mp3". */
  function UploadName(info: TitleInfo): (name: string)
    ensures HasSuffix(name, ".mp3")
  {
    var name := info.artist + " - " + info.title + ".mp3";
    assert name[|name| - 4..] == ".mp3";
    name
  }

  /**
   * The upload's file name parses back: a trimmed artist without " - " comes out as the
   * artist, and the trimmed title comes out with ".mp3" still attached.
   */
  lemma UploadNameParsesBack(info: TitleInfo)
    requires Trimmed(info.artist) && Trimmed(info.title)
    requires forall i :: 0 <= i < |info.artist| ==> !OccursAt(UploadName(info), TitleSeparator, i)
    ensures ParseTitle(UploadName(info)).artist == info.artist
    ensures ParseTitle(UploadName(info)).title == info.title + ".mp3"
  {
    var rest := info.title + ".mp3";
    assert UploadName(info) == info.artist + TitleSeparator + rest;
    SplitAtFirstSeparator(info.artist, rest);
    ExtensionKeptByStrip(info.title);
  }

  /** A trimmed title with ".mp3" appended is trimmed and ends in no promotional suffix. */
  lemma ExtensionKeptByStrip(t: string)
    requires Trimmed(t)
    ensures StripPromoSuffixes(TrimSpace(t + ".mp3")) == t + ".mp3"
  {
    var rest := t + ".mp3";
    assert rest[|rest| - 1] == '3';
    if t == "" {
      assert rest == ".mp3";
    } else {
      assert rest[0] == t[0];
    }
    assert Trimmed(rest);
    SuffixLastChar(rest, "Official Video");
    SuffixLastChar(rest, "MV");
    SuffixLastChar(rest, "Lyrics");
  }

  /**
   * What a successful download knows of the song: the title yt-dlp printed, trimmed and
   * parsed, and the duration ffprobe reported.
   */
  function DownloadedInfo(run: ToolRun): (info: TitleInfo)
    ensures info.duration == run.duration && info.album == ""
    ensures Trimmed(info.title) && Trimmed(info.artist)
  {
    ParseTitle(TrimSpace(run.titleOutput)).(duration := run.duration)
  }

  /** A file found after the download: its path and size. */
  datatype Located = Located(path: string, size: nat)

  /** The two stats after a successful download: "<base>.mp3" first, then "<base>". */
  function Locate(run: ToolRun, base: string): (r: Option<Located>)
    ensures r.None? <==> run.mp3Size.None? && run.bareSize.None?
    ensures run.mp3Size.Some? ==> r == Some(Located(base + ".mp3", run.mp3Size.value))
  {
    if run.mp3Size.Some? then Some(Located(base + ".mp3", run.mp3Size.value))
    else if run.bareSize.Some? then Some(Located(base, run.bareSize.value))
    else None
  }

  /** The title run of yt-dlp. */
  function TitleRun(cookiesFile: string, url: string): Action {
    RunYtDlp(TitleArgs(cookiesFile, url))
  }

  /** The two yt-dlp runs, title first. */
  function ToolRuns(cookiesFile: string, nanos: Int64, url: string): seq<Action> {
    [TitleRun(cookiesFile, url), RunYtDlp(DownloadArgs(cookiesFile, TempFileName(nanos), url))]
  }

  /**
   * The row the downloader records (before the database assigns its id): the URL's hash
   * and the URL, the uploaded file, the parsed title, artist and duration, and the
   * "active" status; the album, country, year, cover, lyrics, genre and language are
   * left empty.
   */
  function Record(url: string, uniqueHash: string, info: TitleInfo, upload: UploadResult): (s: Song)
    requires upload.Uploaded?
    ensures s.uniqueHash == uniqueHash && s.sourceUrl == url
    ensures s.fileId == upload.fileId && s.fileSize == upload.fileSize
    ensures s.title == info.title && s.artist == info.artist && s.duration == info.duration
    ensures s.status == Active && !s.isMissing && s.album == "" && s.countryCode == ""
  {
    Song(0, uniqueHash, upload.fileId, url, info.title, info.artist, "", info.duration,
         upload.fileSize, "", 0, "", "", "", "", false, Active)
  }

  /** The temporary directory's files. */
  class Scratch {
    var files: set<string>

    constructor()
      ensures files == {}
    {
      files := {};
    }
  }

  // ---------------------------------------------------------------------------
  // YTDLPService
  // ---------------------------------------------------------------------------

  class YTDLPService {
    const songRepo: SongRepository
    const historyRepo: HistoryRepository
    const fs: Scratch
    const tempDir: string
    const maxSize: Int64
    const cookiesFile: string
    const md5: seq<Byte> -> Digest

    predicate Valid()
      reads songRepo, historyRepo
    {
      songRepo.Valid() && historyRepo.Valid()
    }

    /** NewYTDLPService: the limit is given in megabytes and kept in bytes. */
    constructor(songRepo: SongRepository, historyRepo: HistoryRepository, fs: Scratch,
                tempDir: string, maxSizeMB: Int64, cookiesFile: string, md5: seq<Byte> -> Digest)
      ensures this.songRepo == songRepo && this.historyRepo == historyRepo && this.fs == fs
      ensures this.tempDir == tempDir && this.cookiesFile == cookiesFile && this.md5 == md5
      ensures this.maxSize == MaxSizeBytes(maxSizeMB)
    {
      this.songRepo := songRepo;
      this.historyRepo := historyRepo;
      this.fs := fs;
      this.tempDir := tempDir;
      this.maxSize := MaxSizeBytes(maxSizeMB);
      this.cookiesFile := cookiesFile;
      this.md5 := md5;
    }

    /**
     * downloadWithYTDLP: fetch the title, download the audio, find the file, check its
     * size (removing a rejected file) and parse the title. The file is left in place on
     * success; the caller removes it.
     */
    method DownloadWithYTDLP(url: string, nanos: Int64, run: ToolRun)
      returns (r: Result<Downloaded, DownloadError>, actions: seq<Action>)
      modifies fs
      ensures !run.titleOk ==>
        r == Failure(TitleFailed) && actions == [TitleRun(cookiesFile, url)] && fs.files == old(fs.files)
      ensures run.titleOk && !run.downloadOk ==>
        r == Failure(DownloadFailed) && actions == ToolRuns(cookiesFile, nanos, url) && fs.files == old(fs.files)
      ensures run.titleOk && run.downloadOk && Locate(run, TempBase(tempDir, nanos)).None? ==>
        r == Failure(StatFailed) && actions == ToolRuns(cookiesFile, nanos, url) && fs.files == old(fs.files)
      ensures run.titleOk && run.downloadOk && Locate(run, TempBase(tempDir, nanos)).Some? ==>
        var file := Locate(run, TempBase(tempDir, nanos)).value;
        CheckSize(file.size, maxSize) != SizeOk ==>
          actions == ToolRuns(cookiesFile, nanos, url) && fs.files == old(fs.files) - {file.path} &&
          r == Failure(if file.size > maxSize then FileTooLarge(file.size) else FileEmpty)
      ensures run.titleOk && run.downloadOk && Locate(run, TempBase(tempDir, nanos)).Some? ==>
        var file := Locate(run, TempBase(tempDir, nanos)).value;
        CheckSize(file.size, maxSize) == SizeOk ==>
          actions == ToolRuns(cookiesFile, nanos, url) + [Probe(file.path)] &&
          fs.files == old(fs.files) + {file.path} &&
          r == Success(Downloaded(file.path, DownloadedInfo(run)))
      ensures r.Success? <==> Fetched(run, nanos)
      ensures r.Failure? && run.titleOk ==> actions == ToolRuns(cookiesFile, nanos, url)
      ensures r.Success? ==>
        r.value == Downloaded(Locate(run, TempBase(tempDir, nanos)).value.path, DownloadedInfo(run)) &&
        actions == ToolRuns(cookiesFile, nanos, url) + [Probe(r.value.path)]
    {
      var filename := TempFileName(nanos);
      var tempBase := TempBase(tempDir, nanos);

      actions := [TitleRun(cookiesFile, url)];
      if !run.titleOk {
        return Failure(TitleFailed), actions;
      }

      actions := actions + [RunYtDlp(DownloadArgs(cookiesFile, filename, url))];
      if !run.downloadOk {
        return Failure(DownloadFailed), actions;
      }

      assert actions == ToolRuns(cookiesFile, nanos, url);
      var found := Locate(run, tempBase);
      if found.None? {
        return Failure(StatFailed), actions;
      }
      r := CheckDownloadedFile(found.value, run);
      if r.Success? {
        actions := actions + [Probe(found.value.path)];
      }
    }

    /**
     * The size checks on the file yt-dlp wrote: too large first, then empty; a rejected
     * file is removed, an accepted one is kept and its title parsed.
     */
    method CheckDownloadedFile(file: Located, run: ToolRun) returns (r: Result<Downloaded, DownloadError>)
      modifies fs
      ensures CheckSize(file.size, maxSize) != SizeOk ==>
        fs.files == old(fs.files) - {file.path} &&
        r == Failure(if file.size > maxSize then FileTooLarge(file.size) else FileEmpty)
      ensures CheckSize(file.size, maxSize) == SizeOk ==>
        fs.files == old(fs.files) + {file.path} && r == Success(Downloaded(file.path, DownloadedInfo(run)))
    {
      var tempFile := file.path;
      var size := file.size;
      fs.files := fs.files + {tempFile};

      if size > maxSize {
        fs.files := fs.files - {tempFile};
        return Failure(FileTooLarge(size));
      }
      if size == 0 {
        fs.files := fs.files - {tempFile};
        return Failure(FileEmpty);
      }

      var info := DownloadedInfo(run);
      r := Success(Downloaded(tempFile, info));
    }

    /**
     * sendDownloadedSong: send the stored audio with a favourite button, then record the
     * play in the history; nothing is recorded when sending fails.
     */
    method SendDownloadedSong(song: Song, userId: nat, sendOk: bool) returns (r: Result<Song, IngestError>, action: Action)
      requires historyRepo.Valid()
      modifies historyRepo
      ensures historyRepo.Valid()
      ensures action == SendAudio(song.fileId, FavCallback(song.id))
      ensures sendOk ==>
        r == Success(song) &&
        historyRepo.rows == old(historyRepo.rows) + [History(old(historyRepo.nextId), userId, song.id)]
      ensures !sendOk ==>
        r == Failure(SendError) &&
        historyRepo.rows == old(historyRepo.rows) && historyRepo.nextId == old(historyRepo.nextId)
    {
      action := SendAudio(song.fileId, FavCallback(song.id));
      if !sendOk {
        return Failure(SendError), action;
      }
      historyRepo.Add(userId, song.id);
      r := Success(song);
    }

    /**
     * The insert of the new row. When `racer` is given, that row for the same hash is
     * committed first, and this insert fails on the unique index.
     */
    method SaveRecord(s: Song, racer: Option<Song>) returns (created: Result<Song, DbError>)
      requires songRepo.Valid()
      requires songRepo.FindByUniqueHash(s.uniqueHash).Failure?
      modifies songRepo
      ensures songRepo.Valid()
      ensures racer.Some? ==>
        created == Failure(DuplicateKey) &&
        songRepo.rows == old(songRepo.rows) + [racer.value.(uniqueHash := s.uniqueHash, id := old(songRepo.nextId))]
      ensures racer.None? ==>
        created == Success(s.(id := old(songRepo.nextId))) && songRepo.rows == old(songRepo.rows) + [created.value]
    {
      if racer.Some? {
        var _ := songRepo.Create(racer.value.(uniqueHash := s.uniqueHash));
        assert songRepo.rows[|songRepo.rows| - 1].uniqueHash == s.uniqueHash;
      }
      created := songRepo.Create(s);
    }

    /**
     * What happens once the file is downloaded and uploaded, after the actions `before`:
     * the upload is always made; a failed upload is an upload error and a racing row
     * makes the insert fail on the unique hash, both with no send; otherwise the new row
     * is added and sent with its "fav_" button, and the play is recorded exactly when the
     * send succeeds.
     */
    twostate predicate RecordEffect(url: string, uniqueHash: string, userId: nat, d: Downloaded, before: seq<Action>,
                                    upload: UploadResult, racer: Option<Song>, sendOk: bool,
                                    new r: Result<Song, IngestError>, new actions: seq<Action>)
      reads songRepo, historyRepo
    {
      var sent := before + [UploadAudio(d.path, UploadName(d.info))];
      (upload.UploadFailed? ==>
         r == Failure(UploadError) && actions == sent &&
         songRepo.rows == old(songRepo.rows) && historyRepo.rows == old(historyRepo.rows)) &&
      (upload.Uploaded? && racer.Some? ==>
         r == Failure(SaveError(DuplicateKey)) && actions == sent &&
         songRepo.rows == old(songRepo.rows) + [racer.value.(uniqueHash := uniqueHash, id := old(songRepo.nextId))] &&
         historyRepo.rows == old(historyRepo.rows)) &&
      (upload.Uploaded? && racer.None? ==>
         var s := Record(url, uniqueHash, d.info, upload).(id := old(songRepo.nextId));
         songRepo.rows == old(songRepo.rows) + [s] &&
         actions == sent + [SendAudio(s.fileId, FavCallback(s.id))] &&
         (sendOk ==>
            r == Success(s) &&
            historyRepo.rows == old(historyRepo.rows) + [History(old(historyRepo.nextId), userId, s.id)]) &&
         (!sendOk ==> r == Failure(SendError) && historyRepo.rows == old(historyRepo.rows)))
    }

    /**
     * The second half of DownloadAndSave, once the file is downloaded and the URL's hash
     * is known to be new: upload the file, create the row, send it. `racer` is a row for
     * the same URL that another request commits while this one uploads; this request's
     * Create then fails on the unique hash, and the failure is returned as it is. The
     * temporary file is removed on every path.
     */
    method UploadAndRecord(url: string, uniqueHash: string, userId: nat, d: Downloaded, before: seq<Action>,
                           upload: UploadResult, racer: Option<Song>, sendOk: bool)
      returns (r: Result<Song, IngestError>, actions: seq<Action>)
      requires Valid()
      requires songRepo.FindByUniqueHash(uniqueHash).Failure?
      modifies songRepo, historyRepo, fs
      ensures Valid()
      ensures fs.files == old(fs.files) - {d.path}
      ensures |actions| > |before| && actions[..|before| + 1] == before + [UploadAudio(d.path, UploadName(d.info))]
      ensures RecordEffect(url, uniqueHash, userId, d, before, upload, racer, sendOk, r, actions)
    {
      actions := before + [UploadAudio(d.path, UploadName(d.info))];
      if upload.UploadFailed? {
        fs.files := fs.files - {d.path};
        return Failure(UploadError), actions;
      }

      var created := SaveRecord(Record(url, uniqueHash, d.info, upload), racer);
      if created.Failure? {
        fs.files := fs.files - {d.path};
        return Failure(SaveError(created.error)), actions;
      }

      var sent;
      r, sent := SendDownloadedSong(created.value, userId, sendOk);
      actions := actions + [sent];
      fs.files := fs.files - {d.path};
    }

    /** The run leaves an accepted file: both tool runs succeed, a file is found and its size passes. */
    predicate Fetched(run: ToolRun, nanos: Int64) {
      run.titleOk && run.downloadOk && Locate(run, TempBase(tempDir, nanos)).Some? &&
      CheckSize(Locate(run, TempBase(tempDir, nanos)).value.size, maxSize) == SizeOk
    }

    /** The file an accepted download leaves, with the metadata the title run reported. */
    function FetchedDownload(run: ToolRun, nanos: Int64): (d: Downloaded)
      requires Fetched(run, nanos)
      ensures Locate(run, TempBase(tempDir, nanos)) == Some(Located(d.path, Locate(run, TempBase(tempDir, nanos)).value.size))
      ensures d.info == DownloadedInfo(run)
    {
      Downloaded(Locate(run, TempBase(tempDir, nanos)).value.path, DownloadedInfo(run))
    }

    /** The actions of an accepted download: both tool runs, then the probe of the file. */
    function FetchedActions(url: string, run: ToolRun, nanos: Int64): (a: seq<Action>)
      requires Fetched(run, nanos)
      ensures |a| == |ToolRuns(cookiesFile, nanos, url)| + 1
      ensures a[|a| - 1] == Probe(FetchedDownload(run, nanos).path)
    {
      ToolRuns(cookiesFile, nanos, url) + [Probe(FetchedDownload(run, nanos).path)]
    }

    /**
     * What DownloadAndSave does for a URL whose hash is not stored yet. The title run
     * comes first, then the download; a run that leaves no accepted file is a download
     * error after those runs. An accepted file is probed and uploaded; a failed upload is
     * an upload error, and a racing row makes the insert fail on the unique hash. Otherwise
     * the new row is added and sent with its "fav_" button, and the play is recorded
     * exactly when the send succeeds. Only the new row or the racer's row changes the
     * catalog.
     */
    twostate predicate IngestEffect(url: string, uniqueHash: string, userId: nat, nanos: Int64, run: ToolRun,
                                    upload: UploadResult, racer: Option<Song>, sendOk: bool,
                                    new r: Result<Song, IngestError>, new actions: seq<Action>)
      reads songRepo, historyRepo
    {
      (!run.titleOk ==> actions == [TitleRun(cookiesFile, url)]) &&
      (run.titleOk && !Fetched(run, nanos) ==> actions == ToolRuns(cookiesFile, nanos, url)) &&
      (!Fetched(run, nanos) ==>
         r.Failure? && r.error.Download? &&
         songRepo.rows == old(songRepo.rows) && historyRepo.rows == old(historyRepo.rows)) &&
      (Fetched(run, nanos) ==>
         RecordEffect(url, uniqueHash, userId, FetchedDownload(run, nanos),
                      FetchedActions(url, run, nanos), upload, racer, sendOk, r, actions))
    }

    /** The miss path of DownloadAndSave: download, then upload, record and send. */
    method FetchAndRecord(url: string, uniqueHash: string, userId: nat, nanos: Int64, run: ToolRun,
                          upload: UploadResult, racer: Option<Song>, sendOk: bool)
      returns (r: Result<Song, IngestError>, actions: seq<Action>)
      requires Valid()
      requires songRepo.FindByUniqueHash(uniqueHash).Failure?
      modifies songRepo, historyRepo, fs
      ensures Valid()
      ensures fs.files <= old(fs.files)
      ensures IngestEffect(url, uniqueHash, userId, nanos, run, upload, racer, sendOk, r, actions)
    {
      var download;
      download, actions := DownloadWithYTDLP(url, nanos, run);
      if download.Failure? {
        r := Failure(Download(download.error));
        return;
      }
      r, actions := UploadAndRecord(url, uniqueHash, userId, download.value, actions, upload, racer, sendOk);
    }

    /**
     * DownloadAndSave. A row already stored under the URL's hash is sent again and
     * nothing is downloaded. Otherwise the file is downloaded, uploaded and recorded
     * (IngestEffect). A download failure changes nothing but may remove a rejected file;
     * once the download succeeded, its file is removed whatever happens next.
     */
    method DownloadAndSave(url: string, userId: nat, nanos: Int64, run: ToolRun, upload: UploadResult,
                           racer: Option<Song>, sendOk: bool)
      returns (r: Result<Song, IngestError>, actions: seq<Action>)
      requires Valid()
      modifies songRepo, historyRepo, fs
      ensures Valid()
      ensures fs.files <= old(fs.files)
      ensures var hash := GenerateHash(md5, url);
        old(songRepo.FindByUniqueHash(hash)).Success? ==>
          var existing := old(songRepo.FindByUniqueHash(hash)).value;
          actions == [SendAudio(existing.fileId, FavCallback(existing.id))] &&
          songRepo.rows == old(songRepo.rows) && fs.files == old(fs.files) &&
          (sendOk ==>
             r == Success(existing) &&
             historyRepo.rows == old(historyRepo.rows) + [History(old(historyRepo.nextId), userId, existing.id)]) &&
          (!sendOk ==> r == Failure(SendError) && historyRepo.rows == old(historyRepo.rows))
      ensures old(songRepo.FindByUniqueHash(GenerateHash(md5, url))).Failure? ==>
        IngestEffect(url, GenerateHash(md5, url), userId, nanos, run, upload, racer, sendOk, r, actions)
    {
      var uniqueHash := GenerateHash(md5, url);
      var existing := songRepo.FindByUniqueHash(uniqueHash);
      if existing.Success? {
        var sent;
        r, sent := SendDownloadedSong(existing.value, userId, sendOk);
        actions := [sent];
      } else {
        r, actions := FetchAndRecord(url, uniqueHash, userId, nanos, run, upload, racer, sendOk);
      }
    }
  }
}
