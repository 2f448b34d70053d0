/**
 * The decision logic of internal/handler/bot.go: command and callback dispatch, the
 * search-or-link routing of a text message, the inline keyboards, the favourite button
 * and stale-file rule of sendSong, and the admin's cookie upload. Telegram calls are
 * outputs (the values returned) or inputs (the outcome of a send, of a file write).
 */
module Bot {
  import opened Wrappers
  import opened Text
  import opened SongModel
  import opened UserModel
  import opened Catalog
  import Ingestion

  // ---------------------------------------------------------------------------
  // handleCommand
  // ---------------------------------------------------------------------------

  datatype Command = Start | Help | HistoryList | Favorites | Random | Songs | Stats | Add | Cookies | Unknown

  /** Every command name handleCommand knows. */
  const CommandNames: set<string> :=
    {"start", "help", "history", "favorites", "favs", "random", "songs", "list", "stats", "add", "cookies"}

  /** handleCommand: one handler per name, two names for favourites and for the song list. */
  function CommandFor(name: string): (c: Command)
    ensures c == Favorites <==> name == "favorites" || name == "favs"
    ensures c == Songs <==> name == "songs" || name == "list"
    ensures c == Start <==> name == "start"
    ensures c == Help <==> name == "help"
    ensures c == HistoryList <==> name == "history"
    ensures c == Random <==> name == "random"
    ensures c == Stats <==> name == "stats"
    ensures c == Add <==> name == "add"
    ensures c == Cookies <==> name == "cookies"
  {
    if name == "start" then Start
    else if name == "help" then Help
    else if name == "history" then HistoryList
    else if name == "favorites" || name == "favs" then Favorites
    else if name == "random" then Random
    else if name == "songs" || name == "list" then Songs
    else if name == "stats" then Stats
    else if name == "add" then Add
    else if name == "cookies" then Cookies
    else Unknown
  }

  /** A name reaches cmdUnknown exactly when it is not one of the eleven known names. */
  lemma UnknownCommandIsUnlisted(name: string)
    ensures CommandFor(name) == Unknown <==> name !in CommandNames
  {
    if CommandFor(name) != Unknown {
      assert name in CommandNames;
    }
  }

  // ---------------------------------------------------------------------------
  // truncateString, isSupportedVideoPlatform
  // ---------------------------------------------------------------------------

  /**
   * truncateString: the text itself when it has at most `maxLen` runes, else its first
   * `maxLen` runes followed by "...". A negative length makes the slice panic.
   */
  function TruncateString(s: string, maxLen: int): (r: string)
    requires maxLen >= 0
    ensures |s| <= maxLen ==> r == s
    ensures |s| > maxLen ==> |r| == maxLen + 3 && r[..maxLen] == s[..maxLen] && r[maxLen..] == "..."
  {
    if |s| <= maxLen then s
    else
      var r := s[..maxLen] + "...";
      assert r[..maxLen] == s[..maxLen] && r[maxLen..] == "...";
      r
  }

  /**
   * A text comes back unchanged exactly when it is short enough, or when it is exactly
   * three runes longer and already ends in "..." after the kept prefix.
   */
  lemma TruncateFixedPoints(s: string, maxLen: int)
    requires maxLen >= 0
    ensures TruncateString(s, maxLen) == s <==>
      |s| <= maxLen || (|s| == maxLen + 3 && s[maxLen..] == "...")
  {
    if |s| > maxLen && |s| == maxLen + 3 && s[maxLen..] == "..." {
      var r := TruncateString(s, maxLen);
      assert r == r[..maxLen] + r[maxLen..];
      assert s == s[..maxLen] + s[maxLen..];
    }
  }

  /** The eight host fragments isSupportedVideoPlatform accepts. */
  const SupportedPlatforms: seq<string> :=
    ["youtube.com", "youtu.be", "bilibili.com", "b23.tv", "music.163.com", "y.qq.com", "kugou.com", "kuwo.cn"]

  /** The scan over the platforms with its early return. */
  function AnyContained(text: string, platforms: seq<string>): (r: bool)
    ensures r <==> exists k :: 0 <= k < |platforms| && Contains(text, platforms[k])
  {
    if platforms == [] then false
    else if Contains(text, platforms[0]) then true
    else
      var r := AnyContained(text, platforms[1..]);
      assert forall k :: 1 <= k < |platforms| ==> platforms[k] == platforms[1..][k - 1];
      r
  }

  /** isSupportedVideoPlatform: the lower-cased link contains one of the host fragments. */
  function IsSupportedVideoPlatform(url: string): (r: bool)
    ensures r <==> exists k :: 0 <= k < |SupportedPlatforms| && Contains(ToLower(url), SupportedPlatforms[k])
  {
    AnyContained(ToLower(url), SupportedPlatforms)
  }

  /** Lower-casing twice is lower-casing once. */
  lemma ToLowerIdempotent(s: string)
    ensures ToLower(ToLower(s)) == ToLower(s)
  {
    var t := ToLower(s);
    assert forall i :: 0 <= i < |t| ==> LowerRune(t[i]) == t[i];
  }

  /** The platform test does not depend on the link's letter case. */
  lemma PlatformTestIgnoresCase(url: string)
    ensures IsSupportedVideoPlatform(ToLower(url)) == IsSupportedVideoPlatform(url)
  {
    ToLowerIdempotent(url);
  }

  // ---------------------------------------------------------------------------
  // handleSearch and handleURL
  // ---------------------------------------------------------------------------

  /** The trimmed text starts with "http://" or "https://". */
  predicate IsLink(keyword: string) {
    HasPrefix(keyword, "http://") || HasPrefix(keyword, "https://")
  }

  /**
   * The scheme test is case-sensitive, unlike the platform test: a lower-case scheme is a
   * link, an upper-case one is searched for as text.
   */
  lemma LinkSchemeIsCaseSensitive(rest: string)
    ensures IsLink("http://" + rest) && IsLink("https://" + rest)
    ensures !IsLink("HTTP://" + rest) && !IsLink("HTTPS://" + rest)
  {
    assert ("http://" + rest)[..7] == "http://";
    assert ("https://" + rest)[..8] == "https://";
    PrefixFirstChar("HTTP://" + rest, "http://");
    PrefixFirstChar("HTTP://" + rest, "https://");
    PrefixFirstChar("HTTPS://" + rest, "http://");
    PrefixFirstChar("HTTPS://" + rest, "https://");
  }

  /** The number of catalog matches handleSearch shows. */
  const SearchLimit := 10

  /** What a private text message (not a command) leads to. */
  datatype SearchReply =
    | Ignored                     // blank text: nothing is sent
    | LookupFailed                // a link from a sender with no user row
    | StartDownload(url: string)  // a supported link goes to DownloadAndSave
    | Unsupported(url: string)    // the "supported platforms" notice
    | Results(songs: seq<Song>)   // the result list with its keyboard
    | NoResults(keyword: string)  // the "how to add music" notice

  datatype Button = Button(caption: string, data: string)

  /** The callback data of a play button. */
  function PlayData(songId: nat): string {
    "play_" + NatToDecimal(songId)
  }

  /** The callback data of an "unfavourite" button. */
  function UnfavData(songId: nat): string {
    "unfav_" + NatToDecimal(songId)
  }

  /** sendSong's favourite button: "unfav_<id>" when already a favourite, else "fav_<id>". */
  function FavoriteButton(songId: nat, favorited: bool): (b: Button)
    ensures favorited ==> b.data == UnfavData(songId)
    ensures !favorited ==> b.data == Ingestion.FavCallback(songId)
  {
    if favorited then Button("💔 取消收藏", UnfavData(songId)) else Button("❤️ 收藏", Ingestion.FavCallback(songId))
  }

  /** The error text of a failed send names a dead file: it mentions "file" or "invalid". */
  predicate StaleFileError(err: string) {
    Contains(err, "file") || Contains(err, "invalid")
  }

  /**
   * The test is a plain substring search: an error text with "file" or "invalid" anywhere
   * in it marks the song missing, whatever the rest of the text says.
   */
  lemma StaleFileErrorAnyMention(before: string, after: string)
    ensures StaleFileError(before + "file" + after)
    ensures StaleFileError(before + "invalid" + after)
  {
    var f := before + "file" + after;
    var v := before + "invalid" + after;
    assert f[|before|..|before| + 4] == "file";
    assert v[|before|..|before| + 7] == "invalid";
    ContainsAt(f, "file", |before|);
    ContainsAt(v, "invalid", |before|);
  }

  /** `after` is `before` with the is_missing flag of the rows with that ID set. */
  predicate MarkedMissing(before: seq<Song>, after: seq<Song>, id: nat) {
    |after| == |before| &&
    forall i :: 0 <= i < |after| ==>
      after[i] == if before[i].id == id then before[i].(isMissing := true) else before[i]
  }

  // ---------------------------------------------------------------------------
  // Keyboards of sendSearchResults and cmdSongs
  // ---------------------------------------------------------------------------

  /** sendSearchResults labels "i. artist - title", cmdSongs labels "i. title". */
  datatype KeyboardStyle = SearchStyle | ListStyle

  /** The button of the i-th song (counted from 0), playing that song. */
  function SongButton(style: KeyboardStyle, i: nat, song: Song): (b: Button)
    ensures b.data == PlayData(song.id)
    ensures HasPrefix(b.caption, NatToDecimal(i + 1) + ". ")
  {
    var head := NatToDecimal(i + 1) + ". ";
    var caption := match style
      case SearchStyle => head + TruncateString(song.artist, 15) + " - " + TruncateString(song.title, 20)
      case ListStyle => head + TruncateString(song.title, 20);
    assert caption[..|head|] == head;
    Button(caption, PlayData(song.id))
  }

  /** The buttons in song order, before they are laid out in rows. */
  function SongButtons(style: KeyboardStyle, songs: seq<Song>): (bs: seq<Button>)
    ensures |bs| == |songs|
    ensures forall i :: 0 <= i < |songs| ==> bs[i] == SongButton(style, i, songs[i])
  {
    seq(|songs|, i requires 0 <= i < |songs| => SongButton(style, i, songs[i]))
  }

  /** The rows read left to right, top to bottom. */
  function Flatten(rows: seq<seq<Button>>): seq<Button> {
    if rows == [] then [] else Flatten(rows[..|rows| - 1]) + rows[|rows| - 1]
  }

  /** Every row holds two buttons except possibly the last, which may hold one. */
  predicate PairedRows(rows: seq<seq<Button>>) {
    forall k :: 0 <= k < |rows| ==> |rows[k]| == 2 || (k == |rows| - 1 && |rows[k]| == 1)
  }

  lemma FlattenAppend(rows: seq<seq<Button>>, row: seq<Button>)
    ensures Flatten(rows + [row]) == Flatten(rows) + row
  {
    assert (rows + [row])[..|rows|] == rows;
  }

  /**
   * The keyboard loop: each button joins the current row, and the row is flushed when it
   * holds two buttons or the last button has been placed.
   */
  method PairUp(buttons: seq<Button>) returns (keyboard: seq<seq<Button>>)
    ensures Flatten(keyboard) == buttons
    ensures |keyboard| == (|buttons| + 1) / 2
    ensures PairedRows(keyboard)
  {
    var n := |buttons|;
    keyboard := [];
    var row: seq<Button> := [];
    var i := 0;
    while i < n
      invariant 0 <= i <= n
      invariant Flatten(keyboard) + row == buttons[..i]
      invariant i < n ==> |row| <= 1 && 2 * |keyboard| + |row| == i
      invariant i == n ==> row == [] && |keyboard| == (n + 1) / 2
      invariant forall k :: 0 <= k < |keyboard| ==>
        |keyboard[k]| == 2 || (k == |keyboard| - 1 && |keyboard[k]| == 1 && i == n)
    {
      var btn := buttons[i];
      row := row + [btn];
      assert buttons[..i + 1] == buttons[..i] + [btn];
      if |row| == 2 || i == n - 1 {
        FlattenAppend(keyboard, row);
        keyboard := keyboard + [row];
        row := [];
      }
      i := i + 1;
    }
    assert buttons[..i] == buttons;
  }

  /** The inline keyboard of a song list: its song buttons, two to a row. */
  method BuildKeyboard(style: KeyboardStyle, songs: seq<Song>) returns (keyboard: seq<seq<Button>>)
    ensures Flatten(keyboard) == SongButtons(style, songs)
    ensures |keyboard| == (|songs| + 1) / 2
    ensures PairedRows(keyboard)
  {
    keyboard := PairUp(SongButtons(style, songs));
  }

  // ---------------------------------------------------------------------------
  // HandleCallback
  // ---------------------------------------------------------------------------

  /** What the callback data asks for. */
  datatype CallbackAction = Play(id: nat) | AddFavorite(id: nat) | RemoveFavorite(id: nat) | BadId | UnknownAction

  /**
   * The callback parse: "play_" first, then "fav_", then "unfav_"; the ID must be a
   * 32-bit unsigned decimal. For both favourite kinds "fav_" and then "unfav_" are
   * stripped, whichever prefix was matched.
   */
  function ParseCallback(data: string): (a: CallbackAction)
    ensures HasPrefix(data, "play_") ==>
      var id := ParseUint32(TrimPrefix(data, "play_"));
      a == if id.Some? then Play(id.value) else BadId
    ensures !HasPrefix(data, "play_") && HasPrefix(data, "fav_") ==>
      var id := ParseUint32(TrimPrefix(TrimPrefix(data, "fav_"), "unfav_"));
      a == if id.Some? then AddFavorite(id.value) else BadId
    ensures !HasPrefix(data, "play_") && !HasPrefix(data, "fav_") && HasPrefix(data, "unfav_") ==>
      var id := ParseUint32(data[6..]);
      a == if id.Some? then RemoveFavorite(id.value) else BadId
    ensures a == UnknownAction <==>
      !HasPrefix(data, "play_") && !HasPrefix(data, "fav_") && !HasPrefix(data, "unfav_")
  {
    if HasPrefix(data, "play_") then
      var id := ParseUint32(TrimPrefix(data, "play_"));
      if id.Some? then Play(id.value) else BadId
    else if HasPrefix(data, "fav_") || HasPrefix(data, "unfav_") then
      var id := ParseUint32(TrimPrefix(TrimPrefix(data, "fav_"), "unfav_"));
      if id.None? then BadId
      else if HasPrefix(data, "fav_") then AddFavorite(id.value)
      else RemoveFavorite(id.value)
    else UnknownAction
  }

  /** Every button the bot sends parses back to the song it was made for. */
  lemma CallbackRoundTrip(songId: nat)
    requires songId <= MaxUint32
    ensures ParseCallback(PlayData(songId)) == Play(songId)
    ensures ParseCallback(Ingestion.FavCallback(songId)) == AddFavorite(songId)
    ensures ParseCallback(UnfavData(songId)) == RemoveFavorite(songId)
  {
    ParseUint32OfDecimal(songId);
    PlayRoundTrip(songId);
    FavRoundTrip(songId);
    UnfavRoundTrip(songId);
  }

  lemma PlayRoundTrip(songId: nat)
    requires ParseUint32(NatToDecimal(songId)) == Some(songId)
    ensures ParseCallback(PlayData(songId)) == Play(songId)
  {
    var d := NatToDecimal(songId);
    var data := PlayData(songId);
    assert data == "play_" + d;
    assert data[..5] == "play_" && data[5..] == d;
  }

  lemma FavRoundTrip(songId: nat)
    requires ParseUint32(NatToDecimal(songId)) == Some(songId)
    ensures ParseCallback(Ingestion.FavCallback(songId)) == AddFavorite(songId)
  {
    var d := NatToDecimal(songId);
    var data := Ingestion.FavCallback(songId);
    assert data == "fav_" + d;
    assert data[0] == 'f';
    PrefixFirstChar(data, "play_");
    assert data[..4] == "fav_" && data[4..] == d;
    assert IsDigit(d[0]);
    PrefixFirstChar(d, "unfav_");
  }

  lemma UnfavRoundTrip(songId: nat)
    requires ParseUint32(NatToDecimal(songId)) == Some(songId)
    ensures ParseCallback(UnfavData(songId)) == RemoveFavorite(songId)
  {
    var d := NatToDecimal(songId);
    var data := UnfavData(songId);
    assert data == "unfav_" + d;
    assert data[0] == 'u';
    PrefixFirstChar(data, "play_");
    PrefixFirstChar(data, "fav_");
    assert data[..6] == "unfav_" && data[6..] == d;
  }

  /** Because both prefixes are stripped, "fav_unfav_<id>" adds that song to the favourites. */
  lemma DoublePrefixStillFavorites(songId: nat)
    requires songId <= MaxUint32
    ensures ParseCallback("fav_unfav_" + NatToDecimal(songId)) == AddFavorite(songId)
  {
    var d := NatToDecimal(songId);
    var data := "fav_unfav_" + d;
    ParseUint32OfDecimal(songId);
    assert !HasPrefix(data, "play_") by { assert data[0] == 'f'; }
    assert TrimPrefix(data, "fav_") == "unfav_" + d;
    assert TrimPrefix("unfav_" + d, "unfav_") == d;
  }

  /** The answer of HandleCallback. */
  datatype CallbackOutcome =
    | UserMissing   // "用户不存在"
    | UnknownOp     // "未知操作"
    | InvalidId     // "无效的歌曲ID"
    | SongMissing   // "歌曲不存在"
    | SendFailed    // "发送失败"
    | Played        // "播放成功"
    | Favorited     // "已收藏"
    | Unfavorited   // "已取消收藏"

  /** answerCallback's show-alert flag: failures are answered with an alert, successes with a plain notice. */
  predicate ShowsAlert(o: CallbackOutcome) {
    !(o.Played? || o.Favorited? || o.Unfavorited?)
  }

  /** The audio message sendSong sends: the file, its title and performer, and one button. */
  datatype AudioMessage = AudioMessage(fileId: string, title: string, performer: string, button: Button)

  // ---------------------------------------------------------------------------
  // cmdCookies
  // ---------------------------------------------------------------------------

  /** The lines of the cookie file before the value. */
  const CookieFilePrefix: string :=
    "# Netscape HTTP Cookie File\n# Auto-generated by Fish Music Bot\n\n.youtube.com\tTRUE\t/\tTRUE\t0\t__Secure-3PSID\t"

  /** The written cookie file: the fixed header and one __Secure-3PSID line with the value. */
  function CookieFile(value: string): (content: string)
    ensures HasPrefix(content, CookieFilePrefix) && HasSuffix(content, value + "\n")
    ensures |content| == |CookieFilePrefix| + |value| + 1
  {
    var content := CookieFilePrefix + value + "\n";
    assert content[..|CookieFilePrefix|] == CookieFilePrefix;
    assert content[|content| - |value + "\n"|..] == value + "\n";
    content
  }

  /** The value can be read back from the file between the header and the final newline. */
  lemma CookieFileRoundTrip(value: string)
    ensures CookieFile(value)[|CookieFilePrefix|..|CookieFile(value)| - 1] == value
  {
    var content := CookieFile(value);
    assert content == CookieFilePrefix + value + "\n";
  }

  datatype CookiesOutcome =
    | NotAdmin                       // "此命令仅管理员可用"
    | CookiesHelp                    // the usage text
    | EmptyValue                     // "Cookie 值不能为空"
    | TooShort                       // "格式不正确（太短）"
    | WriteFailed(content: string)   // the write of the file failed
    | Saved(content: string)         // the file was written

  /** The minimum length of a cookie value, in bytes. */
  const MinCookieBytes := 50

  /**
   * cmdCookies, in order: only the admin; no arguments shows the usage; a blank value
   * and a value of fewer than 50 UTF-8 bytes are refused; otherwise the cookie file is
   * written, `writeOk` being whether the write succeeds.
   */
  function CmdCookies(fromId: Int64, adminId: Int64, args: string, writeOk: bool): (r: CookiesOutcome)
    ensures r == NotAdmin <==> fromId != adminId
    ensures r == CookiesHelp <==> fromId == adminId && args == ""
    ensures r == EmptyValue <==> fromId == adminId && args != "" && TrimSpace(args) == ""
    ensures r == TooShort <==>
      fromId == adminId && args != "" && TrimSpace(args) != "" && |Utf8Encode(TrimSpace(args))| < MinCookieBytes
    ensures r.Saved? || r.WriteFailed? ==>
      r.content == CookieFile(TrimSpace(args)) && |Utf8Encode(TrimSpace(args))| >= MinCookieBytes &&
      (r.Saved? <==> writeOk)
  {
    if fromId != adminId then NotAdmin
    else if args == "" then CookiesHelp
    else
      var value := TrimSpace(args);
      if value == "" then EmptyValue
      else if |Utf8Encode(value)| < MinCookieBytes then TooShort
      else if writeOk then Saved(CookieFile(value))
      else WriteFailed(CookieFile(value))
  }

  /** A value of 50 runes or more always passes the length check, whatever its script. */
  lemma LongValuePassesLengthCheck(fromId: Int64, args: string, writeOk: bool)
    requires args != "" && |TrimSpace(args)| >= MinCookieBytes
    ensures CmdCookies(fromId, fromId, args, writeOk) == if writeOk then Saved(CookieFile(TrimSpace(args)))
                                                         else WriteFailed(CookieFile(TrimSpace(args)))
  {
  }

  /** An ASCII value is measured in characters: fewer than 50 of them are refused. */
  lemma ShortAsciiValueRefused(fromId: Int64, args: string, writeOk: bool)
    requires args != "" && TrimSpace(args) != "" && |TrimSpace(args)| < MinCookieBytes
    requires forall i :: 0 <= i < |TrimSpace(args)| ==> TrimSpace(args)[i] as int < 0x80
    ensures CmdCookies(fromId, fromId, args, writeOk) == TooShort
  {
    Utf8LengthAscii(TrimSpace(args));
  }

  // ---------------------------------------------------------------------------
  // BotHandler
  // ---------------------------------------------------------------------------

  /** A private message: its text, its command name when it is a command, and the arguments. */
  datatype Message = Message(fromId: Int64, username: string, firstName: string, lastName: string,
                             text: string, command: Option<string>, arguments: string)

  /** What HandlePrivateMessage routes a message to. */
  datatype Dispatch =
    | CommandRoute(command: Command)
    | CookiesRoute(outcome: CookiesOutcome)
    | SearchRoute(reply: SearchReply)

  class BotHandler {
    const adminId: Int64
    const songRepo: SongRepository
    const userRepo: UserRepository
    const favoriteRepo: FavoriteRepository
    const historyRepo: HistoryRepository

    predicate Valid()
      reads songRepo, userRepo, favoriteRepo, historyRepo
    {
      songRepo.Valid() && userRepo.Valid() && favoriteRepo.Valid() && historyRepo.Valid()
    }

    constructor(adminId: Int64, songRepo: SongRepository, userRepo: UserRepository,
                favoriteRepo: FavoriteRepository, historyRepo: HistoryRepository)
      ensures this.adminId == adminId && this.songRepo == songRepo && this.userRepo == userRepo
      ensures this.favoriteRepo == favoriteRepo && this.historyRepo == historyRepo
    {
      this.adminId := adminId;
      this.songRepo := songRepo;
      this.userRepo := userRepo;
      this.favoriteRepo := favoriteRepo;
      this.historyRepo := historyRepo;
    }

    /**
     * handleSearch: blank text is ignored; a text starting with "http://" or "https://"
     * is a link (handleURL: the sender's user row, then the platform test); anything
     * else is a catalog search for the first ten matches.
     */
    function HandleSearch(text: string, fromId: Int64): (r: SearchReply)
      reads songRepo, userRepo
      ensures r == Ignored <==> TrimSpace(text) == ""
      ensures r.LookupFailed? || r.StartDownload? || r.Unsupported? <==>
        TrimSpace(text) != "" && IsLink(TrimSpace(text))
      ensures r.LookupFailed? <==>
        TrimSpace(text) != "" && IsLink(TrimSpace(text)) && userRepo.FindByTelegramID(fromId).Failure?
      ensures r.StartDownload? ==> r.url == TrimSpace(text) && IsSupportedVideoPlatform(r.url)
      ensures r.Unsupported? ==> r.url == TrimSpace(text) && !IsSupportedVideoPlatform(r.url)
      ensures r.Results? ==> r.songs == songRepo.Search(TrimSpace(text), SearchLimit) && r.songs != []
      ensures r.NoResults? ==> r.keyword == TrimSpace(text) && songRepo.Search(TrimSpace(text), SearchLimit) == []
    {
      var keyword := TrimSpace(text);
      if keyword == "" then Ignored
      else if IsLink(keyword) then
        if userRepo.FindByTelegramID(fromId).Failure? then LookupFailed
        else if IsSupportedVideoPlatform(keyword) then StartDownload(keyword)
        else Unsupported(keyword)
      else
        var songs := songRepo.Search(keyword, SearchLimit);
        if |songs| > 0 then Results(songs) else NoResults(keyword)
    }

    /**
     * A listed result is an active catalog row matching the keyword, at most ten are
     * listed, and when fewer than ten are listed no active match is missing.
     */
    lemma SearchResultsAreActiveMatches(text: string, fromId: Int64)
      requires HandleSearch(text, fromId).Results?
      ensures var songs := HandleSearch(text, fromId).songs;
        |songs| <= SearchLimit &&
        (forall x :: x in songs ==> x in songRepo.rows && x.status == Active && SearchMatch(x, TrimSpace(text))) &&
        (|songs| < SearchLimit ==> forall x :: x in songRepo.rows && SearchMatch(x, TrimSpace(text)) ==> x in songs)
    {
    }

    /**
     * HandlePrivateMessage: the sender's user row is found or created first; then a
     * command is dispatched by name (the cookie command with its arguments) and any other
     * text goes to handleSearch. Since the row exists by then, a link never fails on the
     * user lookup.
     */
    method HandlePrivateMessage(m: Message, writeOk: bool) returns (d: Dispatch)
      requires Valid()
      modifies userRepo
      ensures Valid()
      ensures userRepo.FindByTelegramID(m.fromId).Success?
      ensures old(userRepo.FindByTelegramID(m.fromId)).Success? ==> userRepo.rows == old(userRepo.rows)
      ensures old(userRepo.FindByTelegramID(m.fromId)).Failure? ==>
        userRepo.rows == old(userRepo.rows) +
          [User(old(userRepo.nextId), m.fromId, m.username, m.firstName, m.lastName, "zh", false, true)]
      ensures m.command.Some? && CommandFor(m.command.value) == Cookies ==>
        d == CookiesRoute(CmdCookies(m.fromId, adminId, m.arguments, writeOk))
      ensures m.command.Some? && CommandFor(m.command.value) != Cookies ==>
        d == CommandRoute(CommandFor(m.command.value))
      ensures m.command.None? ==> d == SearchRoute(HandleSearch(m.text, m.fromId))
      ensures d != SearchRoute(LookupFailed)
    {
      var user := userRepo.FindOrCreate(m.fromId, m.username, m.firstName, m.lastName);
      if m.command.Some? {
        var command := CommandFor(m.command.value);
        if command == Cookies {
          d := CookiesRoute(CmdCookies(m.fromId, adminId, m.arguments, writeOk));
        } else {
          d := CommandRoute(command);
        }
      } else {
        d := SearchRoute(HandleSearch(m.text, m.fromId));
      }
    }

    /**
     * sendSong: the audio goes out with an "unfavourite" button when the user already has
     * the song among the favourites, else a "favourite" button. `sendErr` is the send's
     * error text, if any. On success one play is recorded; on an error naming a dead
     * file the row is flagged missing; nothing else changes.
     */
    method SendSong(song: Song, user: User, sendErr: Option<string>) returns (audio: AudioMessage)
      requires Valid()
      modifies songRepo, historyRepo
      ensures Valid()
      ensures audio == AudioMessage(song.fileId, song.title, song.artist,
                                    FavoriteButton(song.id, favoriteRepo.IsFavorited(user.id, song.id)))
      ensures sendErr.None? ==>
        songRepo.rows == old(songRepo.rows) &&
        historyRepo.rows == old(historyRepo.rows) + [History(old(historyRepo.nextId), user.id, song.id)]
      ensures sendErr.Some? ==> historyRepo.rows == old(historyRepo.rows)
      ensures sendErr.Some? && StaleFileError(sendErr.value) ==>
        MarkedMissing(old(songRepo.rows), songRepo.rows, song.id)
      ensures sendErr.Some? && !StaleFileError(sendErr.value) ==> songRepo.rows == old(songRepo.rows)
    {
      var favorited := favoriteRepo.IsFavorited(user.id, song.id);
      audio := AudioMessage(song.fileId, song.title, song.artist, FavoriteButton(song.id, favorited));
      if sendErr.Some? {
        if StaleFileError(sendErr.value) {
          songRepo.MarkMissing(song.id);
        }
        return;
      }
      historyRepo.Add(user.id, song.id);
    }

    /**
     * What callbackPlay does to the catalog and the history: a missing song changes
     * nothing; otherwise the answer says whether the send went out, a sent song gets one
     * history row, and a send error naming a dead file flags the row missing.
     */
    twostate predicate PlayEffect(user: User, id: nat, sendErr: Option<string>, o: CallbackOutcome)
      reads songRepo, historyRepo
    {
      (old(songRepo.GetById(id)).Failure? ==>
         o == SongMissing && songRepo.rows == old(songRepo.rows) && historyRepo.rows == old(historyRepo.rows)) &&
      (old(songRepo.GetById(id)).Success? ==>
         var song := old(songRepo.GetById(id)).value;
         o == (if sendErr.None? then Played else SendFailed) &&
         (sendErr.None? ==>
            songRepo.rows == old(songRepo.rows) &&
            historyRepo.rows == old(historyRepo.rows) + [History(old(historyRepo.nextId), user.id, song.id)]) &&
         (sendErr.Some? ==> historyRepo.rows == old(historyRepo.rows)) &&
         (sendErr.Some? && StaleFileError(sendErr.value) ==> MarkedMissing(old(songRepo.rows), songRepo.rows, id)) &&
         (sendErr.Some? && !StaleFileError(sendErr.value) ==> songRepo.rows == old(songRepo.rows)))
    }

    /** callbackPlay: the song must exist; then it is sent, and the answer says whether it went out. */
    method CallbackPlay(user: User, id: nat, sendErr: Option<string>) returns (o: CallbackOutcome)
      requires Valid()
      modifies songRepo, historyRepo
      ensures Valid()
      ensures PlayEffect(user, id, sendErr, o)
    {
      var found := songRepo.GetById(id);
      if found.Failure? {
        return SongMissing;
      }
      var audio := SendSong(found.value, user, sendErr);
      o := if sendErr.None? then Played else SendFailed;
    }

    /**
     * HandleCallback once the sender's user row is found: the action the data names. A
     * favourite always appends a row, an unfavourite removes every row of the pair.
     */
    method RunAction(user: User, action: CallbackAction, sendErr: Option<string>)
      returns (o: CallbackOutcome, alert: bool)
      requires Valid()
      modifies songRepo, favoriteRepo, historyRepo
      ensures Valid()
      ensures alert == ShowsAlert(o)
      ensures !action.Play? ==> songRepo.rows == old(songRepo.rows) && historyRepo.rows == old(historyRepo.rows)
      ensures !(action.AddFavorite? || action.RemoveFavorite?) ==> favoriteRepo.rows == old(favoriteRepo.rows)
      ensures match action
        case UnknownAction => o == UnknownOp
        case BadId => o == InvalidId
        case Play(id) => PlayEffect(user, id, sendErr, o)
        case AddFavorite(id) =>
          o == Favorited &&
          favoriteRepo.rows == old(favoriteRepo.rows) + [Favorite(old(favoriteRepo.nextId), user.id, id)]
        case RemoveFavorite(id) =>
          o == Unfavorited && favoriteRepo.rows == WithoutPair(old(favoriteRepo.rows), user.id, id)
    {
      match action
      case UnknownAction =>
        o, alert := UnknownOp, true;
      case BadId =>
        o, alert := InvalidId, true;
      case Play(id) =>
        o := CallbackPlay(user, id, sendErr);
        alert := o != Played;
      case AddFavorite(id) =>
        favoriteRepo.Add(user.id, id);
        o, alert := Favorited, false;
      case RemoveFavorite(id) =>
        favoriteRepo.Remove(user.id, id);
        o, alert := Unfavorited, false;
    }

    /** HandleCallback: an unknown sender is answered first, with an alert; then RunAction. */
    method HandleCallback(fromId: Int64, data: string, sendErr: Option<string>)
      returns (o: CallbackOutcome, alert: bool)
      requires Valid()
      modifies songRepo, favoriteRepo, historyRepo
      ensures Valid()
      ensures alert == ShowsAlert(o)
      ensures userRepo.FindByTelegramID(fromId).Failure? ==>
        o == UserMissing &&
        songRepo.rows == old(songRepo.rows) && historyRepo.rows == old(historyRepo.rows) &&
        favoriteRepo.rows == old(favoriteRepo.rows)
      ensures userRepo.FindByTelegramID(fromId).Success? ==>
        var user := userRepo.FindByTelegramID(fromId).value;
        var action := ParseCallback(data);
        (!action.Play? ==> songRepo.rows == old(songRepo.rows) && historyRepo.rows == old(historyRepo.rows)) &&
        (!(action.AddFavorite? || action.RemoveFavorite?) ==> favoriteRepo.rows == old(favoriteRepo.rows)) &&
        match action
        case UnknownAction => o == UnknownOp
        case BadId => o == InvalidId
        case Play(id) => PlayEffect(user, id, sendErr, o)
        case AddFavorite(id) =>
          o == Favorited &&
          favoriteRepo.rows == old(favoriteRepo.rows) + [Favorite(old(favoriteRepo.nextId), user.id, id)]
        case RemoveFavorite(id) =>
          o == Unfavorited && favoriteRepo.rows == WithoutPair(old(favoriteRepo.rows), user.id, id)
    {
      var found := userRepo.FindByTelegramID(fromId);
      if found.Failure? {
        return UserMissing, true;
      }
      o, alert := RunAction(found.value, ParseCallback(data), sendErr);
    }
  }
}
