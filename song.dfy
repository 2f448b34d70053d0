/**
 * The song record of internal/model/song.go and its presentation helpers: the country
 * flag, the year, genre and language texts, and the language-to-country update that the
 * admin API applies when a song's language is edited.
 */
module SongModel {
  import opened Text

  /**
   * One row of the `songs` table. `id` is the primary key the database assigns;
   * `uniqueHash` carries the unique index. The created/updated timestamps are not kept:
   * rows are stored in the order they were created.
   */
  datatype Song = Song(
    id: nat,
    uniqueHash: string,
    fileId: string,
    sourceUrl: string,
    title: string,
    artist: string,
    album: string,
    duration: int,
    fileSize: int,
    countryCode: string,
    year: int,
    coverUrl: string,
    lyrics: string,
    genre: string,
    language: string,
    isMissing: bool,
    status: string)

  const Active := "active"
  const MissingStatus := "missing"

  const GlobeEmoji := "🌍"

  /** The flag shown for each known country code. */
  const CountryFlags: map<string, string> := map[
    "CN" := "🇨🇳", "JP" := "🇯🇵", "US" := "🇺🇸", "UK" := "🇬🇧", "KR" := "🇰🇷",
    "DE" := "🇩🇪", "FR" := "🇫🇷", "IT" := "🇮🇹", "ES" := "🇪🇸", "RU" := "🇷🇺",
    "CA" := "🇨🇦", "AU" := "🇦🇺", "BR" := "🇧🇷", "MX" := "🇲🇽", "IN" := "🇮🇳",
    "TW" := "🇹🇼", "HK" := "🇭🇰", "SG" := "🇸🇬", "MY" := "🇲🇾", "TH" := "🇹🇭",
    "VN" := "🇻🇳", "ID" := "🇮🇩", "PH" := "🇵🇭"]

  /** The language a song is tagged with, mapped to a country code (keys match exactly). */
  const LangToCountry: map<string, string> := map[
    "华语" := "CN", "英语" := "US", "日语" := "JP", "韩语" := "KR", "法语" := "FR",
    "德语" := "DE", "西班牙语" := "ES", "俄语" := "RU", "意大利语" := "IT",
    "葡萄牙语" := "BR", "泰语" := "TH", "越南语" := "VN", "印尼语" := "ID",
    "马来语" := "MY", " Hindi" := "IN", "Tagalog" := "PH", "其他" := "US"]

  /**
   * A flag emoji is the pair of Unicode regional indicator symbols that spell an
   * ISO 3166 two-letter code.
   */
  function RegionalIndicators(code: string): string
    requires |code| == 2 && 'A' <= code[0] <= 'Z' && 'A' <= code[1] <= 'Z'
  {
    [(0x1F1E6 + (code[0] as int - 'A' as int)) as char, (0x1F1E6 + (code[1] as int - 'A' as int)) as char]
  }

  /** The country flag of a song, or the globe when its code is not one of the 23 known. */
  function GetCountryEmoji(s: Song): (r: string)
    ensures r == GlobeEmoji <==> s.countryCode !in CountryFlags
    ensures s.countryCode in CountryFlags ==> r == CountryFlags[s.countryCode]
  {
    if s.countryCode in CountryFlags then CountryFlags[s.countryCode] else GlobeEmoji
  }

  /**
   * Every known code shows the flag its own letters spell, except "UK", which shows the
   * flag of "GB" (the ISO code of the United Kingdom).
   */
  lemma FlagSpellsCode(code: string)
    requires code in CountryFlags
    ensures |code| == 2 && 'A' <= code[0] <= 'Z' && 'A' <= code[1] <= 'Z'
    ensures code != "UK" ==> CountryFlags[code] == RegionalIndicators(code)
    ensures code == "UK" ==> CountryFlags[code] == RegionalIndicators("GB")
  {
  }

  /** The year followed by "年", or "未知" when the year is not positive. */
  function GetYearText(s: Song): (r: string)
    ensures s.year <= 0 ==> r == "未知"
    ensures s.year > 0 ==>
      |r| >= 2 && r[|r| - 1] == '年' && AllDigits(r[..|r| - 1]) && DigitsValue(r[..|r| - 1]) == s.year
  {
    if s.year > 0 then
      var digits := IntToDecimal(s.year);
      DecimalRoundTrip(s.year);
      assert (digits + "年")[..|digits|] == digits;
      digits + "年"
    else "未知"
  }

  /** The genre, or "未分类" when it is empty; never empty. */
  function GetGenreText(s: Song): (r: string)
    ensures r != ""
    ensures s.genre != "" ==> r == s.genre
    ensures s.genre == "" ==> r == "未分类"
  {
    if s.genre != "" then s.genre else "未分类"
  }

  /** The language, or "未知" when it is empty; never empty. */
  function GetLanguageText(s: Song): (r: string)
    ensures r != ""
    ensures s.language != "" ==> r == s.language
    ensures s.language == "" ==> r == "未知"
  {
    if s.language != "" then s.language else "未知"
  }

  /**
   * UpdateCountryCodeByLanguage: the song with its country code set from its language
   * when the language is a key of the table; otherwise the song unchanged. No other
   * field changes.
   */
  function UpdateCountryCodeByLanguage(s: Song): (r: Song)
    ensures r == s.(countryCode := r.countryCode)
    ensures s.language in LangToCountry ==> r.countryCode == LangToCountry[s.language]
    ensures s.language !in LangToCountry ==> r == s
  {
    if s.language in LangToCountry then s.(countryCode := LangToCountry[s.language]) else s
  }

  /** Applying the update twice is the same as applying it once. */
  lemma UpdateCountryCodeIdempotent(s: Song)
    ensures UpdateCountryCodeByLanguage(UpdateCountryCodeByLanguage(s)) == UpdateCountryCodeByLanguage(s)
  {
  }

  /** Every code the update can assign has a flag, so a mapped song never shows the globe. */
  lemma MappedLanguageHasFlag(s: Song)
    requires s.language in LangToCountry
    ensures GetCountryEmoji(UpdateCountryCodeByLanguage(s)) != GlobeEmoji
  {
    assert forall l :: l in LangToCountry ==> LangToCountry[l] in CountryFlags;
  }

  /** Language keys match exactly: the Hindi key carries a leading space. */
  lemma HindiKeyIsExact()
    ensures " Hindi" in LangToCountry && LangToCountry[" Hindi"] == "IN"
    ensures "Hindi" !in LangToCountry
  {
  }
}
