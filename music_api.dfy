/**
 * The helpers of pkg/api/music.go: region detection from the Unicode blocks of an
 * artist's name, lyric truncation and the time-stamped song hash.
 */
module MusicApi {
  import opened Text

  predicate IsHan(c: char) { '\U{4E00}' <= c <= '\U{9FFF}' }
  predicate IsHangul(c: char) { '\U{AC00}' <= c <= '\U{D7A3}' }
  predicate IsHiragana(c: char) { '\U{3040}' <= c <= '\U{309F}' }
  predicate IsKatakana(c: char) { '\U{30A0}' <= c <= '\U{30FF}' }

  /** The blocks containsCJK looks for: Han ideographs, Hangul syllables and Hiragana. */
  predicate IsCJKRune(c: char) { IsHan(c) || IsHangul(c) || IsHiragana(c) }

  /** containsCJK: some rune is a Han ideograph, a Hangul syllable or Hiragana. */
  function ContainsCJK(s: string): (r: bool)
    ensures r <==> exists i :: 0 <= i < |s| && IsCJKRune(s[i])
  {
    if s == [] then false
    else if IsCJKRune(s[0]) then true
    else
      assert forall i :: 1 <= i < |s| ==> s[i] == s[1..][i - 1];
      ContainsCJK(s[1..])
  }

  /** containsJapanese: some rune is Hiragana or Katakana. */
  function ContainsJapanese(s: string): (r: bool)
    ensures r <==> exists i :: 0 <= i < |s| && (IsHiragana(s[i]) || IsKatakana(s[i]))
  {
    if s == [] then false
    else if IsHiragana(s[0]) || IsKatakana(s[0]) then true
    else
      assert forall i :: 1 <= i < |s| ==> s[i] == s[1..][i - 1];
      ContainsJapanese(s[1..])
  }

  /** containsKorean: some rune is a Hangul syllable. */
  function ContainsKorean(s: string): (r: bool)
    ensures r <==> exists i :: 0 <= i < |s| && IsHangul(s[i])
  {
    if s == [] then false
    else if IsHangul(s[0]) then true
    else
      assert forall i :: 1 <= i < |s| ==> s[i] == s[1..][i - 1];
      ContainsKorean(s[1..])
  }

  predicate IsRegion(r: string) { r == "JP" || r == "KR" || r == "CN" || r == "US" }

  /**
   * detectRegionFromArtistName: "US" unless the name has a Han, Hangul or Hiragana rune;
   * then "JP" if it has any kana, else "KR" if it has Hangul, else "CN".
   */
  function DetectRegionFromArtistName(name: string): (r: string)
    ensures IsRegion(r)
    ensures r == "US" <==> !ContainsCJK(name)
    ensures r == "JP" <==> ContainsCJK(name) && ContainsJapanese(name)
    ensures r == "KR" <==> ContainsCJK(name) && !ContainsJapanese(name) && ContainsKorean(name)
    ensures r == "CN" <==> ContainsCJK(name) && !ContainsJapanese(name) && !ContainsKorean(name)
  {
    if ContainsCJK(name) then
      if ContainsJapanese(name) then "JP"
      else if ContainsKorean(name) then "KR"
      else "CN"
    else "US"
  }

  /** Any Hiragana rune makes the name Japanese, whatever else it contains. */
  lemma HiraganaMeansJapan(name: string, i: int)
    requires 0 <= i < |name| && IsHiragana(name[i])
    ensures DetectRegionFromArtistName(name) == "JP"
  {
  }

  /**
   * Katakana alone does not count: a name whose only Asian runes are Katakana is
   * classified "US", because the Japanese test is reached only through containsCJK.
   */
  lemma KatakanaOnlyIsUS(name: string)
    requires forall i :: 0 <= i < |name| ==> !IsCJKRune(name[i])
    ensures DetectRegionFromArtistName(name) == "US"
  {
  }

  /** Katakana next to a Han ideograph does make the name Japanese (JP before CN). */
  lemma KatakanaWithHanIsJapan(name: string, i: int, j: int)
    requires 0 <= i < |name| && IsKatakana(name[i])
    requires 0 <= j < |name| && IsHan(name[j])
    ensures DetectRegionFromArtistName(name) == "JP"
  {
  }

  /** Hangul without any kana is Korean, even next to Han ideographs (KR before CN). */
  lemma HangulWithoutKanaIsKorea(name: string, i: int)
    requires 0 <= i < |name| && IsHangul(name[i])
    requires forall j :: 0 <= j < |name| ==> !IsHiragana(name[j]) && !IsKatakana(name[j])
    ensures DetectRegionFromArtistName(name) == "KR"
  {
  }

  /** detectCountryCode: the region detected from the artist name, nothing else. */
  function DetectCountryCode(artist: string): (r: string)
    ensures IsRegion(r)
    ensures r == DetectRegionFromArtistName(artist)
  {
    DetectRegionFromArtistName(artist)
  }

  /** The notice appended to truncated lyrics, "\n\n... (歌词过长，已截断)", as UTF-8 bytes. */
  const TruncationNotice: seq<Byte> := [
    0x0A, 0x0A, 0x2E, 0x2E, 0x2E, 0x20, 0x28, 0xE6, 0xAD, 0x8C, 0xE8, 0xAF, 0x8D, 0xE8, 0xBF, 0x87,
    0xE9, 0x95, 0xBF, 0xEF, 0xBC, 0x8C, 0xE5, 0xB7, 0xB2, 0xE6, 0x88, 0xAA, 0xE6, 0x96, 0xAD, 0x29]

  /**
   * FormatLyrics on the bytes of the lyrics: unchanged when they fit in `maxLength`
   * bytes; otherwise the first `maxLength` bytes (which may end inside a rune) with the
   * white space at both ends dropped, followed by the notice. A negative `maxLength`
   * makes the Go slice expression panic.
   */
  function FormatLyrics(lyrics: seq<Byte>, maxLength: int): (r: seq<Byte>)
    requires maxLength >= 0
    ensures |lyrics| <= maxLength ==> r == lyrics
    ensures |lyrics| > maxLength ==>
      |TruncationNotice| <= |r| <= maxLength + |TruncationNotice| &&
      r[|r| - |TruncationNotice|..] == TruncationNotice
    ensures |lyrics| > maxLength ==>
      var kept := r[..|r| - |TruncationNotice|];
      var a := LeadingSpaceBytes(lyrics[..maxLength]);
      a + |kept| <= maxLength && kept == lyrics[a..a + |kept|] &&
      (kept == [] || (!IsAsciiSpaceByte(kept[0]) && !IsAsciiSpaceByte(kept[|kept| - 1]))) &&
      forall i :: a + |kept| <= i < maxLength ==> IsAsciiSpaceByte(lyrics[i])
  {
    if |lyrics| <= maxLength then lyrics
    else
      var kept := TrimSpaceBytes(lyrics[..maxLength]);
      var r := kept + TruncationNotice;
      assert r[..|kept|] == kept && r[|kept|..] == TruncationNotice;
      r
  }

  /**
   * GenerateUniqueHash: the Unix time in seconds, the title and the artist joined by
   * "_". The URL argument is not used.
   */
  function GenerateUniqueHash(url: string, title: string, artist: string, unixSeconds: Int64): (r: string)
    ensures HasSuffix(r, "_" + title + "_" + artist)
    ensures |r| == |IntToDecimal(unixSeconds)| + 2 + |title| + |artist|
  {
    var h := IntToDecimal(unixSeconds) + "_" + title + "_" + artist;
    assert h[|h| - |"_" + title + "_" + artist|..] == "_" + title + "_" + artist;
    h
  }

  /** Two calls that differ only in the URL give the same hash. */
  lemma UniqueHashIgnoresUrl(u1: string, u2: string, title: string, artist: string, t: Int64)
    ensures GenerateUniqueHash(u1, title, artist, t) == GenerateUniqueHash(u2, title, artist, t)
  {
  }

  /**
   * The text before the first "_" reads back as the time stamp, so hashes made at
   * different seconds always differ.
   */
  lemma UniqueHashTimestamp(url: string, title: string, artist: string, t: Int64)
    ensures var h := GenerateUniqueHash(url, title, artist, t);
      Index(h, "_") == |IntToDecimal(t)| && Atoi(h[..Index(h, "_")]) == t
  {
    var h := GenerateUniqueHash(url, title, artist, t);
    var d := IntToDecimal(t);
    var k := |d|;
    assert h[..k] == d;
    assert OccursAt(h, "_", k);
    forall i | 0 <= i < k
      ensures !OccursAt(h, "_", i)
    {
      assert h[i] == d[i];
      if t >= 0 {
        assert IsDigit(NatToDecimal(t)[i]);
      } else if i > 0 {
        assert d[i] == NatToDecimal(-(t as int))[i - 1];
      }
    }
    AtoiOfDecimal(t);
  }

  /** Hashes made at different seconds differ, whatever the titles and artists. */
  lemma UniqueHashSecondsDiffer(u1: string, t1: string, a1: string, s1: Int64,
                                u2: string, t2: string, a2: string, s2: Int64)
    requires s1 != s2
    ensures GenerateUniqueHash(u1, t1, a1, s1) != GenerateUniqueHash(u2, t2, a2, s2)
  {
    UniqueHashTimestamp(u1, t1, a1, s1);
    UniqueHashTimestamp(u2, t2, a2, s2);
  }
}
