/** The decoded album record (`bandcampTRAlbum`) and the names derived from it:
    the art URLs, the album directory, the track file paths and the tag values. */
module Album {
  import opened Common
  import Sanitizer

  /** One entry of `trackinfo`; `url` is `file["mp3-128"]`. */
  datatype Track = Track(title: string, trackNum: int, url: string)

  /** The `current` object of the record. */
  datatype Current = Current(title: string, artId: int)

  /** The decoded record. `year` stands for the release date as the program uses it,
      its local-time year `ReleaseDate.Local().Format("2006")`. */
  datatype TrAlbum = TrAlbum(
    artist: string,
    current: Current,
    itemType: string,
    freeDownloadPage: string,
    year: string,
    trackinfo: seq<Track>)

  // ---------------------------------------------------------------------------
  // Decimal text, as printed by `%d` and `%02d`

  predicate IsDigit(c: char)
  {
    '0' <= c <= '9'
  }

  function Digit(d: nat): (c: char)
    requires d < 10
    ensures IsDigit(c)
  {
    (d + 48) as char
  }

  function DigitValue(c: char): int
  {
    c as int - 48
  }

  /** Decimal digits of a natural number, without leading zeros. */
  function NatDecimal(n: nat): (s: string)
    ensures |s| >= 1
  {
    if n < 10 then [Digit(n)] else NatDecimal(n / 10) + [Digit(n % 10)]
  }

  /** The text of a natural number is all digits. */
  lemma {:induction false} NatDecimalDigits(n: nat)
    ensures forall i :: 0 <= i < |NatDecimal(n)| ==> IsDigit(NatDecimal(n)[i])
  {
    if n >= 10 {
      NatDecimalDigits(n / 10);
    }
  }

  /** The text of a natural number starts with `0` only for zero itself. */
  lemma {:induction false} NatDecimalNoLeadingZero(n: nat)
    ensures NatDecimal(n)[0] == '0' <==> n == 0
  {
    if n >= 10 {
      NatDecimalNoLeadingZero(n / 10);
      assert NatDecimal(n)[0] == NatDecimal(n / 10)[0];
    }
  }

  /** `fmt.Sprintf("%d", n)`. */
  function Decimal(n: int): string
  {
    if n < 0 then "-" + NatDecimal(-n) else NatDecimal(n)
  }

  /** `fmt.Sprintf("%02d", n)`: zero-padded to a width of two; the sign counts in
      the width, so a negative number is never padded. */
  function Pad2(n: int): string
  {
    if 0 <= n < 10 then "0" + Decimal(n) else Decimal(n)
  }

  /** Reads decimal digits back (leading zeros allowed). */
  function ParseNat(s: string): int
  {
    if s == [] then 0 else ParseNat(s[..|s| - 1]) * 10 + DigitValue(s[|s| - 1])
  }

  /** Reads an optionally signed decimal number back. */
  function ParseDecimal(s: string): int
  {
    if |s| > 0 && s[0] == '-' then -ParseNat(s[1..]) else ParseNat(s)
  }

  lemma {:induction false} NatDecimalRoundTrip(n: nat)
    ensures ParseNat(NatDecimal(n)) == n
  {
    if n >= 10 {
      NatDecimalRoundTrip(n / 10);
      var s := NatDecimal(n);
      assert s[..|s| - 1] == NatDecimal(n / 10);
    }
  }

  /** The `%d` text reads back as the number it prints; it is all digits after a
      minus sign for a negative number, and it has no leading zero. */
  lemma DecimalRoundTrip(n: int)
    ensures ParseDecimal(Decimal(n)) == n
    ensures |Decimal(n)| >= 1
    ensures forall i :: 0 <= i < |Decimal(n)| ==> IsDigit(Decimal(n)[i]) || (i == 0 && n < 0 && Decimal(n)[i] == '-')
    ensures n >= 0 ==> (Decimal(n)[0] == '0' <==> n == 0)
    ensures n < 0 ==> |Decimal(n)| >= 2 && Decimal(n)[1] != '0'
  {
    if n < 0 {
      NatDecimalRoundTrip(-n);
      NatDecimalDigits(-n);
      NatDecimalNoLeadingZero(-n);
      assert Decimal(n)[1..] == NatDecimal(-n);
    } else {
      NatDecimalRoundTrip(n);
      NatDecimalDigits(n);
      NatDecimalNoLeadingZero(n);
    }
  }

  /** The `%02d` text is the `%d` text padded to a width of two: its length is
      the larger of two and the length of the `%d` text, it differs from the `%d`
      text at most by one leading zero, and it reads back as the number it prints. */
  lemma Pad2RoundTrip(n: int)
    ensures |Pad2(n)| >= 2
    ensures |Pad2(n)| == if |Decimal(n)| < 2 then 2 else |Decimal(n)|
    ensures Pad2(n) == Decimal(n) || Pad2(n) == "0" + Decimal(n)
    ensures ParseDecimal(Pad2(n)) == n
    ensures IsDigit(Pad2(n)[0]) || Pad2(n)[0] == '-'
  {
    DecimalRoundTrip(n);
    if 0 <= n < 10 {
      var s := Pad2(n);
      assert s == ['0', Digit(n)];
      assert s[..1] == "0" && ParseNat("0") == 0 by {
        assert "0"[..0] == [];
      }
      assert DigitValue(Digit(n)) == n;
    } else if n >= 10 {
      assert |NatDecimal(n)| >= 1;
      var s := NatDecimal(n / 10);
      assert |s| >= 1;
    } else {
      assert Decimal(n)[0] == '-';
    }
  }

  // ---------------------------------------------------------------------------
  // Album art

  const ArtPrefix: string := "https://f4.bcbits.com/img/a"
  const SmallArtSuffix: string := "_16.jpg"
  const LargeArtSuffix: string := "_0.jpg"

  /** The small art, fetched only for embedding in the tags. */
  function SmallArtUrl(artId: int): string
  {
    ArtPrefix + Decimal(artId) + SmallArtSuffix
  }

  /** The full-size art, written to `cover.jpg`. */
  function LargeArtUrl(artId: int): string
  {
    ArtPrefix + Decimal(artId) + LargeArtSuffix
  }

  /** The art id can be read back from either URL, so distinct ids give distinct
      URLs, and the small and the large URL never coincide. */
  lemma ArtUrlsDetermineId(artId: int)
    ensures ParseDecimal(SmallArtUrl(artId)[|ArtPrefix|..|SmallArtUrl(artId)| - |SmallArtSuffix|]) == artId
    ensures ParseDecimal(LargeArtUrl(artId)[|ArtPrefix|..|LargeArtUrl(artId)| - |LargeArtSuffix|]) == artId
    ensures forall other :: SmallArtUrl(artId) != LargeArtUrl(other)
  {
    DecimalRoundTrip(artId);
    var d := Decimal(artId);
    assert SmallArtUrl(artId)[|ArtPrefix|..|SmallArtUrl(artId)| - |SmallArtSuffix|] == d;
    assert LargeArtUrl(artId)[|ArtPrefix|..|LargeArtUrl(artId)| - |LargeArtSuffix|] == d;
    forall other
      ensures SmallArtUrl(artId) != LargeArtUrl(other)
    {
      var s, l := SmallArtUrl(artId), LargeArtUrl(other);
      if |s| == |l| {
        assert s[|s| - 5] == '6';
        assert l[|l| - 5] == '0';
      }
    }
  }

  lemma ArtUrlsInjective(a: int, b: int)
    ensures SmallArtUrl(a) == SmallArtUrl(b) ==> a == b
    ensures LargeArtUrl(a) == LargeArtUrl(b) ==> a == b
  {
    ArtUrlsDetermineId(a);
    ArtUrlsDetermineId(b);
  }

  // ---------------------------------------------------------------------------
  // Paths and tags

  /** `"<artist>/<title> (<year>)"`. */
  function AlbumDir(a: TrAlbum): string
  {
    a.artist + "/" + a.current.title + " (" + a.year + ")"
  }

  function CoverPath(dir: string): string
  {
    dir + "/cover.jpg"
  }

  /** `ts[i]` is the last track of `ts` with its file name. */
  predicate LastWithName(ts: seq<Track>, i: int)
  {
    0 <= i < |ts| && forall j :: i < j < |ts| ==> TrackFileName(ts[j]) != TrackFileName(ts[i])
  }

  /** `"<dir>/<%02d track number> <title>.mp3"`. */
  function TrackFileName(t: Track): string
  {
    Pad2(t.trackNum) + " " + t.title + ".mp3"
  }

  function TrackPath(dir: string, t: Track): string
  {
    dir + "/" + TrackFileName(t)
  }

  /** The text of the `TRCK` frame: the unpadded decimal track number. */
  function TrackNumberText(t: Track): string
  {
    Decimal(t.trackNum)
  }

  predicate NoSlash(s: string)
  {
    forall i :: 0 <= i < |s| ==> s[i] != '/'
  }

  /** The track file lies directly in the album directory when its title has no
      slash; its name starts with the padded number, which reads back as the track
      number, as does the TRCK text; and it is never the cover file. */
  lemma TrackPathLayout(dir: string, t: Track)
    requires NoSlash(t.title)
    ensures var p := TrackPath(dir, t);
      p[..|dir|] == dir && p[|dir|] == '/' && NoSlash(p[|dir| + 1..]) &&
      ParseDecimal(p[|dir| + 1..|dir| + 1 + |Pad2(t.trackNum)|]) == t.trackNum &&
      p[|dir| + 1 + |Pad2(t.trackNum)|] == ' '
    ensures ParseDecimal(TrackNumberText(t)) == t.trackNum
    ensures TrackPath(dir, t) != CoverPath(dir)
  {
    Pad2RoundTrip(t.trackNum);
    DecimalRoundTrip(t.trackNum);
    var p := TrackPath(dir, t);
    var pad := Pad2(t.trackNum);
    var name := TrackFileName(t);
    assert p == dir + "/" + name;
    assert p[|dir| + 1..] == name;
    assert name == pad + (" " + t.title + ".mp3");
    assert p[|dir| + 1..|dir| + 1 + |pad|] == name[..|pad|] == pad;
    forall i | 0 <= i < |name|
      ensures name[i] != '/'
    {
      if i < |pad| {
        assert name[i] == pad[i];
        if pad != Decimal(t.trackNum) && i > 0 {
          assert pad[i] == Decimal(t.trackNum)[i - 1];
        }
      } else if i == |pad| {
      } else if i < |pad| + 1 + |t.title| {
        assert name[i] == t.title[i - |pad| - 1];
      } else {
        assert name[i] == ".mp3"[i - |pad| - 1 - |t.title|];
      }
    }
    assert CoverPath(dir)[|dir| + 1] == 'c';
  }

  /** Whatever its title, a track file is never the cover file: its name starts
      with a digit or a minus sign. */
  lemma TrackIsNotCover(dir: string, t: Track)
    ensures TrackPath(dir, t) != CoverPath(dir)
  {
    Pad2RoundTrip(t.trackNum);
    assert TrackPath(dir, t)[|dir| + 1] == Pad2(t.trackNum)[0];
    assert CoverPath(dir)[|dir| + 1] == 'c';
  }

  /** The album directory is exactly two levels deep when none of the artist, the
      title and the year holds a slash. */
  lemma AlbumDirLayout(a: TrAlbum)
    requires NoSlash(a.artist) && NoSlash(a.current.title) && NoSlash(a.year)
    ensures var d := AlbumDir(a);
      d[..|a.artist|] == a.artist && d[|a.artist|] == '/' && NoSlash(d[|a.artist| + 1..])
  {
    var d := AlbumDir(a);
    assert d[..|a.artist|] == a.artist;
    var rest := d[|a.artist| + 1..];
    assert rest == a.current.title + " (" + a.year + ")";
    forall i | 0 <= i < |rest|
      ensures rest[i] != '/'
    {
      var t := |a.current.title|;
      if i < t {
        assert rest[i] == a.current.title[i];
      } else if i < t + 2 {
      } else if i < t + 2 + |a.year| {
        assert rest[i] == a.year[i - t - 2];
      }
    }
  }

  /** The picture frame attached to every track when small art was fetched. */
  datatype Picture = Picture(mimeType: string, frontCover: bool, description: string, data: Bytes)

  function FrontCover(art: Bytes): Picture
  {
    Picture("image/jpeg", true, "Front cover", art)
  }

  /** The ID3 fields set on a track. */
  datatype Tags = Tags(artist: string, album: string, year: string, title: string, trck: string, picture: Option<Picture>)

  function TagsFor(a: TrAlbum, t: Track, art: Option<Bytes>): Tags
  {
    Tags(a.artist, a.current.title, a.year, t.title, TrackNumberText(t),
         if art.Some? then Some(FrontCover(art.value)) else None)
  }

  // ---------------------------------------------------------------------------
  // Sanitizing the record

  function CleanTrack(t: Track): Track
  {
    t.(title := Sanitizer.Clean(t.title))
  }

  /** The record after the in-place rewrite of the artist, the album title and every
      track title; specifies `SanitizeInPlace`. */
  function Sanitized(a: TrAlbum): TrAlbum
  {
    a.(artist := Sanitizer.Clean(a.artist),
       current := a.current.(title := Sanitizer.Clean(a.current.title)),
       trackinfo := seq(|a.trackinfo|, i requires 0 <= i < |a.trackinfo| => CleanTrack(a.trackinfo[i])))
  }

  /** The `safeNames` block: rewrites the names of the record one by one. */
  method SanitizeInPlace(a: TrAlbum) returns (b: TrAlbum)
    ensures b == Sanitized(a)
  {
    b := a;
    var artist := Sanitizer.CleanString(b.artist);
    b := b.(artist := artist);
    var title := Sanitizer.CleanString(b.current.title);
    b := b.(current := b.current.(title := title));
    for i := 0 to |b.trackinfo|
      invariant |b.trackinfo| == |a.trackinfo|
      invariant b.artist == Sanitizer.Clean(a.artist) && b.current == Sanitized(a).current
      invariant b.itemType == a.itemType && b.freeDownloadPage == a.freeDownloadPage && b.year == a.year
      invariant forall j :: 0 <= j < i ==> b.trackinfo[j] == CleanTrack(a.trackinfo[j])
      invariant forall j :: i <= j < |b.trackinfo| ==> b.trackinfo[j] == a.trackinfo[j]
    {
      var clean := Sanitizer.CleanString(b.trackinfo[i].title);
      b := b.(trackinfo := b.trackinfo[i := b.trackinfo[i].(title := clean)]);
    }
  }

  /** Sanitizing keeps the art id, the track order, numbers and URLs and every
      field other than the names; sanitizing twice equals sanitizing once; and the
      sanitized names hold no slash. */
  lemma SanitizedSpec(a: TrAlbum)
    ensures var b := Sanitized(a);
      b.current.artId == a.current.artId && b.itemType == a.itemType &&
      b.freeDownloadPage == a.freeDownloadPage && b.year == a.year &&
      |b.trackinfo| == |a.trackinfo| &&
      (forall i :: 0 <= i < |a.trackinfo| ==>
         b.trackinfo[i].trackNum == a.trackinfo[i].trackNum && b.trackinfo[i].url == a.trackinfo[i].url)
    ensures Sanitized(Sanitized(a)) == Sanitized(a)
    ensures NoSlash(Sanitized(a).artist) && NoSlash(Sanitized(a).current.title)
    ensures forall i :: 0 <= i < |a.trackinfo| ==> NoSlash(Sanitized(a).trackinfo[i].title)
  {
    var b := Sanitized(a);
    Sanitizer.CleanIdempotent(a.artist);
    Sanitizer.CleanIdempotent(a.current.title);
    Sanitizer.CleanIsSafe(a.artist);
    Sanitizer.CleanIsSafe(a.current.title);
    forall i | 0 <= i < |a.trackinfo|
      ensures Sanitized(b).trackinfo[i] == b.trackinfo[i]
      ensures NoSlash(b.trackinfo[i].title)
    {
      Sanitizer.CleanIdempotent(a.trackinfo[i].title);
      Sanitizer.CleanIsSafe(a.trackinfo[i].title);
    }
  }

  /** With sanitized names (and a year without a slash) every track file lies
      directly in the album directory, which lies directly in the artist directory. */
  lemma SanitizedLayout(a: TrAlbum, i: nat)
    requires i < |a.trackinfo| && NoSlash(a.year)
    ensures var b := Sanitized(a); var d := AlbumDir(b); var p := TrackPath(d, b.trackinfo[i]);
      d[..|b.artist|] == b.artist && d[|b.artist|] == '/' && NoSlash(d[|b.artist| + 1..]) &&
      p[..|d|] == d && p[|d|] == '/' && NoSlash(p[|d| + 1..])
  {
    var b := Sanitized(a);
    SanitizedSpec(a);
    AlbumDirLayout(b);
    TrackPathLayout(AlbumDir(b), b.trackinfo[i]);
  }
}
