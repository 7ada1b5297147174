/** The three record types (`Watched`, `WantToWatch`, `BlogPost`) and the
    calendar date their date fields hold. The range constraints the
    records declare are the `Valid` predicates: a row in the store may
    break them (the create handlers store before they validate), a record
    the framework hands to a handler never does. */
module Models {
  import opened Wrappers
  import opened Text

  /** Python's `date`: year 1..9999, month 1..12, day 1..31. */
  type Year = y: int | 1 <= y <= 9999 witness 1
  type Month = m: int | 1 <= m <= 12 witness 1
  type Day = d: int | 1 <= d <= 31 witness 1

  datatype Date = Date(year: Year, month: Month, day: Day)

  /** A number that orders dates chronologically; the stored ISO text
      `YYYY-MM-DD` sorts the same way, so `ORDER BY` on the text column
      follows this key. */
  function DateKey(d: Date): int {
    d.year * 10000 + d.month * 100 + d.day
  }

  /** `str(d)`: the ISO-8601 text stored in the database. */
  function IsoText(d: Date): (r: string)
    ensures |r| == 10 && r[4] == '-' && r[7] == '-'
    ensures AllDigits(r[..4])
  {
    var y3 := d.year / 10;
    var y2 := y3 / 10;
    [DigitChar(y2 / 10), DigitChar(y2 % 10), DigitChar(y3 % 10), DigitChar(d.year % 10), '-',
     DigitChar(d.month / 10), DigitChar(d.month % 10), '-',
     DigitChar(d.day / 10), DigitChar(d.day % 10)]
  }

  /** `str(d)` is the zero-padded year, month and day joined by hyphens. */
  lemma IsoTextParts(d: Date)
    ensures IsoText(d) == Numeral(d.year, 4) + "-" + Numeral(d.month, 2) + "-" + Numeral(d.day, 2)
  {
    var y3 := d.year / 10;
    var y2 := y3 / 10;
    assert Numeral(y2 / 10, 1) == [DigitChar(y2 / 10)];
    assert Numeral(y2, 2) == [DigitChar(y2 / 10), DigitChar(y2 % 10)];
    assert Numeral(y3, 3) == Numeral(y2, 2) + [DigitChar(y3 % 10)];
    assert Numeral(d.month / 10, 1) == [DigitChar(d.month / 10)];
    assert Numeral(d.day / 10, 1) == [DigitChar(d.day / 10)];
  }

  /** The stored text of one date sorts before another's exactly when the
      date is earlier, so `ORDER BY` on the text column is chronological
      and `DateKey` is the order it follows. */
  lemma IsoTextOrder(a: Date, b: Date)
    ensures LexLess(IsoText(a), IsoText(b)) <==> DateKey(a) < DateKey(b)
  {
    IsoTextParts(a);
    IsoTextParts(b);
    assert Pow10(2) == 100 && Pow10(4) == 10000;
    var ya, ma, da := Numeral(a.year, 4), Numeral(a.month, 2), Numeral(a.day, 2);
    var yb, mb, db := Numeral(b.year, 4), Numeral(b.month, 2), Numeral(b.day, 2);
    NumeralOrder(a.year, b.year, 4);
    NumeralOrder(a.month, b.month, 2);
    NumeralOrder(a.day, b.day, 2);
    LexIrreflexive("-");
    assert IsoText(a) == ya + ("-" + (ma + ("-" + da)));
    assert IsoText(b) == yb + ("-" + (mb + ("-" + db)));
    LexAppend("-", da, "-", db);
    LexAppend(ma, "-" + da, mb, "-" + db);
    LexAppend("-", ma + ("-" + da), "-", mb + ("-" + db));
    LexAppend(ya, "-" + (ma + ("-" + da)), yb, "-" + (mb + ("-" + db)));
  }

  /** The four year digits of `str(d)` denote the year. */
  lemma IsoYearDigits(d: Date)
    ensures DigitsValue(IsoText(d)[..4]) == d.year
  {
    var t := IsoText(d)[..4];
    var y3 := d.year / 10;
    var y2 := y3 / 10;
    assert t[..1][..0] == [] && t[..2][..1] == t[..1] && t[..3][..2] == t[..2] && t[..4][..3] == t[..3];
    assert DigitsValue(t[..1]) == y2 / 10;
    assert DigitsValue(t[..2]) == y2;
    assert DigitValue(t[2]) == y3 % 10;
    assert DigitsValue(t[..3]) == y3;
    assert DigitValue(t[3]) == d.year % 10;
    assert t[..4] == t;
  }

  /** `conint(ge=1)` on an optional season. */
  predicate SeasonValid(season: Option<int>) {
    season.None? || season.value >= 1
  }

  /** A watched title. The first seven fields are required; every other
      field defaults to `None`. */
  datatype Watched = Watched(
    id: int,
    title: string,
    comment: string,
    score: int,
    imageUrl: string,
    watchDate: Date,
    contentType: string,
    season: Option<int> := None,
    synopsis: Option<string> := None,
    releaseYear: Option<int> := None,
    releaseDate: Option<Date> := None,
    runtime: Option<int> := None,
    genres: Option<string> := None,
    tmdbId: Option<int> := None,
    tmdbRating: Option<real> := None,
    posterUrl: Option<string> := None,
    topRank: Option<int> := None)
  {
    /** `score: conint(ge=0, le=10)` and `season: Optional[conint(ge=1)]`. */
    predicate Valid() {
      0 <= score <= 10 && SeasonValid(season)
    }
  }

  /** A title on the watch-list. The first six fields are required; every
      other field defaults to `None`. */
  datatype WantToWatch = WantToWatch(
    id: int,
    title: string,
    imageUrl: string,
    launchDate: Date,
    excitement: int,
    contentType: string,
    season: Option<int> := None,
    synopsis: Option<string> := None,
    releaseYear: Option<int> := None,
    runtime: Option<int> := None,
    genres: Option<string> := None,
    tmdbId: Option<int> := None,
    tmdbRating: Option<real> := None,
    posterUrl: Option<string> := None)
  {
    /** `excitement: conint(ge=1, le=10)` and `season: Optional[conint(ge=1)]`. */
    predicate Valid() {
      1 <= excitement <= 10 && SeasonValid(season)
    }
  }

  /** A blog post about a watched title; every field is required and
      `createdAt` is plain text. */
  datatype BlogPost = BlogPost(
    id: int,
    watchedId: int,
    title: string,
    slug: string,
    body: string,
    createdAt: string)

  function WatchedId(w: Watched): int { w.id }

  function WantToWatchId(w: WantToWatch): int { w.id }

  function PostId(p: BlogPost): int { p.id }
}
