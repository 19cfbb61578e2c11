/** Calendar dates as the ingestion code renders them: the price-cache key is
    the UTC date of `toISOString()` (YYYY-MM-DD) and the price provider's
    history date is `dd-mm-yyyy` built from the LOCAL date fields. Parsing of
    timestamps and time zones is outside the model: a `Moment` carries both
    decompositions already made. */
module Dates {
  import opened Wrappers
  import opened Text

  /** A calendar date; month is 1-12. */
  datatype CivilDate = CivilDate(year: int, month: int, day: int)

  predicate ValidDate(d: CivilDate) {
    1 <= d.month <= 12 && 1 <= d.day <= 31
  }

  /** One instant: its `toISOString()` text and its UTC and local calendar dates. */
  datatype Moment = Moment(iso: string, utc: CivilDate, local: CivilDate)

  predicate ValidMoment(at: Moment) {
    ValidDate(at.utc) && ValidDate(at.local)
  }

  /** An instant whose calendar decompositions are well formed. */
  type Instant = m: Moment | ValidMoment(m) witness Moment("", CivilDate(1970, 1, 1), CivilDate(1970, 1, 1))

  /** `String(n).padStart(2, '0')`. */
  function Pad2(n: nat): string {
    PadStart(NatString(n), 2, '0')
  }

  /** The year as `toISOString` writes it: four digits, or a sign and six digits. */
  function IsoYear(y: int): string {
    if 0 <= y <= 9999 then PadStart(NatString(y), 4, '0')
    else (if y < 0 then "-" else "+") + PadStart(NatString(if y < 0 then -y else y), 6, '0')
  }

  /** `date.toISOString().split('T')[0]` from the UTC fields. */
  function IsoDate(d: CivilDate): string
    requires ValidDate(d)
  {
    IsoYear(d.year) + "-" + Pad2(d.month) + "-" + Pad2(d.day)
  }

  /** The provider's `dd-mm-yyyy`, from the local fields (`getDate`, `getMonth() + 1`,
      `getFullYear`). */
  function HistoryDate(d: CivilDate): string
    requires ValidDate(d)
  {
    Pad2(d.day) + "-" + Pad2(d.month) + "-" + IntString(d.year)
  }

  /** Reads back a YYYY-MM-DD text. */
  function ReadIsoDate(s: string): Option<CivilDate> {
    if |s| == 10 && s[4] == '-' && s[7] == '-' && IsDigits(s[..4]) && IsDigits(s[5..7]) && IsDigits(s[8..])
    then Some(CivilDate(DecimalValue(s[..4]), DecimalValue(s[5..7]), DecimalValue(s[8..])))
    else None
  }

  /** Reads back a dd-mm-yyyy text with a non-negative year. */
  function ReadHistoryDate(s: string): Option<CivilDate> {
    if |s| >= 7 && s[2] == '-' && s[5] == '-' && IsDigits(s[..2]) && IsDigits(s[3..5]) && IsDigits(s[6..])
    then Some(CivilDate(DecimalValue(s[6..]), DecimalValue(s[3..5]), DecimalValue(s[..2])))
    else None
  }

  lemma Pad2Facts(n: nat)
    requires n < 100
    ensures |Pad2(n)| == 2 && IsDigits(Pad2(n)) && DecimalValue(Pad2(n)) == n
  {
    assert Pow10(2) == 100 by { assert Pow10(1) == 10; }
    NatStringShort(n, 2);
    PaddedRoundTrip(n, 2);
  }

  /** The provider date is two-digit day, '-', two-digit month, '-', year, and
      reads back as the same date. */
  lemma HistoryDateRoundTrip(d: CivilDate)
    requires ValidDate(d) && d.year >= 0
    ensures var s := HistoryDate(d);
      |s| >= 7 && s[2] == '-' && s[5] == '-' && s[..2] == Pad2(d.day) && s[3..5] == Pad2(d.month)
    ensures ReadHistoryDate(HistoryDate(d)) == Some(d)
  {
    Pad2Facts(d.day);
    Pad2Facts(d.month);
    DecimalOfNatString(d.year);
    var s := HistoryDate(d);
    assert s[..2] == Pad2(d.day);
    assert s[3..5] == Pad2(d.month);
    assert s[6..] == NatString(d.year);
  }

  lemma IsoYearFacts(y: int)
    requires 0 <= y <= 9999
    ensures |IsoYear(y)| == 4 && IsDigits(IsoYear(y)) && DecimalValue(IsoYear(y)) == y
  {
    assert Pow10(4) == 10000 by {
      assert Pow10(1) == 10;
      assert Pow10(2) == 100;
      assert Pow10(3) == 1000;
    }
    NatStringShort(y, 4);
    PaddedRoundTrip(y, 4);
  }

  lemma ReadIsoParts(y: string, mo: string, da: string)
    requires |y| == 4 && |mo| == 2 && |da| == 2 && IsDigits(y) && IsDigits(mo) && IsDigits(da)
    ensures ReadIsoDate(y + "-" + mo + "-" + da) == Some(CivilDate(DecimalValue(y), DecimalValue(mo), DecimalValue(da)))
  {
    var s := y + "-" + mo + "-" + da;
    assert |s| == 10 && s[4] == '-' && s[7] == '-';
    assert s[..4] == y;
    assert s[5..7] == mo;
    assert s[8..] == da;
    assert IsDigits(s[..4]) && IsDigits(s[5..7]) && IsDigits(s[8..]);
  }

  /** For years 0-9999 the cache key is YYYY-MM-DD and reads back as the same date. */
  lemma IsoDateRoundTrip(d: CivilDate)
    requires ValidDate(d) && 0 <= d.year <= 9999
    ensures |IsoDate(d)| == 10
    ensures ReadIsoDate(IsoDate(d)) == Some(d)
  {
    Pad2Facts(d.day);
    Pad2Facts(d.month);
    IsoYearFacts(d.year);
    ReadIsoParts(IsoYear(d.year), Pad2(d.month), Pad2(d.day));
  }

  /** The cache key and the provider date name the same day exactly when the
      UTC and local dates coincide; on a server whose zone is not UTC they name
      different days near midnight. */
  lemma CacheKeyMatchesProviderDate(m: Moment)
    requires ValidDate(m.utc) && ValidDate(m.local)
    requires 0 <= m.utc.year <= 9999 && 0 <= m.local.year
    ensures ReadIsoDate(IsoDate(m.utc)) == ReadHistoryDate(HistoryDate(m.local)) <==> m.utc == m.local
  {
    IsoDateRoundTrip(m.utc);
    HistoryDateRoundTrip(m.local);
  }
}
