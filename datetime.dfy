/**
 * The webhook timestamp normaliser: a provider timestamp of the form
 * `YYYY-MM-DDTHH:MM:SS.ffffffZ` is parsed with the strptime format
 * `%Y-%m-%dT%H:%M:%S.%fZ` and re-rendered as `%Y-%m-%d %H:%M:%S`; anything
 * empty or unparsable becomes None.
 *
 * strptime's grammar for that format is wider than the fixed-width form: a
 * month, day, hour, minute or second may have one digit, a day may be a space
 * followed by one digit, the `T` and `Z` match in either case, and the
 * fraction has one to six digits. The parsed fields must then name a real
 * calendar instant (year at least 1, a day that exists in its month, seconds
 * below 60).
 */
module MysqlDatetime {
  import opened Common
  import opened Text

  datatype DateTime = DateTime(year: nat, month: nat, day: nat, hour: nat, minute: nat, second: nat)

  predicate IsLeapYear(y: nat) {
    (y % 4 == 0 && y % 100 != 0) || y % 400 == 0
  }

  function DaysInMonth(y: nat, m: nat): nat {
    if m == 2 then (if IsLeapYear(y) then 29 else 28)
    else if m == 4 || m == 6 || m == 9 || m == 11 then 30
    else 31
  }

  /** A calendar instant datetime accepts, with a four-digit year. */
  predicate Valid(dt: DateTime) {
    && 1 <= dt.year <= 9999
    && 1 <= dt.month <= 12
    && 1 <= dt.day <= DaysInMonth(dt.year, dt.month)
    && dt.hour < 24 && dt.minute < 60 && dt.second < 60
  }

  /** A numeric field: its value, its number of digits and the index after its separator. */
  datatype Field = Field(value: nat, width: nat, next: nat)

  /**
   * Reads on from index j over the digits of a field that started at index i
   * (s[i..j] are digits already read) up to the separator after them, which
   * must be one of `seps`. Since no separator is a digit, the field is
   * exactly the run of digits, as the format's regular expression forces.
   */
  function ScanFrom(s: string, i: nat, j: nat, seps: set<char>): (f: Option<Field>)
    requires i <= j <= |s| && AllDigits(s[i..j])
    ensures f.Some? ==> i + f.value.width < |s| && f.value.next == i + f.value.width + 1
    ensures f.Some? ==> s[i + f.value.width] in seps
    decreases |s| - j
  {
    if j < |s| && IsDigit(s[j]) then
      assert s[i..j + 1] == s[i..j] + [s[j]];
      ScanFrom(s, i, j + 1, seps)
    else if j < |s| && s[j] in seps then Some(Field(DecimalValue(s[i..j]), j - i, j + 1))
    else None
  }

  /** Reads the field that starts at index i and the separator after it. */
  function Scan(s: string, i: nat, seps: set<char>): (f: Option<Field>)
    requires i <= |s|
    ensures f.Some? ==> i + f.value.width < |s| && f.value.next == i + f.value.width + 1
    ensures f.Some? ==> s[i + f.value.width] in seps
  {
    ScanFrom(s, i, i, seps)
  }

  /**
   * Reads the day field, which the format's expression also accepts as a
   * space followed by a single non-zero digit.
   */
  function ScanDay(s: string, i: nat): (f: Option<Field>)
    requires i <= |s|
    ensures f.Some? ==> i < f.value.next <= |s|
    ensures f.Some? ==> 1 <= f.value.value <= 31
  {
    if i < |s| && s[i] == ' ' then
      var d :- Scan(s, i + 1, {'T', 't'});
      if d.width == 1 && 1 <= d.value <= 9 then Some(d) else None
    else
      var d :- Scan(s, i, {'T', 't'});
      if 1 <= d.width <= 2 && 1 <= d.value <= 31 then Some(d) else None
  }

  /** The date fields, and the index after the `T` that ends them. */
  datatype DateFields = DateFields(year: nat, month: nat, day: nat, next: nat)

  /** The time fields; the fraction is read and dropped. */
  datatype TimeFields = TimeFields(hour: nat, minute: nat, second: nat)

  /** `%Y-%m-%dT`: four year digits, one or two month digits, then the day. */
  function ParseDate(s: string): (r: Option<DateFields>)
    ensures r.Some? ==> r.value.next <= |s|
  {
    var y :- Scan(s, 0, {'-'});
    var mo :- Scan(s, y.next, {'-'});
    var d :- ScanDay(s, mo.next);
    if y.width == 4 && 1 <= mo.width <= 2 then Some(DateFields(y.value, mo.value, d.value, d.next))
    else None
  }

  /** `%H:%M:%S.%fZ` from index i to the end of s. */
  function ParseTime(s: string, i: nat): Option<TimeFields>
    requires i <= |s|
  {
    var h :- Scan(s, i, {':'});
    var mi :- Scan(s, h.next, {':'});
    var sec :- Scan(s, mi.next, {'.'});
    var frac :- Scan(s, sec.next, {'Z', 'z'});
    if && 1 <= h.width <= 2 && 1 <= mi.width <= 2 && 1 <= sec.width <= 2
       && 1 <= frac.width <= 6 && frac.next == |s|
    then Some(TimeFields(h.value, mi.value, sec.value))
    else None
  }

  /**
   * The instant strptime reads from s under `%Y-%m-%dT%H:%M:%S.%fZ`, if it
   * accepts s: every field has an allowed number of digits, nothing follows
   * the `Z`, and the fields name a real instant.
   */
  function Parse(s: string): (r: Option<DateTime>)
    ensures r.Some? ==> Valid(r.value)
  {
    var d :- ParseDate(s);
    var t :- ParseTime(s, d.next);
    var dt := DateTime(d.year, d.month, d.day, t.hour, t.minute, t.second);
    if Valid(dt) then Some(dt) else None
  }

  /** strftime's `%Y-%m-%d`. */
  function DatePart(dt: DateTime): string {
    Padded(dt.year, 4) + "-" + Padded(dt.month, 2) + "-" + Padded(dt.day, 2)
  }

  /** strftime's `%H:%M:%S`. */
  function TimePart(dt: DateTime): string {
    Padded(dt.hour, 2) + ":" + Padded(dt.minute, 2) + ":" + Padded(dt.second, 2)
  }

  /** strftime's `%Y-%m-%d %H:%M:%S` rendering of an instant. */
  function Format(dt: DateTime): string
    requires Valid(dt)
  {
    DatePart(dt) + " " + TimePart(dt)
  }

  /** The provider's own rendering of an instant, with fraction digits `frac`. */
  function ProviderForm(dt: DateTime, frac: string): string
    requires Valid(dt)
  {
    (DatePart(dt) + "T") + TimePart(dt) + ("." + frac + "Z")
  }

  /**
   * `_to_mysql_datetime`: empty or missing input gives None, input strptime
   * rejects gives None, and anything else is re-rendered in MySQL's
   * fixed-width `YYYY-MM-DD HH:MM:SS` layout.
   */
  function ToMysqlDatetime(v: Option<string>): (r: Option<string>)
    ensures !Truthy(v) ==> r == None
    ensures r.Some? ==> |r.value| == 19 && r.value[4] == '-' && r.value[7] == '-'
                        && r.value[10] == ' ' && r.value[13] == ':' && r.value[16] == ':'
    ensures r.Some? <==> Truthy(v) && Parse(v.value).Some?
  {
    if !Truthy(v) then None
    else match Parse(v.value)
      case None => None
      case Some(dt) => FormatLayout(dt); Some(Format(dt))
  }

  // ------------------------------------------------------------------ proofs

  /** A field of w digits followed by one of `seps` scans to its value, from any point inside it. */
  lemma {:induction false} ScanFromAt(s: string, i: nat, j: nat, w: nat, seps: set<char>)
    requires i <= j <= i + w < |s|
    requires AllDigits(s[i..i + w])
    requires s[i + w] in seps && !IsDigit(s[i + w])
    ensures AllDigits(s[i..j])
    ensures ScanFrom(s, i, j, seps) == Some(Field(DecimalValue(s[i..i + w]), w, i + w + 1))
    decreases i + w - j
  {
    assert AllDigits(s[i..j]) by {
      forall k | 0 <= k < j - i ensures IsDigit(s[i..j][k]) {
        assert s[i..j][k] == s[i..i + w][k];
      }
    }
    if j < i + w {
      assert IsDigit(s[j]) by { assert s[i..i + w][j - i] == s[j]; }
      ScanFromAt(s, i, j + 1, w, seps);
    }
  }

  /** A field of w digits followed by one of `seps` scans to its value. */
  lemma ScanAt(s: string, i: nat, w: nat, seps: set<char>)
    requires i + w < |s|
    requires AllDigits(s[i..i + w])
    requires s[i + w] in seps && !IsDigit(s[i + w])
    ensures Scan(s, i, seps) == Some(Field(DecimalValue(s[i..i + w]), w, i + w + 1))
  {
    ScanFromAt(s, i, i, w, seps);
  }

  /** A field whose digits are followed by a character outside `seps` is refused. */
  lemma {:induction false} ScanFromRefused(s: string, i: nat, j: nat, w: nat, seps: set<char>)
    requires i <= j <= i + w < |s|
    requires AllDigits(s[i..i + w])
    requires s[i + w] !in seps && !IsDigit(s[i + w])
    ensures AllDigits(s[i..j])
    ensures ScanFrom(s, i, j, seps) == None
    decreases i + w - j
  {
    assert AllDigits(s[i..j]) by {
      forall k | 0 <= k < j - i ensures IsDigit(s[i..j][k]) {
        assert s[i..j][k] == s[i..i + w][k];
      }
    }
    if j < i + w {
      assert IsDigit(s[j]) by { assert s[i..i + w][j - i] == s[j]; }
      ScanFromRefused(s, i, j + 1, w, seps);
    }
  }

  lemma Power10Values()
    ensures Power10(2) == 100 && Power10(4) == 10000
  {
    assert Power10(1) == 10;
    assert Power10(3) == 1000;
  }

  /** Where each date field sits in `%Y-%m-%d`, and that each reads back as its value. */
  lemma DatePartLayout(dt: DateTime)
    requires Valid(dt)
    ensures var p := DatePart(dt);
            && |p| == 10 && p[4] == '-' && p[7] == '-'
            && AllDigits(p[0..4]) && DecimalValue(p[0..4]) == dt.year
            && AllDigits(p[5..7]) && DecimalValue(p[5..7]) == dt.month
            && AllDigits(p[8..10]) && DecimalValue(p[8..10]) == dt.day
  {
    Power10Values();
    PaddedValue(dt.year, 4);
    PaddedValue(dt.month, 2);
    PaddedValue(dt.day, 2);
    Fields3(DatePart(dt), Padded(dt.year, 4), '-', Padded(dt.month, 2), '-', Padded(dt.day, 2));
  }

  /** Where each time field sits in `%H:%M:%S`, and that each reads back as its value. */
  lemma TimePartLayout(dt: DateTime)
    requires Valid(dt)
    ensures var p := TimePart(dt);
            && |p| == 8 && p[2] == ':' && p[5] == ':'
            && AllDigits(p[0..2]) && DecimalValue(p[0..2]) == dt.hour
            && AllDigits(p[3..5]) && DecimalValue(p[3..5]) == dt.minute
            && AllDigits(p[6..8]) && DecimalValue(p[6..8]) == dt.second
  {
    Power10Values();
    PaddedValue(dt.hour, 2);
    PaddedValue(dt.minute, 2);
    PaddedValue(dt.second, 2);
    Fields3(TimePart(dt), Padded(dt.hour, 2), ':', Padded(dt.minute, 2), ':', Padded(dt.second, 2));
  }

  /** Three fields joined by two separators can be sliced back out. */
  lemma Fields3(s: string, a: string, sep1: char, b: string, sep2: char, c: string)
    requires s == a + [sep1] + b + [sep2] + c
    ensures |s| == |a| + |b| + |c| + 2
    ensures s[0..|a|] == a && s[|a|] == sep1
    ensures s[|a| + 1..|a| + 1 + |b|] == b && s[|a| + 1 + |b|] == sep2
    ensures s[|a| + 2 + |b|..|s|] == c
  {
    forall x | 0 <= x < |b| ensures s[|a| + 1..|a| + 1 + |b|][x] == b[x] { }
    forall x | 0 <= x < |c| ensures s[|a| + 2 + |b|..|s|][x] == c[x] { }
  }

  lemma FormatLayout(dt: DateTime)
    requires Valid(dt)
    ensures var f := Format(dt);
            |f| == 19 && f[4] == '-' && f[7] == '-' && f[10] == ' ' && f[13] == ':' && f[16] == ':'
  {
    DatePartLayout(dt);
    TimePartLayout(dt);
  }

  /** The three parts of a concatenation can be sliced back out of it. */
  lemma Pieces(a: string, b: string, c: string)
    ensures |a + b + c| == |a| + |b| + |c|
    ensures (a + b + c)[..|a|] == a
    ensures (a + b + c)[|a|..|a| + |b|] == b
    ensures (a + b + c)[|a| + |b|..] == c
  {
  }

  /** A slice of a slice is a slice. */
  lemma SliceOfSlice(s: string, i: nat, j: nat, k: nat, l: nat)
    requires i <= j <= |s| && k <= l <= j - i
    ensures s[i..j][k..l] == s[i + k..i + l]
  {
    forall x | 0 <= x < l - k ensures s[i..j][k..l][x] == s[i + k..i + l][x] {
    }
  }

  /** Slicing inside either operand of a concatenation. */
  lemma ConcatSlice(a: string, b: string, i: nat, j: nat)
    requires i <= j
    ensures j <= |a| ==> (a + b)[i..j] == a[i..j]
    ensures j <= |b| ==> (a + b)[|a| + i..|a| + j] == b[i..j]
  {
    if j <= |a| {
      forall x | 0 <= x < j - i ensures (a + b)[i..j][x] == a[i..j][x] { }
    }
    if j <= |b| {
      forall x | 0 <= x < j - i ensures (a + b)[|a| + i..|a| + j][x] == b[i..j][x] { }
    }
  }

  /** Where the date fields and their separators sit in the provider's rendering. */
  lemma ProviderDateLayout(dt: DateTime, frac: string)
    requires Valid(dt)
    ensures var s := ProviderForm(dt, frac);
            && |s| == 21 + |frac| && s[4] == '-' && s[7] == '-' && s[10] == 'T'
            && AllDigits(s[0..4]) && DecimalValue(s[0..4]) == dt.year
            && AllDigits(s[5..7]) && DecimalValue(s[5..7]) == dt.month
            && AllDigits(s[8..10]) && DecimalValue(s[8..10]) == dt.day
  {
    var d, t, tail := DatePart(dt), TimePart(dt), "." + frac + "Z";
    var dT := d + "T";
    var head := dT + t;
    var s := ProviderForm(dt, frac);
    assert s == head + tail;
    DatePartLayout(dt);
    TimePartLayout(dt);
    ConcatSlice(d, "T", 0, 4);
    ConcatSlice(d, "T", 5, 7);
    ConcatSlice(d, "T", 8, 10);
    ConcatSlice(dT, t, 0, 4);
    ConcatSlice(dT, t, 5, 7);
    ConcatSlice(dT, t, 8, 10);
    ConcatSlice(head, tail, 0, 4);
    ConcatSlice(head, tail, 5, 7);
    ConcatSlice(head, tail, 8, 10);
  }

  /** Where the time fields, the fraction and the `Z` sit in the provider's rendering. */
  lemma ProviderTimeLayout(dt: DateTime, frac: string)
    requires Valid(dt)
    ensures var s := ProviderForm(dt, frac);
            && |s| == 21 + |frac| && s[13] == ':' && s[16] == ':' && s[19] == '.'
            && s[20 + |frac|] == 'Z' && s[20..20 + |frac|] == frac
            && AllDigits(s[11..13]) && DecimalValue(s[11..13]) == dt.hour
            && AllDigits(s[14..16]) && DecimalValue(s[14..16]) == dt.minute
            && AllDigits(s[17..19]) && DecimalValue(s[17..19]) == dt.second
  {
    var d, t, tail := DatePart(dt), TimePart(dt), "." + frac + "Z";
    var dT := d + "T";
    var head := dT + t;
    var s := ProviderForm(dt, frac);
    assert s == head + tail;
    DatePartLayout(dt);
    TimePartLayout(dt);
    ConcatSlice(dT, t, 0, 2);
    ConcatSlice(dT, t, 3, 5);
    ConcatSlice(dT, t, 6, 8);
    ConcatSlice(head, tail, 11, 13);
    ConcatSlice(head, tail, 14, 16);
    ConcatSlice(head, tail, 17, 19);
    ConcatSlice(head, tail, 1, 1 + |frac|);
    assert tail[1..1 + |frac|] == frac;
  }

  /** The date stage reads the date fields of the provider's rendering. */
  lemma ParseProviderDate(dt: DateTime, frac: string)
    requires Valid(dt)
    ensures ParseDate(ProviderForm(dt, frac)) == Some(DateFields(dt.year, dt.month, dt.day, 11))
  {
    var s := ProviderForm(dt, frac);
    ProviderDateLayout(dt, frac);
    ScanAt(s, 0, 4, {'-'});
    ScanAt(s, 5, 2, {'-'});
    ScanAt(s, 8, 2, {'T', 't'});
    assert s[8] != ' ' by { assert s[8..10][0] == s[8]; }
    assert ScanDay(s, 8) == Some(Field(dt.day, 2, 11));
  }

  /** The time stage reads the time fields of the provider's rendering and consumes the rest. */
  lemma ParseProviderTime(dt: DateTime, frac: string)
    requires Valid(dt) && 1 <= |frac| <= 6 && AllDigits(frac)
    ensures |ProviderForm(dt, frac)| >= 11
    ensures ParseTime(ProviderForm(dt, frac), 11) == Some(TimeFields(dt.hour, dt.minute, dt.second))
  {
    var s := ProviderForm(dt, frac);
    ProviderTimeLayout(dt, frac);
    ScanAt(s, 11, 2, {':'});
    ScanAt(s, 14, 2, {':'});
    ScanAt(s, 17, 2, {'.'});
    ScanAt(s, 20, |frac|, {'Z', 'z'});
  }

  /** strptime accepts the provider's own rendering and reads back the same instant. */
  lemma ParseProviderForm(dt: DateTime, frac: string)
    requires Valid(dt) && 1 <= |frac| <= 6 && AllDigits(frac)
    ensures Parse(ProviderForm(dt, frac)) == Some(dt)
  {
    ParseProviderDate(dt, frac);
    ParseProviderTime(dt, frac);
  }

  /**
   * The normaliser maps the provider's `YYYY-MM-DDTHH:MM:SS.ffffffZ` to
   * `YYYY-MM-DD HH:MM:SS`: the date, a space for the `T`, the time, and the
   * fraction and `Z` dropped.
   */
  lemma NormalisesProviderForm(dt: DateTime, frac: string)
    requires Valid(dt) && 1 <= |frac| <= 6 && AllDigits(frac)
    ensures var s := ProviderForm(dt, frac);
            ToMysqlDatetime(Some(s)) == Some(Format(dt)) && Format(dt) == s[..10] + " " + s[11..19]
  {
    var d, t := DatePart(dt), TimePart(dt);
    var s := ProviderForm(dt, frac);
    ParseProviderForm(dt, frac);
    DatePartLayout(dt);
    TimePartLayout(dt);
    Pieces(d + "T", t, "." + frac + "Z");
    SliceOfSlice(s, 0, 11, 0, 10);
  }

  /** The normaliser's own output is not accepted again: the space where strptime wants `T` fails it. */
  lemma OutputNotReaccepted(dt: DateTime)
    requires Valid(dt)
    ensures ToMysqlDatetime(Some(Format(dt))) == None
  {
    FormatDateLayout(dt);
    SpaceForTRejected(Format(dt));
  }

  /** A date whose day is followed by a space instead of `T` is refused. */
  lemma SpaceForTRejected(s: string)
    requires |s| == 19 && s[4] == '-' && s[7] == '-' && s[10] == ' '
    requires AllDigits(s[0..4]) && AllDigits(s[5..7]) && IsDigit(s[8]) && IsDigit(s[9])
    ensures Parse(s) == None
  {
    ScanAt(s, 0, 4, {'-'});
    ScanAt(s, 5, 2, {'-'});
    assert AllDigits(s[8..10]) by { assert s[8..10][0] == s[8] && s[8..10][1] == s[9]; }
    ScanFromRefused(s, 8, 8, 2, {'T', 't'});
    assert ParseDate(s) == None;
  }

  /** The date fields of the normaliser's output and the space after them. */
  lemma FormatDateLayout(dt: DateTime)
    requires Valid(dt)
    ensures var s := Format(dt);
            && |s| == 19 && s[4] == '-' && s[7] == '-' && s[10] == ' '
            && AllDigits(s[0..4]) && AllDigits(s[5..7]) && IsDigit(s[8]) && IsDigit(s[9])
  {
    var d, t := DatePart(dt), TimePart(dt);
    DatePartLayout(dt);
    TimePartLayout(dt);
    var ds := d + " ";
    assert Format(dt) == ds + t;
    ConcatSlice(d, " ", 0, 4);
    ConcatSlice(d, " ", 5, 7);
    ConcatSlice(d, " ", 8, 10);
    ConcatSlice(ds, t, 0, 4);
    ConcatSlice(ds, t, 5, 7);
    ConcatSlice(ds, t, 8, 10);
    assert d[8..10][0] == d[8] && d[8..10][1] == d[9];
  }
}
