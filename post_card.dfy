/**
 * The non-visual logic of the post card: the relative-time phrase shown under the
 * user name (`calculateTimeAgo`), the comma-grouped like and comment counts
 * (`formatCount`) and the conversion of an API post into the card's data
 * (`toPostCardData`).
 *
 * `Instant.parse` and `Instant.now` are not modelled: the parser is a parameter
 * `parse` (a partial function, `None` standing for a thrown parse exception) and
 * the current instant is a parameter `now`. Instants are counted in nanoseconds
 * since the epoch.
 */
module PostCard {
  import opened Wrappers
  import opened Decimal
  import opened PostModel

  // ---------------------------------------------------------------------------
  // Timestamp normalisation
  // ---------------------------------------------------------------------------

  /** `createdDate.replace(" ", "T")`: every space becomes a 'T'. */
  function ReplaceSpaces(s: string): (r: string)
    ensures |r| == |s|
    ensures ' ' !in r
  {
    seq(|s|, i requires 0 <= i < |s| => if s[i] == ' ' then 'T' else s[i])
  }

  /**
   * The string handed to `Instant.parse`: spaces replaced by 'T', and a 'Z' (UTC)
   * appended when the string carries no zone marker, that is neither '+' nor 'Z'.
   */
  function Normalize(s: string): (r: string)
    ensures |r| == (if '+' !in s && 'Z' !in s then |s| + 1 else |s|)
    ensures ' ' !in r
    ensures forall i :: 0 <= i < |s| ==> r[i] == (if s[i] == ' ' then 'T' else s[i])
    ensures '+' !in s && 'Z' !in s ==> r[|s|] == 'Z'
    ensures '+' in r || 'Z' in r
  {
    var t := ReplaceSpaces(s);
    assert forall c :: c != ' ' && c != 'T' ==> (c in t <==> c in s) by {
      forall c | c != ' ' && c != 'T' ensures c in t <==> c in s {
        if c in s {
          var i :| 0 <= i < |s| && s[i] == c;
          assert t[i] == c;
        }
      }
    }
    if '+' in t || 'Z' in t then t else t + "Z"
  }

  /** Normalising an already normalised timestamp changes nothing. */
  lemma NormalizeIdempotent(s: string)
    ensures Normalize(Normalize(s)) == Normalize(s)
  {
  }

  // ---------------------------------------------------------------------------
  // Durations, as java.time computes them
  // ---------------------------------------------------------------------------

  const NanosPerSecond: nat := 1_000_000_000

  /**
   * The seconds field of `Duration.between(then, now)`. A `Duration` keeps its
   * nanoseconds in 0..999_999_999, so the seconds field is the elapsed time in
   * seconds rounded down (Dafny's `/` with a positive divisor).
   */
  function DurationSeconds(created: int, now: int): (secs: int)
    ensures secs * NanosPerSecond <= now - created < (secs + 1) * NanosPerSecond
  {
    (now - created) / NanosPerSecond
  }

  /** Integer division of a `Long` in Kotlin/Java: rounds toward zero. */
  function TruncDiv(a: int, b: int): (q: int)
    requires b > 0
    ensures a >= 0 ==> 0 <= a - q * b < b
    ensures a < 0 ==> -b < a - q * b <= 0
  {
    if a >= 0 then a / b else -((-a) / b)
  }

  /** `Duration.toMinutes()`, `toHours()` and `toDays()`: the seconds field divided, rounded toward zero. */
  function ToMinutes(secs: int): int { TruncDiv(secs, 60) }
  function ToHours(secs: int): int { TruncDiv(secs, 3600) }
  function ToDays(secs: int): int { TruncDiv(secs, 86400) }

  // ---------------------------------------------------------------------------
  // The phrase, as the `when` expression builds it
  // ---------------------------------------------------------------------------

  /** "<n> <unit>[s] ago", the unit word pluralised unless `n` is 1. */
  function Ago(n: nat, unit: string): string {
    Digits(n) + " " + unit + (if n != 1 then "s" else "") + " ago"
  }

  /**
   * The `when` expression of `calculateTimeAgo`, branch by branch, on the
   * duration's seconds field. The cascade of truncated conversions picks exactly
   * the bucket that `Classify` defines by ranges of elapsed seconds.
   */
  function Phrase(secs: int): (r: string)
    ensures r == Render(Classify(secs))
  {
    if ToMinutes(secs) < 1 then "Just now"
    else if ToMinutes(secs) < 60 then Ago(ToMinutes(secs), "minute")
    else if ToHours(secs) < 24 then Ago(ToHours(secs), "hour")
    else if ToDays(secs) < 7 then Ago(ToDays(secs), "day")
    else if ToDays(secs) < 30 then Ago(ToDays(secs) / 7, "week")
    else if ToDays(secs) < 365 then Ago(ToDays(secs) / 30, "month")
    else Ago(ToDays(secs) / 365, "year")
  }

  /**
   * `calculateTimeAgo(createdDate)`: the phrase for the time elapsed between the
   * parsed timestamp and `now`, or "Recently" when the timestamp does not parse.
   */
  function CalculateTimeAgo(createdDate: string, parse: string -> Option<int>, now: int): (r: string)
    ensures r == "Recently" <==> parse(Normalize(createdDate)).None?
    ensures parse(Normalize(createdDate)).Some? ==>
      var created := parse(Normalize(createdDate)).value;
      (r == "Just now" <==> now - created < 60 * NanosPerSecond) &&
      r == Render(Classify(DurationSeconds(created, now)))
  {
    match parse(Normalize(createdDate))
    case None => "Recently"
    case Some(created) =>
      var secs := DurationSeconds(created, now);
      RenderIsNotFallback(Classify(secs));
      Phrase(secs)
  }

  // ---------------------------------------------------------------------------
  // The reference reading: buckets stated as ranges of elapsed seconds
  // ---------------------------------------------------------------------------

  datatype TimeUnit = Minute | Hour | Day | Week | Month | Year

  /** What a phrase says: nothing more precise than "just now", or a count of whole units. */
  datatype Bucket = JustNow | Elapsed(n: nat, unit: TimeUnit)

  const Min: int := 60
  const HourSecs: int := 60 * Min
  const DaySecs: int := 24 * HourSecs

  /**
   * Each phrase as a range of elapsed seconds; negative elapsed time (a timestamp
   * in the future) falls in the first range. The number shown is never 0 and never
   * reaches the next unit.
   */
  function Classify(secs: int): (b: Bucket)
    ensures b == JustNow <==> secs < Min
    ensures b.Elapsed? ==> b.n >= 1
    ensures b.Elapsed? && b.unit == Minute ==> b.n < 60
    ensures b.Elapsed? && b.unit == Hour ==> b.n < 24
    ensures b.Elapsed? && b.unit == Day ==> b.n < 7
    ensures b.Elapsed? && b.unit == Week ==> b.n <= 4
    ensures b.Elapsed? && b.unit == Month ==> b.n <= 12
  {
    if secs < Min then JustNow
    else if secs < HourSecs then Elapsed(secs / Min, Minute)
    else if secs < DaySecs then Elapsed(secs / HourSecs, Hour)
    else if secs < 7 * DaySecs then Elapsed(secs / DaySecs, Day)
    else if secs < 30 * DaySecs then Elapsed(secs / DaySecs / 7, Week)
    else if secs < 365 * DaySecs then Elapsed(secs / DaySecs / 30, Month)
    else Elapsed(secs / DaySecs / 365, Year)
  }

  function Word(u: TimeUnit): string {
    match u
    case Minute => "minute"
    case Hour => "hour"
    case Day => "day"
    case Week => "week"
    case Month => "month"
    case Year => "year"
  }

  function Render(b: Bucket): string {
    match b
    case JustNow => "Just now"
    case Elapsed(n, u) => Ago(n, Word(u))
  }

  /** Worked cases: 30 s, 1 min, 5 min, 2 h, 7 days and 400 days elapsed. */
  lemma PhraseExamples()
    ensures Phrase(30) == "Just now"
    ensures Phrase(-90) == "Just now"
    ensures Phrase(60) == "1 minute ago"
    ensures Phrase(300) == "5 minutes ago"
    ensures Phrase(2 * 3600) == "2 hours ago"
    ensures Phrase(7 * 86400) == "1 week ago"
    ensures Phrase(400 * 86400) == "1 year ago"
  {
    assert Digits(1) == "1" && Digits(2) == "2" && Digits(5) == "5";
    assert Classify(60) == Elapsed(1, Minute);
    assert Classify(300) == Elapsed(5, Minute);
    assert Classify(2 * 3600) == Elapsed(2, Hour);
    assert Classify(7 * 86400) == Elapsed(1, Week);
    assert Classify(400 * 86400) == Elapsed(1, Year);
  }

  /** Every phrase other than "Just now" ends in " ago", with a plural 's' exactly when the number is not 1. */
  lemma RenderShape(b: Bucket)
    ensures b == JustNow ==> Render(b) == "Just now"
    ensures b.Elapsed? ==>
      var r := Render(b);
      |r| >= 5 && r[|r| - 4..] == " ago" && (r[|r| - 5] == 's' <==> b.n != 1)
  {
  }

  /** Distinct buckets give distinct phrases, so a phrase names exactly one bucket. */
  lemma RenderInjective(b1: Bucket, b2: Bucket)
    requires Render(b1) == Render(b2)
    ensures b1 == b2
  {
    RenderIsNotFallback(b1);
    RenderIsNotFallback(b2);
    if b1.Elapsed? && b2.Elapsed? {
      var n1, u1, n2, u2 := b1.n, b1.unit, b2.n, b2.unit;
      var d1, d2 := Digits(n1), Digits(n2);
      var x1 := (if n1 != 1 then "s" else "") + " ago";
      var x2 := (if n2 != 1 then "s" else "") + " ago";
      var t1, t2 := Word(u1) + x1, Word(u2) + x2;
      assert Render(b1) == d1 + " " + t1;
      assert Render(b2) == d2 + " " + t2;
      DigitsHaveNoSpace(n1);
      DigitsHaveNoSpace(n2);
      SplitAtFirstSpace(d1, t1, d2, t2);
      DigitsInjective(n1, n2);
      WordDeterminesUnit(u1, u2, x1, x2);
    }
  }

  /** No unit word is a prefix-twin of another: the first two letters already tell them apart. */
  lemma WordDeterminesUnit(u1: TimeUnit, u2: TimeUnit, x1: string, x2: string)
    requires Word(u1) + x1 == Word(u2) + x2
    ensures u1 == u2
  {
    var w1, w2 := Word(u1), Word(u2);
    assert (w1 + x1)[0] == w1[0] && (w1 + x1)[1] == w1[1];
    assert (w2 + x2)[0] == w2[0] && (w2 + x2)[1] == w2[1];
  }

  /** A phrase for a bucket starts with a digit unless it is "Just now"; none is the fallback "Recently". */
  lemma RenderIsNotFallback(b: Bucket)
    ensures Render(b) != "Recently"
    ensures Render(b) == "Just now" <==> b == JustNow
    ensures b.Elapsed? ==> IsDigit(Render(b)[0])
  {
  }

  /** Two strings cut at their first space agree on both halves. */
  lemma SplitAtFirstSpace(x1: string, y1: string, x2: string, y2: string)
    requires ' ' !in x1 && ' ' !in x2
    requires x1 + " " + y1 == x2 + " " + y2
    ensures x1 == x2 && y1 == y2
  {
    var s := x1 + " " + y1;
    assert s[|x1|] == ' ' && s[|x2|] == ' ';
    assert forall i :: 0 <= i < |x1| ==> s[i] == x1[i];
    assert forall i :: 0 <= i < |x2| ==> s[i] == x2[i];
    assert x1 == s[..|x1|] == x2;
    assert y1 == s[|x1| + 1..] == y2;
  }

  // ---------------------------------------------------------------------------
  // Like and comment counts
  // ---------------------------------------------------------------------------

  /** `n.toString()`: optional minus sign, then the digits. */
  function DecimalString(n: int): string {
    if n < 0 then "-" + Digits(-n) else Digits(n)
  }

  /** Inserts a comma before every group of three digits counted from the right. */
  function Group(d: string): string {
    if |d| <= 3 then d else Group(d[..|d| - 3]) + "," + d[|d| - 3..]
  }

  /**
   * `String.format("%,d", count)` with the comma as grouping separator: an
   * optional minus sign and a well-formed grouping of the digits, which gives
   * the plain decimal form back once the commas are deleted.
   */
  function FormatCount(count: Int32): (r: string)
    ensures |r| > 0 && (r[0] == '-' <==> count < 0)
    ensures Grouped(if count < 0 then r[1..] else r)
    ensures StripCommas(r) == DecimalString(count)
  {
    var d := Digits(Magnitude(count));
    var g := Group(d);
    GroupStripsBack(d);
    GroupIsGrouped(d);
    GroupStartsWithDigit(d);
    if count < 0 then
      StripCommasAppend("-", g);
      assert StripCommas("-") == "-";
      assert ("-" + g)[1..] == g;
      "-" + g
    else
      g
  }

  function Magnitude(count: Int32): nat {
    if count < 0 then -(count as int) else count as int
  }

  function StripCommas(s: string): (r: string)
    ensures ',' !in r
  {
    if s == [] then [] else (if s[0] == ',' then [] else [s[0]]) + StripCommas(s[1..])
  }

  /**
   * Well-formed grouping: a leading group of one to three digits followed by
   * any number of ",ddd" groups of exactly three digits.
   */
  predicate Grouped(s: string) {
    if |s| <= 3 then 1 <= |s| && AllDigits(s)
    else s[|s| - 4] == ',' && AllDigits(s[|s| - 3..]) && Grouped(s[..|s| - 4])
  }

  /** Reads a formatted count back: an optional '-', then digits with the commas ignored. */
  function ParseCount(s: string): (r: Option<int>)
    ensures r.Some? ==> (r.value < 0 ==> |s| > 0 && s[0] == '-')
  {
    var neg := |s| > 0 && s[0] == '-';
    var body := StripCommas(if neg then s[1..] else s);
    if body == [] || !AllDigits(body) then None
    else var v: int := Value(body); Some(if neg then -v else v)
  }

  lemma {:induction false} StripCommasAppend(a: string, b: string)
    ensures StripCommas(a + b) == StripCommas(a) + StripCommas(b)
  {
    if a != [] {
      var head := if a[0] == ',' then [] else [a[0]];
      assert (a + b)[0] == a[0];
      assert (a + b)[1..] == a[1..] + b;
      StripCommasAppend(a[1..], b);
      calc {
        StripCommas(a + b);
        head + StripCommas(a[1..] + b);
        head + (StripCommas(a[1..]) + StripCommas(b));
        (head + StripCommas(a[1..])) + StripCommas(b);
        StripCommas(a) + StripCommas(b);
      }
    } else {
      assert a + b == b;
    }
  }

  lemma {:induction false} StripCommasOfDigits(d: string)
    requires AllDigits(d)
    ensures StripCommas(d) == d
  {
    if d != [] {
      StripCommasOfDigits(d[1..]);
    }
  }

  /** Deleting the commas of a grouped digit string gives the digits back. */
  lemma {:induction false} GroupStripsBack(d: string)
    requires AllDigits(d)
    ensures StripCommas(Group(d)) == d
  {
    if |d| <= 3 {
      StripCommasOfDigits(d);
    } else {
      var hi, lo := d[..|d| - 3], d[|d| - 3..];
      GroupStripsBack(hi);
      StripCommasAppend(Group(hi) + ",", lo);
      StripCommasAppend(Group(hi), ",");
      StripCommasOfDigits(lo);
      assert hi + lo == d;
    }
  }

  /** Grouping a non-empty digit string yields a well-formed grouping. */
  lemma {:induction false} GroupIsGrouped(d: string)
    requires AllDigits(d) && |d| >= 1
    ensures Grouped(Group(d))
  {
    if |d| > 3 {
      var hi, lo := d[..|d| - 3], d[|d| - 3..];
      GroupIsGrouped(hi);
      var g := Group(d);
      assert g == Group(hi) + "," + lo;
      assert g[..|g| - 4] == Group(hi);
      assert g[|g| - 3..] == lo;
    }
  }

  /** A comma appears in a grouped digit string exactly when there are more than three digits. */
  lemma GroupHasComma(d: string)
    requires AllDigits(d)
    ensures ',' in Group(d) <==> |d| > 3
  {
  }

  lemma {:induction false} GroupStartsWithDigit(d: string)
    requires AllDigits(d) && |d| >= 1
    ensures |Group(d)| >= 1 && IsDigit(Group(d)[0])
  {
    if |d| > 3 {
      GroupStartsWithDigit(d[..|d| - 3]);
    }
  }

  /** The documented example. */
  lemma FormatCountExample()
    ensures FormatCount(1247) == "1,247"
  {
  }

  /** Counts between -999 and 999 carry no comma; all others carry at least one. */
  lemma FormatCountComma(count: Int32)
    ensures ',' in FormatCount(count) <==> (count <= -1000 || count >= 1000)
  {
    var m := Magnitude(count);
    GroupHasComma(Digits(m));
    DigitsLength(m, 3);
    assert Pow10(3) == 1000;
  }

  /** Reading a formatted count back gives the count: formatting loses nothing. */
  lemma FormatCountRoundTrip(count: Int32)
    ensures ParseCount(FormatCount(count)) == Some(count as int)
  {
    var m := Magnitude(count);
    var s := FormatCount(count);
    GroupStripsBack(Digits(m));
    ValueOfDigits(m);
    var body := StripCommas(if count < 0 then s[1..] else s);
    if count < 0 {
      assert s[1..] == Group(Digits(m));
    } else {
      assert s == Group(Digits(m));
    }
    assert body == Digits(m);
    assert Value(body) == m;
  }

  // ---------------------------------------------------------------------------
  // Card data
  // ---------------------------------------------------------------------------

  datatype PostCardData = PostCardData(imageUrl: string, username: string, timeAgo: string, text: string)

  /**
   * `Post.toPostCardData()`, over the three fields it reads: the image URL and the
   * text are copied, the time-ago phrase is computed, and the user name keeps its
   * default.
   */
  function ToPostCardData(imageUrl: string, createdDate: string, text: string,
                          parse: string -> Option<int>, now: int): (c: PostCardData)
    ensures c.imageUrl == imageUrl && c.text == text
    ensures c.username == DefaultUsername
    ensures c.timeAgo == CalculateTimeAgo(createdDate, parse, now)
    ensures c.timeAgo == "Recently" <==> parse(Normalize(createdDate)).None?
  {
    PostCardData(imageUrl, DefaultUsername, CalculateTimeAgo(createdDate, parse, now), text)
  }
}
