/**
 * The Gmail search query built from a sender and an optional date range:
 * `from:<sender>[ after:YYYY/MM/DD][ before:YYYY/MM/DD]`.
 * `ParseClauses` reads the date clauses back; the round trip shows that the query
 * carries exactly the given bounds, each at most once, `after` before `before`.
 */
module QueryBuilder {
  import opened Mail
  import opened Text

  /** A calendar date as `datetime.strptime(…, '%Y-%m-%d')` yields it. */
  datatype Date = Date(year: nat, month: nat, day: nat)

  predicate ValidDate(d: Date) {
    1 <= d.year <= 9999 && 1 <= d.month <= 12 && 1 <= d.day <= 31
  }

  function Pow10(w: nat): (p: nat)
    ensures p >= 1
  {
    if w == 0 then 1 else 10 * Pow10(w - 1)
  }

  /** The last `width` decimal digits of `n`, zero-padded: strftime's `%Y`, `%m`, `%d`. */
  function Fixed(n: nat, width: nat): (s: string)
    ensures |s| == width
    ensures forall i | 0 <= i < |s| :: IsDigit(s[i])
  {
    if width == 0 then "" else Fixed(n / 10, width - 1) + [DigitChar(n % 10)]
  }

  lemma {:induction false} FixedRoundTrip(n: nat, width: nat)
    requires n < Pow10(width)
    ensures DigitsValue(Fixed(n, width)) == n
  {
    if width > 0 {
      assert n / 10 < Pow10(width - 1);
      FixedRoundTrip(n / 10, width - 1);
      var s := Fixed(n, width);
      assert s[..|s| - 1] == Fixed(n / 10, width - 1);
    }
  }

  /** `date.strftime("%Y/%m/%d")`. */
  function Slashed(d: Date): string {
    Fixed(d.year, 4) + "/" + Fixed(d.month, 2) + "/" + Fixed(d.day, 2)
  }

  /** Reads a `YYYY/MM/DD` text back into a date. */
  function Unslash(s: string): Option<Date> {
    if |s| == 10 && s[4] == '/' && s[7] == '/' && AllDigits(s[..4]) && AllDigits(s[5..7]) && AllDigits(s[8..])
    then Some(Date(DigitsValue(s[..4]), DigitsValue(s[5..7]), DigitsValue(s[8..])))
    else None
  }

  lemma SlashedRoundTrip(d: Date)
    requires ValidDate(d)
    ensures Unslash(Slashed(d)) == Some(d)
  {
    var s := Slashed(d);
    assert s[..4] == Fixed(d.year, 4);
    assert s[5..7] == Fixed(d.month, 2);
    assert s[8..] == Fixed(d.day, 2);
    FixedRoundTrip(d.year, 4);
    FixedRoundTrip(d.month, 2);
    FixedRoundTrip(d.day, 2);
  }

  function AfterClause(start: Option<Date>): string {
    match start
    case Some(d) => " after:" + Slashed(d)
    case None => ""
  }

  function BeforeClause(end: Option<Date>): string {
    match end
    case Some(d) => " before:" + Slashed(d)
    case None => ""
  }

  /** `get_emails`' query: `from:` and the sender, then the optional after and before clauses. */
  function BuildQuery(sender: string, start: Option<Date>, end: Option<Date>): string {
    "from:" + sender + AfterClause(start) + BeforeClause(end)
  }

  /** Reads an optional ` before:YYYY/MM/DD` that must end the text. */
  function ParseBefore(s: string): Option<Option<Date>> {
    if s == "" then Some(None)
    else if |s| == 18 && s[..8] == " before:" then
      match Unslash(s[8..])
      case Some(d) => Some(Some(d))
      case None => None
    else None
  }

  /** Reads the date clauses that follow `from:<sender>`: an optional after clause, then an optional before clause. */
  function ParseClauses(rest: string): Option<(Option<Date>, Option<Date>)> {
    if |rest| >= 17 && rest[..7] == " after:" then
      match Unslash(rest[7..17])
      case None => None
      case Some(d) =>
        match ParseBefore(rest[17..])
        case None => None
        case Some(e) => Some((Some(d), e))
    else
      match ParseBefore(rest)
      case None => None
      case Some(e) => Some((None, e))
  }

  lemma BeforeClauseParses(end: Option<Date>)
    requires end.Some? ==> ValidDate(end.value)
    ensures ParseBefore(BeforeClause(end)) == Some(end)
  {
    if end.Some? {
      var b := BeforeClause(end);
      SlashedRoundTrip(end.value);
      assert b[..8] == " before:";
      assert b[8..] == Slashed(end.value);
    }
  }

  lemma {:induction false} ClausesParse(start: Option<Date>, end: Option<Date>)
    requires start.Some? ==> ValidDate(start.value)
    requires end.Some? ==> ValidDate(end.value)
    ensures ParseClauses(AfterClause(start) + BeforeClause(end)) == Some((start, end))
  {
    var b := BeforeClause(end);
    var rest := AfterClause(start) + b;
    BeforeClauseParses(end);
    if start.Some? {
      SlashedRoundTrip(start.value);
      assert rest[..7] == " after:";
      assert rest[7..17] == Slashed(start.value);
      assert rest[17..] == b;
    } else {
      assert rest == b;
      if |b| >= 17 {
        assert b[1] == 'b';
        assert b[..7] != " after:";
      }
    }
  }

  /**
   * The query starts with `from:` and the sender, and what follows reads back as
   * exactly the given bounds: an after clause only for a start date, a before
   * clause only for an end date, in that order.
   */
  lemma QueryRoundTrip(sender: string, start: Option<Date>, end: Option<Date>)
    requires start.Some? ==> ValidDate(start.value)
    requires end.Some? ==> ValidDate(end.value)
    ensures var q := BuildQuery(sender, start, end);
            |q| >= 5 + |sender| && q[..5 + |sender|] == "from:" + sender &&
            ParseClauses(q[5 + |sender|..]) == Some((start, end))
  {
    var head := "from:" + sender;
    var rest := AfterClause(start) + BeforeClause(end);
    ClausesParse(start, end);
    assert BuildQuery(sender, start, end) == head + rest;
    assert (head + rest)[|head|..] == rest;
    assert (head + rest)[..|head|] == head;
  }
}
