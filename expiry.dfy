/**
 * The expiry status of a vaccination, computed in two places of the
 * vaccination list screen: the downloadable report and the on-screen card.
 * `daysLeft` is `ceil((valid_until - now) / 1 day)`, or absent when the record
 * has no `valid_until`; the clock and the date arithmetic are abstracted into
 * the function `daysUntil` that the caller supplies. `daysUntil` gives `None`
 * for a text that does not parse as a date: the source then computes NaN,
 * which fails every comparison exactly as a missing value does.
 */
module Expiry {
  import opened Base
  import opened Entities

  /** A record's expiry class from its days left: the report prints it, and the card shows it unless expired. */
  datatype Status = Expired | AboutToExpire | Good | Unclassified

  function Classify(daysLeft: Option<int>): Status {
    match daysLeft
    case None => Unclassified
    case Some(d) => if d < 0 then Expired else if d <= 10 then AboutToExpire else Good
  }

  /**
   * `daysLeft` of a record: computed only when `valid_until` is truthy,
   * otherwise null; an unparseable date gives no number either.
   */
  function DaysLeft(v: Vaccination, daysUntil: string -> Option<int>): (d: Option<int>)
    ensures !Truthy(v.validUntil) ==> d.None?
    ensures Truthy(v.validUntil) ==> d == daysUntil(v.validUntil.value)
    ensures d.Some? <==> Truthy(v.validUntil) && daysUntil(v.validUntil.value).Some?
  {
    if Truthy(v.validUntil) then daysUntil(v.validUntil.value) else None
  }

  /** The report's status column. */
  function ReportStatus(daysLeft: Option<int>): (r: string)
    ensures r == "" <==> daysLeft.None?
    ensures r == "About to expire" <==> daysLeft.Some? && 0 <= daysLeft.value <= 10
    ensures r == "Good" <==> daysLeft.Some? && daysLeft.value > 10
    ensures r == "Expired" <==> daysLeft.Some? && daysLeft.value < 0
    ensures r == ReportText(Classify(daysLeft))
  {
    var status := "";
    if daysLeft.Some? then
      var d := daysLeft.value;
      if d <= 10 && d >= 0 then "About to expire"
      else if d > 10 then "Good"
      else if d < 0 then "Expired"
      else status
    else status
  }

  function ReportText(s: Status): string {
    match s
    case Expired => "Expired"
    case AboutToExpire => "About to expire"
    case Good => "Good"
    case Unclassified => ""
  }

  /** What a card shows under the record: a red dot, a green dot, or nothing. */
  datatype Indicator = RedAboutToExpire | GreenGood | NoIndicator

  /** The card's status indicator. */
  function CardIndicator(daysLeft: Option<int>): (r: Indicator)
    ensures r == RedAboutToExpire <==> daysLeft.Some? && 0 <= daysLeft.value <= 10
    ensures r == GreenGood <==> daysLeft.Some? && daysLeft.value > 10
    ensures r == NoIndicator <==> daysLeft.None? || daysLeft.value < 0
    ensures IndicatedStatus(r) == Classify(daysLeft) <==> !(daysLeft.Some? && daysLeft.value < 0)
  {
    match daysLeft
    case None => NoIndicator
    case Some(d) =>
      if d <= 10 && d >= 0 then RedAboutToExpire
      else if d > 10 then GreenGood
      else NoIndicator
  }

  /** The status a reader of the card infers from its indicator. */
  function IndicatedStatus(i: Indicator): Status {
    match i
    case RedAboutToExpire => AboutToExpire
    case GreenGood => Good
    case NoIndicator => Unclassified
  }

  /**
   * The report and the card agree on every record except an expired one: the
   * report prints "Expired" where the card shows no indicator at all.
   */
  lemma ReportAndCardAgreeUnlessExpired(v: Vaccination, daysUntil: string -> Option<int>)
    ensures var d := DaysLeft(v, daysUntil);
      (ReportText(IndicatedStatus(CardIndicator(d))) == ReportStatus(d))
        <==> Classify(d) != Expired
    ensures var d := DaysLeft(v, daysUntil);
      Classify(d) == Expired ==> ReportStatus(d) == "Expired" && CardIndicator(d) == NoIndicator
  {
  }
}
