/** The lot expiry screen: days to expiry as a ceiling division of the
    millisecond difference, the four-way expiry status, the alert list and
    the remaining-days hint. The current time is a parameter. */
module LotTracking {
  import opened Wrappers
  import opened Records
  import Seqs

  /** Milliseconds in a day, `1000 * 60 * 60 * 24`. */
  const DayMillis: int := 86400000

  /** `getDaysToExpiry`: no expiry gives no count; otherwise
      `Math.ceil((expiry - now) / DayMillis)`. */
  function DaysToExpiry(expiry: Option<int>, now: int): (r: Option<int>)
    ensures r.None? <==> expiry.None?
    ensures r.Some? ==> (r.value - 1) * DayMillis < expiry.value - now <= r.value * DayMillis
  {
    match expiry
    case None => None
    case Some(e) => Some(-((now - e) / DayMillis))
  }

  datatype ExpiryStatus = NotApplicable | Expired | ExpiringSoon | Current

  /** `getExpiryStatus`: N/A, Vencido, Próximo a vencer or Vigente. */
  function StatusOf(days: Option<int>): ExpiryStatus {
    match days
    case None => NotApplicable
    case Some(d) => if d < 0 then Expired else if d <= 7 then ExpiringSoon else Current
  }

  /** The status depends on the day count exactly as the bands say: unknown
      without a count, expired below zero, expiring soon from 0 to 7 days,
      current beyond. */
  lemma StatusBands(days: Option<int>)
    ensures StatusOf(days) == NotApplicable <==> days.None?
    ensures StatusOf(days) == Expired <==> days.Some? && days.value < 0
    ensures StatusOf(days) == ExpiringSoon <==> days.Some? && 0 <= days.value <= 7
    ensures StatusOf(days) == Current <==> days.Some? && 7 < days.value
  {
  }

  /** The same bands in milliseconds: a lot is only shown as expired once its
      expiry lies a full day or more in the past; within the last day before
      and up to seven days after now it is expiring soon. */
  lemma StatusInMillis(expiry: int, now: int)
    ensures StatusOf(DaysToExpiry(Some(expiry), now)) == Expired <==> expiry - now <= -DayMillis
    ensures StatusOf(DaysToExpiry(Some(expiry), now)) == ExpiringSoon <==> -DayMillis < expiry - now <= 7 * DayMillis
    ensures StatusOf(DaysToExpiry(Some(expiry), now)) == Current <==> 7 * DayMillis < expiry - now
  {
    var d := DaysToExpiry(Some(expiry), now).value;
    var diff := expiry - now;
    if d < 0 {
      assert d * DayMillis <= -DayMillis;
    } else {
      assert 0 <= d * DayMillis;
    }
    if d <= 7 {
      assert d * DayMillis <= 7 * DayMillis;
    } else {
      assert 8 * DayMillis <= d * DayMillis;
    }
  }

  /** `getExpiredLots`: the lots with a day count of at most seven. */
  function Alerts(lots: seq<Lot>, now: int): (r: seq<Lot>)
    ensures |r| <= |lots|
  {
    Seqs.Filter(lots, (l: Lot) => var days := DaysToExpiry(l.expiryMillis, now); days.Some? && days.value <= 7)
  }

  /** A lot is in the alert list exactly when its status is expired or
      expiring soon. */
  lemma AlertsAreExpiredOrExpiring(lots: seq<Lot>, now: int, l: Lot)
    requires l in lots
    ensures l in Alerts(lots, now) <==> StatusOf(DaysToExpiry(l.expiryMillis, now)) in {Expired, ExpiringSoon}
  {
    var r := Alerts(lots, now);
    if l in r {
      var i :| 0 <= i < |r| && r[i] == l;
    } else {
      var i :| 0 <= i < |lots| && lots[i] == l;
    }
  }

  /** The "n día(s) restantes" hint: shown with the count when it is positive. */
  function RemainingDaysHint(days: Option<int>): (r: Option<int>)
    ensures r.Some? ==> days == r && 0 < r.value
  {
    if days.Some? && days.value > 0 then days else None
  }

  /** The hint appears exactly for lots whose expiry is still in the future. */
  lemma HintShownIffNotExpired(expiry: Option<int>, now: int)
    ensures RemainingDaysHint(DaysToExpiry(expiry, now)).Some? <==> expiry.Some? && now < expiry.value
  {
    if expiry.Some? {
      var d := DaysToExpiry(expiry, now).value;
      if d > 0 {
        assert 0 <= (d - 1) * DayMillis;
      } else {
        assert d * DayMillis <= 0;
      }
    }
  }
}
