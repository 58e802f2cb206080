/** Month names, month lookup and the calendar arithmetic behind forecast labels. */
module Calendar {

  /** The twelve Turkish month names, January first. */
  const Months: seq<string> :=
    ["Ocak", "Şubat", "Mart", "Nisan", "Mayıs", "Haziran",
     "Temmuz", "Ağustos", "Eylül", "Ekim", "Kasım", "Aralık"]

  lemma MonthsDistinct()
    ensures |Months| == 12
    ensures forall i, j :: 0 <= i < j < |Months| ==> Months[i] != Months[j]
  {
  }

  /** Reference definition of the month lookup: the position of `name` in
      Months, or -1 for any other name. */
  function MonthIndex(name: string): (idx: int)
    ensures -1 <= idx < 12
  {
    if name == "Ocak" then 0 else if name == "Şubat" then 1 else if name == "Mart" then 2
    else if name == "Nisan" then 3 else if name == "Mayıs" then 4 else if name == "Haziran" then 5
    else if name == "Temmuz" then 6 else if name == "Ağustos" then 7 else if name == "Eylül" then 8
    else if name == "Ekim" then 9 else if name == "Kasım" then 10 else if name == "Aralık" then 11
    else -1
  }

  /** The lookup returns -1 exactly for names outside Months, and otherwise the
      position holding the name, which is the only one. */
  lemma MonthIndexFinds(name: string)
    ensures MonthIndex(name) == -1 <==> name !in Months
    ensures MonthIndex(name) != -1 ==>
              Months[MonthIndex(name)] == name &&
              forall j :: 0 <= j < |Months| && j != MonthIndex(name) ==> Months[j] != name
  {
    MonthsDistinct();
    if MonthIndex(name) == -1 {
      forall j | 0 <= j < |Months|
        ensures Months[j] != name
      {
      }
    }
  }

  /** getMonthIndex: a linear search with an early return. */
  method GetMonthIndex(monthName: string) returns (idx: int)
    ensures idx == MonthIndex(monthName)
    ensures idx == -1 <==> monthName !in Months
    ensures idx != -1 ==> 0 <= idx < 12 && Months[idx] == monthName
    ensures idx != -1 ==> forall j :: 0 <= j < idx ==> Months[j] != monthName
  {
    for i := 0 to |Months|
      invariant forall j :: 0 <= j < i ==> Months[j] != monthName
    {
      if Months[i] == monthName {
        MonthIndexFinds(monthName);
        return i;
      }
    }
    MonthIndexFinds(monthName);
    return -1;
  }

  /** A calendar date as Go's time package sees it: month 1..12, day 1..31. */
  datatype Date = Date(year: int, month: int, day: int)

  predicate IsLeap(year: int)
  {
    year % 4 == 0 && (year % 100 != 0 || year % 400 == 0)
  }

  function DaysIn(year: int, month: int): (n: int)
    requires 1 <= month <= 12
    ensures 28 <= n <= 31
  {
    if month == 2 then (if IsLeap(year) then 29 else 28)
    else if month == 4 || month == 6 || month == 9 || month == 11 then 30
    else 31
  }

  predicate ValidDate(d: Date)
  {
    1 <= d.month <= 12 && 1 <= d.day <= DaysIn(d.year, d.month)
  }

  /** `t.AddDate(0, k, 0)`: move `k` months forward, keep the day, and let a
      day past the end of the target month spill into the next month. A
      December target has 31 days, so the spill never crosses a year. */
  function AddMonths(t: Date, k: nat): (r: Date)
    requires ValidDate(t)
    ensures ValidDate(r)
    ensures var target := (t.month - 1 + k) % 12 + 1;
            r.month == target || (target < 12 && r.month == target + 1 && r.day <= 3)
    ensures var months := t.month - 1 + k;
            var y, m := t.year + months / 12, months % 12 + 1;
            r.year == y &&
            (r.month == m <==> t.day <= DaysIn(y, m)) &&
            (r.month == m ==> r.day == t.day) &&
            (r.month != m ==> r.day == t.day - DaysIn(y, m))
    ensures t.day <= 28 ==> r.month == (t.month - 1 + k) % 12 + 1 && r.day == t.day
  {
    var months := t.month - 1 + k;
    var y, m := t.year + months / 12, months % 12 + 1;
    if t.day <= DaysIn(y, m) then Date(y, m, t.day)
    else Date(y, m + 1, t.day - DaysIn(y, m))
  }

  /** January 31 plus one month is March 3 in a non-leap year, as Go normalises it. */
  lemma AddMonthsSpillsOver()
    ensures AddMonths(Date(2025, 1, 31), 1) == Date(2025, 3, 3)
  {
  }

  /** getMonthName: the Turkish name of the month of `t`. */
  function MonthName(t: Date): (name: string)
    requires ValidDate(t)
    ensures name in Months
    ensures MonthIndex(name) == t.month - 1
  {
    MonthsDistinct();
    MonthIndexFinds(Months[t.month - 1]);
    Months[t.month - 1]
  }
}
