/**
 * The trend-analytics date range: the earliest and latest transaction date
 * across all uploaded data, the clamping of the remembered range into them,
 * and the two date inputs' change handlers. Dates are `YYYY-MM-DD` strings
 * compared with JavaScript's string `<`.
 */
module AnalyticsRange {
  import opened Wrappers
  import opened Strings
  import opened Transactions

  /** `d` is the date string of one of the transactions, and not empty. */
  predicate IsDataDate(txns: seq<Transaction>, d: string) {
    d != "" && exists j | 0 <= j < |txns| :: DateStr(txns[j]) == d
  }

  /** `a <= b` on strings. */
  predicate AtMost(a: string, b: string) {
    !Less(b, a)
  }

  /**
   * The `txns.forEach` of `loadBounds`: the smallest and the largest
   * non-empty date string, or none of either when no transaction has a date.
   */
  method DataBounds(txns: seq<Transaction>) returns (min: Option<string>, max: Option<string>)
    ensures min.None? <==> forall j | 0 <= j < |txns| :: DateStr(txns[j]) == ""
    ensures max.None? <==> min.None?
    ensures min.Some? ==> IsDataDate(txns, min.value) && IsDataDate(txns, max.value)
    ensures min.Some? ==> forall j | 0 <= j < |txns| && DateStr(txns[j]) != "" ::
                            AtMost(min.value, DateStr(txns[j])) && AtMost(DateStr(txns[j]), max.value)
    ensures min.Some? ==> AtMost(min.value, max.value)
  {
    min, max := None, None;
    for i := 0 to |txns|
      invariant max.None? <==> min.None?
      invariant min.None? <==> forall j | 0 <= j < i :: DateStr(txns[j]) == ""
      invariant min.Some? ==> IsDataDate(txns[..i], min.value) && IsDataDate(txns[..i], max.value)
      invariant min.Some? ==> forall j | 0 <= j < i && DateStr(txns[j]) != "" ::
                                AtMost(min.value, DateStr(txns[j])) && AtMost(DateStr(txns[j]), max.value)
    {
      var dateStr := DateStr(txns[i]);
      if dateStr == "" {
        assert txns[..i + 1][..i] == txns[..i];
        continue;
      }
      if min.None? || Less(dateStr, min.value) {
        if min.Some? {
          forall j | 0 <= j < i && DateStr(txns[j]) != "" ensures AtMost(dateStr, DateStr(txns[j])) {
            if Less(DateStr(txns[j]), dateStr) {
              LessTransitive(DateStr(txns[j]), dateStr, min.value);
            }
          }
        }
        min := Some(dateStr);
      }
      if max.None? || Less(max.value, dateStr) {
        if max.Some? {
          forall j | 0 <= j < i && DateStr(txns[j]) != "" ensures AtMost(DateStr(txns[j]), dateStr) {
            if Less(dateStr, DateStr(txns[j])) {
              LessTransitive(max.value, dateStr, DateStr(txns[j]));
            }
          }
        }
        max := Some(dateStr);
      }
      LessIrreflexive(dateStr);
      LessTotal(min.value, dateStr);
      LessTotal(dateStr, max.value);
      assert txns[..i + 1][..i] == txns[..i] && txns[..i + 1][i] == txns[i];
    }
    assert txns[..|txns|] == txns;
    if min.Some? {
      var j :| 0 <= j < |txns| && DateStr(txns[j]) == max.value;
    }
  }

  /** `setStartDate((prev) => ...)` once the bounds are known: an empty start becomes `min`, one outside is pulled in. */
  function ClampStart(prev: string, min: string, max: string): string {
    if prev == "" then min
    else if Less(prev, min) then min
    else if Less(max, prev) then max
    else prev
  }

  /** `setEndDate((prev) => ...)`: an empty end becomes `max`, one outside is pulled in. */
  function ClampEnd(prev: string, min: string, max: string): string {
    if prev == "" then max
    else if Less(max, prev) then max
    else if Less(prev, min) then min
    else prev
  }

  /**
   * With `min <= max`, both clamps land in `min..max`, leave a non-empty
   * date already there as it is, and agree on every non-empty date.
   */
  lemma ClampsIntoBounds(prev: string, min: string, max: string)
    requires AtMost(min, max)
    ensures AtMost(min, ClampStart(prev, min, max)) && AtMost(ClampStart(prev, min, max), max)
    ensures AtMost(min, ClampEnd(prev, min, max)) && AtMost(ClampEnd(prev, min, max), max)
    ensures prev != "" && AtMost(min, prev) && AtMost(prev, max) ==>
              ClampStart(prev, min, max) == prev && ClampEnd(prev, min, max) == prev
    ensures prev != "" ==> ClampStart(prev, min, max) == ClampEnd(prev, min, max)
  {
    LessIrreflexive(min);
    LessIrreflexive(max);
    if Less(prev, min) && Less(max, prev) {
      LessTransitive(max, prev, min);
    }
    if Less(prev, min) {
      LessTotal(prev, max);
      if Less(max, prev) {
        LessTransitive(max, prev, min);
      }
    }
    if Less(max, prev) {
      LessTotal(min, prev);
      if Less(prev, min) {
        LessTransitive(max, prev, min);
      }
    }
    LessTotal(min, max);
  }

  /** A date string is truthy when it is present and not empty. */
  predicate Truthy(d: Option<string>) {
    d.Some? && d.value != ""
  }

  /** The panel's range state: the chosen dates and the bounds of the data. */
  class TrendRange {
    var startDate: string
    var endDate: string
    var dataMinDate: Option<string>
    var dataMaxDate: Option<string>

    /**
     * `localStorage.getItem(...) || defaultStartDate()`, likewise for the
     * end; no bounds are known yet. The defaults come from the clock and are
     * passed in.
     */
    constructor(storedStart: Option<string>, storedEnd: Option<string>, defaultStart: string, defaultEnd: string)
      ensures startDate == OrElse(storedStart, defaultStart) && endDate == OrElse(storedEnd, defaultEnd)
      ensures dataMinDate.None? && dataMaxDate.None?
    {
      startDate := OrElse(storedStart, defaultStart);
      endDate := OrElse(storedEnd, defaultEnd);
      dataMinDate, dataMaxDate := None, None;
    }

    /** The end of `loadBounds`: the bounds are stored and, when both are known, the range is clamped into them. */
    method ApplyBounds(min: Option<string>, max: Option<string>)
      modifies this
      ensures dataMinDate == min && dataMaxDate == max
      ensures Truthy(min) && Truthy(max) ==>
                startDate == ClampStart(old(startDate), min.value, max.value)
                && endDate == ClampEnd(old(endDate), min.value, max.value)
      ensures !(Truthy(min) && Truthy(max)) ==> startDate == old(startDate) && endDate == old(endDate)
    {
      dataMinDate := min;
      dataMaxDate := max;
      if Truthy(min) && Truthy(max) {
        startDate := ClampStart(startDate, min.value, max.value);
        endDate := ClampEnd(endDate, min.value, max.value);
      }
    }

    /**
     * The start input's `onChange`. An emptied input falls back to the
     * earliest data date, when known; a date takes its place. Either way an
     * end before the new start is moved up to it.
     */
    method OnStartChange(newStart: string)
      modifies this
      ensures dataMinDate == old(dataMinDate) && dataMaxDate == old(dataMaxDate)
      ensures startDate == (if newStart != "" then newStart
                            else if Truthy(dataMinDate) then dataMinDate.value
                            else old(startDate))
      ensures endDate == (if (newStart != "" || Truthy(dataMinDate)) && old(endDate) != "" && Less(old(endDate), startDate)
                          then startDate else old(endDate))
      ensures (newStart != "" || Truthy(dataMinDate)) && old(endDate) != "" ==> AtMost(startDate, endDate)
    {
      if newStart == "" {
        if Truthy(dataMinDate) {
          startDate := dataMinDate.value;
          if endDate != "" && Less(endDate, dataMinDate.value) {
            endDate := dataMinDate.value;
          }
        }
        LessIrreflexive(startDate);
        return;
      }
      startDate := newStart;
      if endDate != "" && Less(endDate, newStart) {
        endDate := newStart;
      }
      LessIrreflexive(startDate);
    }

    /**
     * The end input's `onChange`. An emptied input falls back to the latest
     * data date, when known; a date before the start is replaced by the
     * start; any other date takes its place.
     */
    method OnEndChange(newEnd: string)
      modifies this
      ensures startDate == old(startDate) && dataMinDate == old(dataMinDate) && dataMaxDate == old(dataMaxDate)
      ensures newEnd == "" ==> endDate == (if Truthy(dataMaxDate) then dataMaxDate.value else old(endDate))
      ensures newEnd != "" ==> endDate == (if startDate != "" && Less(newEnd, startDate) then startDate else newEnd)
      ensures newEnd != "" && startDate != "" ==> AtMost(startDate, endDate)
    {
      if newEnd == "" {
        if Truthy(dataMaxDate) {
          endDate := dataMaxDate.value;
        }
        return;
      }
      if startDate != "" && Less(newEnd, startDate) {
        endDate := startDate;
      } else {
        endDate := newEnd;
      }
      LessIrreflexive(startDate);
    }
  }
}
