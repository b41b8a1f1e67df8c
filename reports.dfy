/**
 * The reports page (src/pages/Reports.tsx): the item count and total value
 * it loads, the report buttons and when they are disabled.
 */
module Reports {
  import opened Wrappers
  import opened Types
  import opened Lists
  import opened Toasts
  import Inventory

  /** A row of `select("estimated_value")`. */
  datatype ValueRow = ValueRow(estimatedValue: Option<real>)

  /** What the select of the caller's values resolves to. */
  datatype StatsSelect = StatsErr(message: string) | StatsOk(rows: seq<ValueRow>)

  const ComingSoonToast := Toast(false, "Report Generation Coming Soon", "PDF generation feature will be available soon!")
  const EmailSoonToast := Toast(false, "Email Feature Coming Soon", "Email automation will be available soon!")

  function RowValue(row: ValueRow): Option<real> {
    row.estimatedValue
  }

  /** The total of the selected values, null counted as 0. */
  function ReportTotal(rows: seq<ValueRow>): real {
    SumBy(rows, RowValue)
  }

  /** The report total agrees with the inventory page's total for the same values. */
  lemma ReportTotalMatchesInventory(rows: seq<ValueRow>, items: seq<Inventory.ListedItem>)
    requires |rows| == |items|
    requires forall i :: 0 <= i < |rows| ==> rows[i].estimatedValue == items[i].estimatedValue
    ensures ReportTotal(rows) == Inventory.TotalValue(items)
  {
    SumBySameValues(rows, items, RowValue, Inventory.EstimatedValue);
  }

  class ReportsPage {
    var itemCount: nat
    var totalValue: real
    var loading: bool
    var generating: bool

    constructor ()
      ensures itemCount == 0 && totalValue == 0.0 && loading && !generating
    {
      itemCount, totalValue, loading, generating := 0, 0.0, true, false;
    }

    /** "Generate PDF Report" is disabled while generating and when there are no items. */
    predicate GenerateDisabled()
      reads this
    {
      generating || itemCount == 0
    }

    /** "Email Report" is disabled when there are no items. */
    predicate EmailDisabled()
      reads this
    {
      itemCount == 0
    }

    /** Both buttons are enabled only with items, and Generate also needs no report in progress. */
    lemma ButtonsNeedItems()
      ensures itemCount == 0 ==> GenerateDisabled() && EmailDisabled()
      ensures generating ==> GenerateDisabled()
      ensures !GenerateDisabled() <==> itemCount > 0 && !generating
      ensures !EmailDisabled() <==> itemCount > 0
    {
    }

    /**
     * `fetchStats`: count and total the caller's rows. On any failure the
     * statistics are kept; loading ends either way.
     */
    method FetchStats(user: Option<AuthUser>, select: string -> StatsSelect) returns (toast: Option<Toast>)
      modifies this`itemCount, this`totalValue, this`loading
      ensures !loading
      ensures user.None? ==>
                itemCount == old(itemCount) && totalValue == old(totalValue)
                && toast == Some(ErrorToast(NotAuthenticatedMessage))
      ensures user.Some? && select(user.value.id).StatsErr? ==>
                itemCount == old(itemCount) && totalValue == old(totalValue)
                && toast == Some(ErrorToast(select(user.value.id).message))
      ensures user.Some? && select(user.value.id).StatsOk? ==>
                itemCount == |select(user.value.id).rows|
                && totalValue == ReportTotal(select(user.value.id).rows)
                && toast.None?
    {
      toast := None;
      if user.None? {
        toast := Some(ErrorToast(NotAuthenticatedMessage));
      } else {
        match select(user.value.id)
        case StatsErr(m) =>
          toast := Some(ErrorToast(m));
        case StatsOk(rows) =>
          itemCount := |rows|;
          totalValue := ReportTotal(rows);
      }
      loading := false;
    }

    /**
     * `handleGenerateReport`: shows a notice and produces no report.
     * `generatingWhileRunning` is a snapshot of `generating` taken just before
     * the notice is raised; `generating` ends false.
     */
    method HandleGenerateReport() returns (toast: Toast, generatingWhileRunning: bool)
      modifies this`generating
      ensures generatingWhileRunning && !generating
      ensures toast == ComingSoonToast
    {
      generating := true;
      generatingWhileRunning := generating;
      toast := ComingSoonToast;
      generating := false;
    }

    /** `handleEmailReport`: shows a notice and changes nothing. */
    method HandleEmailReport() returns (toast: Toast)
      ensures toast == EmailSoonToast
    {
      toast := EmailSoonToast;
    }
  }
}
