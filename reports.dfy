/** The reports page (locust-dashboard/src/pages/Reports.js): the report
    table's status chip and download button, and the generate dialog with
    its three selectors. */
module Reports {

  /** `getStatusColor`. */
  function StatusColor(status: string): (color: string)
    ensures color == "success" <==> status == "Ready"
    ensures color == "warning" <==> status == "Generating"
    ensures color == "error" <==> status == "Failed"
    ensures color == "default" <==> status !in {"Ready", "Generating", "Failed"}
  {
    match status
    case "Ready" => "success"
    case "Generating" => "warning"
    case "Failed" => "error"
    case _ => "default"
  }

  /** The download button is disabled unless the report is ready. */
  predicate DownloadDisabled(status: string) {
    status != "Ready"
  }

  /** Exactly the reports whose chip is green can be downloaded. */
  lemma DownloadWhenGreen(status: string)
    ensures !DownloadDisabled(status) <==> StatusColor(status) == "success"
  {
  }

  datatype ReportConfig = ReportConfig(reportType: string, format: string, dateRange: string)

  class Page {
    var open: bool
    var config: ReportConfig

    constructor ()
      ensures !open && config == ReportConfig("performance", "pdf", "7d")
    {
      open := false;
      config := ReportConfig("performance", "pdf", "7d");
    }

    /** The Generate Report button. */
    method OpenDialog()
      modifies this
      ensures open && config == old(config)
    {
      open := true;
    }

    /** The dialog's Cancel button or its backdrop. */
    method CloseDialog()
      modifies this
      ensures !open && config == old(config)
    {
      open := false;
    }

    method SetReportType(value: string)
      modifies this
      ensures config == old(config).(reportType := value) && open == old(open)
    {
      config := config.(reportType := value);
    }

    method SetFormat(value: string)
      modifies this
      ensures config == old(config).(format := value) && open == old(open)
    {
      config := config.(format := value);
    }

    method SetDateRange(value: string)
      modifies this
      ensures config == old(config).(dateRange := value) && open == old(open)
    {
      config := config.(dateRange := value);
    }

    /** `handleGenerateReport`: the dialog closes and the configuration is
        kept for next time. */
    method HandleGenerateReport()
      modifies this
      ensures !open && config == old(config)
    {
      open := false;
    }
  }
}
