/** The sales page's export panel: the date range, format and data choices,
    the guard on the export button, the export type handed to the page, and
    the page's alert that names the exported data again. */
module ExportTools {
  import opened Wrappers
  import opened Text

  datatype Format = Csv | Pdf
  datatype DataKind = Bookings | Revenue | Providers

  function FormatName(f: Format): string {
    match f
    case Csv => "csv"
    case Pdf => "pdf"
  }

  function KindName(k: DataKind): string {
    match k
    case Bookings => "bookings"
    case Revenue => "revenue"
    case Providers => "providers"
  }

  datatype DateRange = DateRange(start: string, end: string)

  /** `${exportData}_${exportType}` */
  function ExportType(k: DataKind, f: Format): (r: string)
    ensures FirstField(r, '_') == KindName(k)
  {
    FirstFieldOfJoined(KindName(k), '_', FormatName(f));
    KindName(k) + "_" + FormatName(f)
  }

  /** `split(sep)[0]` of `a + sep + b` is `a` when `a` has no `sep`. */
  lemma {:induction false} FirstFieldOfJoined(a: string, sep: char, b: string)
    requires sep !in a
    ensures FirstField(a + [sep] + b, sep) == a
    decreases |a|
  {
    if a != [] {
      assert (a + [sep] + b)[1..] == a[1..] + [sep] + b;
      FirstFieldOfJoined(a[1..], sep, b);
    }
  }

  function KindNamed(s: string): Option<DataKind> {
    if s == "bookings" then Some(Bookings)
    else if s == "revenue" then Some(Revenue)
    else if s == "providers" then Some(Providers)
    else None
  }

  function FormatNamed(s: string): Option<Format> {
    if s == "csv" then Some(Csv) else if s == "pdf" then Some(Pdf) else None
  }

  /** Reads an export type back into its two choices. */
  function ParseExportType(t: string): (r: Option<(DataKind, Format)>)
    ensures r.Some? ==> t == ExportType(r.value.0, r.value.1)
  {
    var head := FirstField(t, '_');
    if |head| < |t| && KindNamed(head).Some? && FormatNamed(t[|head| + 1..]).Some? then
      assert t == head + "_" + t[|head| + 1..];
      Some((KindNamed(head).value, FormatNamed(t[|head| + 1..]).value))
    else None
  }

  /** Every combination of choices yields its own export type, which reads
      back into those choices. */
  lemma ExportTypeRoundTrip(k: DataKind, f: Format)
    ensures ParseExportType(ExportType(k, f)) == Some((k, f))
  {
    var t := ExportType(k, f);
    assert t[|KindName(k)| + 1..] == FormatName(f);
  }

  lemma ExportTypeInjective(k1: DataKind, f1: Format, k2: DataKind, f2: Format)
    requires ExportType(k1, f1) == ExportType(k2, f2)
    ensures k1 == k2 && f1 == f2
  {
    ExportTypeRoundTrip(k1, f1);
    ExportTypeRoundTrip(k2, f2);
  }

  /** The button text: `Export Bookings as CSV` and so on. */
  function ButtonText(k: DataKind, f: Format): string {
    "Export " + Capitalize(KindName(k)) + " as " + Upper(FormatName(f))
  }

  /** The label put together from the two rendered words. */
  lemma ButtonTextOf(k: DataKind, f: Format, kind: string, format: string)
    requires Capitalize(KindName(k)) == kind && Upper(FormatName(f)) == format
    ensures ButtonText(k, f) == "Export " + kind + " as " + format
  {
  }

  lemma ButtonTextSample()
    ensures ButtonText(Revenue, Pdf) == "Export Revenue as PDF"
  {
    UpperPointwise("pdf", "PDF");
    CapitalizePointwise("revenue", "Revenue");
    ButtonTextOf(Revenue, Pdf, "Revenue", "PDF");
  }

  /** The label with the panel's initial choices. */
  lemma ButtonTextDefault()
    ensures ButtonText(Bookings, Csv) == "Export Bookings as CSV"
  {
    UpperPointwise("csv", "CSV");
    CapitalizePointwise("bookings", "Bookings");
    ButtonTextOf(Bookings, Csv, "Bookings", "CSV");
  }

  const PickDateRange := "Please select a date range"
  const ExportFailed := "Failed to export data. Please try again."

  /** The sales page's alert after the export of `exportType`. */
  function ExportAlert(exportType: string, outcome: Result<()>): (r: string)
    ensures outcome.Failure? ==> r == ExportFailed
  {
    if outcome.Success? then Capitalize(FirstField(exportType, '_')) + " data exported successfully!"
    else ExportFailed
  }

  /** A successful export's alert names the data the button named. */
  lemma AlertNamesButtonData(k: DataKind, f: Format)
    ensures ExportAlert(ExportType(k, f), Success(())) == Capitalize(KindName(k)) + " data exported successfully!"
    ensures IsPrefix("Export " + Capitalize(KindName(k)), ButtonText(k, f))
  {
    var b := ButtonText(k, f);
    assert b[..|"Export " + Capitalize(KindName(k))|] == "Export " + Capitalize(KindName(k));
  }

  class Panel {
    var dateRange: DateRange
    var exportFormat: Format
    var exportData: DataKind

    constructor ()
      ensures dateRange == DateRange("", "") && exportFormat == Csv && exportData == Bookings
    {
      dateRange := DateRange("", "");
      exportFormat := Csv;
      exportData := Bookings;
    }

    method SetStart(s: string)
      modifies this
      ensures dateRange == DateRange(s, old(dateRange).end)
      ensures exportFormat == old(exportFormat) && exportData == old(exportData)
    {
      dateRange := dateRange.(start := s);
    }

    method SetEnd(e: string)
      modifies this
      ensures dateRange == DateRange(old(dateRange).start, e)
      ensures exportFormat == old(exportFormat) && exportData == old(exportData)
    {
      dateRange := dateRange.(end := e);
    }

    method SetFormat(f: Format)
      modifies this
      ensures exportFormat == f && dateRange == old(dateRange) && exportData == old(exportData)
    {
      exportFormat := f;
    }

    method SetData(k: DataKind)
      modifies this
      ensures exportData == k && dateRange == old(dateRange) && exportFormat == old(exportFormat)
    {
      exportData := k;
    }

    /** `handleExport`: with either date missing the alert is shown and
        nothing is exported; otherwise `onExport` receives the export type
        and the range. */
    method HandleExport() returns (alertText: Option<string>, exported: Option<(string, DateRange)>)
      ensures dateRange.start == "" || dateRange.end == "" ==> alertText == Some(PickDateRange) && exported.None?
      ensures dateRange.start != "" && dateRange.end != "" ==>
                alertText.None? && exported == Some((ExportType(exportData, exportFormat), dateRange))
    {
      if dateRange.start == "" || dateRange.end == "" {
        return Some(PickDateRange), None;
      }
      return None, Some((ExportType(exportData, exportFormat), dateRange));
    }
  }
}
