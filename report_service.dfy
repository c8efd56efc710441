/** The report service of `reportService.js`: the mock data lookup, the dispatch on the
    requested format, and the content of the CSV export. The PDF and spreadsheet builders
    are represented only by which kind of document they produce. */
module ReportService {
  import opened Seqs
  import opened Text
  import opened Wrappers

  /** The request; `kind` is the record's `type` field. */
  datatype ReportConfig = ReportConfig(kind: string, format: string, includeSummary: bool, includeCharts: bool)

  datatype DetailRow = DetailRow(date: string, orders: int, revenue: int)
  datatype TopProduct = TopProduct(name: string, sales: int, revenue: int)
  datatype ReportSummary = ReportSummary(totalRevenue: int, totalOrders: int, averageOrderValue: int, growth: real)
  datatype ReportData = ReportData(summary: ReportSummary, details: seq<DetailRow>, topProducts: seq<TopProduct>)

  /** What a report request produces: a PDF or spreadsheet download, or a CSV file whose
      text is recorded. */
  datatype ReportOutput = PdfReport | ExcelReport | CsvReport(content: string)

  /** `UnsupportedFormat` is the `Error('Unsupported format')` of the dispatch;
      `MissingData` is the `TypeError` a builder raises when it reads the details of the
      `undefined` that an unknown report type looks up; `NotAFunction(name)` is the
      `TypeError` of calling a name that is bound to `undefined`. */
  datatype ReportError = UnsupportedFormat | MissingData | NotAFunction(name: string)

  /** The message of the `UnsupportedFormat` error. */
  const UnsupportedFormatMessage: string := "Unsupported format"

  /** The "sales" record of the mock table (amounts in UGX). */
  function SalesData(): ReportData {
    ReportData(
      ReportSummary(15250000, 145, 105172, 12.5),
      [
        DetailRow("2024-03-01", 48, 5040000),
        DetailRow("2024-03-02", 52, 5460000),
        DetailRow("2024-03-03", 45, 4750000)
      ],
      [TopProduct("Product A", 28, 2940000), TopProduct("Product B", 22, 2310000)])
  }

  /** The mock table holds the "sales" record only; every other type finds nothing. */
  function GetReportData(kind: string): (r: Option<ReportData>)
    ensures r.Some? <==> kind == "sales"
    ensures r.Some? ==> r.value == SalesData()
  {
    if kind == "sales" then Some(SalesData()) else None
  }

  function SumOrders(rows: seq<DetailRow>): int {
    if rows == [] then 0 else rows[0].orders + SumOrders(rows[1..])
  }

  function SumRevenue(rows: seq<DetailRow>): int {
    if rows == [] then 0 else rows[0].revenue + SumRevenue(rows[1..])
  }

  /** The mock summary agrees with its rows: the totals are the sums of the rows and the
      average is the total revenue divided by the order count, rounded down. */
  lemma SalesSummaryConsistent()
    ensures SalesData().summary.totalOrders == SumOrders(SalesData().details)
    ensures SalesData().summary.totalRevenue == SumRevenue(SalesData().details)
    ensures SalesData().summary.averageOrderValue ==
      SalesData().summary.totalRevenue / SalesData().summary.totalOrders
  {
    var d := SalesData().details;
    assert d[1..][1..][1..] == [];
    assert SumOrders(d[1..][1..]) == 45;
    assert SumRevenue(d[1..][1..]) == 4750000;
  }

  /** One CSV line: the date, the order count and the raw revenue, comma-separated, with
      no quoting and no currency formatting. */
  function CsvLine(row: DetailRow): (line: string)
    ensures line == row.date + "," + IntToString(row.orders) + "," + IntToString(row.revenue)
  {
    var o, v := IntToString(row.orders), IntToString(row.revenue);
    assert [row.date, o, v][1..] == [o, v] && [o, v][1..] == [v];
    assert Join([o, v], ',') == o + "," + v;
    Join([row.date, IntToString(row.orders), IntToString(row.revenue)], ',')
  }

  /** The CSV text: one line per row in row order, newline-separated, with no header and no
      final newline. */
  function CsvContent(rows: seq<DetailRow>): (content: string)
    ensures rows == [] ==> content == ""
    ensures |rows| == 1 ==> content == CsvLine(rows[0])
  {
    Join(Map(CsvLine, rows), '\n')
  }

  /** Dispatch on the format, after the data lookup, with the currency formatter the PDF
      and spreadsheet builders call actually available: an unknown format fails whatever the
      type, and a known one fails on a type the table lacks. */
  function GenerateReport(config: ReportConfig): (r: Result<ReportOutput, ReportError>)
    ensures r == Failure(UnsupportedFormat) <==> config.format !in {"pdf", "excel", "csv"}
    ensures r == Failure(MissingData) <==> config.format in {"pdf", "excel", "csv"} && config.kind != "sales"
    ensures r.Success? ==> (r.value.PdfReport? <==> config.format == "pdf")
    ensures r.Success? ==> (r.value.ExcelReport? <==> config.format == "excel")
    ensures r.Success? && config.format == "csv" ==> r.value == CsvReport(CsvContent(SalesData().details))
  {
    var data := GetReportData(config.kind);
    match config.format
    case "pdf" => if data.None? then Failure(MissingData) else Success(PdfReport)
    case "excel" => if data.None? then Failure(MissingData) else Success(ExcelReport)
    case "csv" => if data.None? then Failure(MissingData) else Success(CsvReport(CsvContent(data.value.details)))
    case _ => Failure(UnsupportedFormat)
  }

  /** The dispatch as the file is written. The module imports `formatCurrency` from a
      module that exports only `formatNumberWithComma`, so the name is `undefined`; the
      PDF and spreadsheet builders call it on the summary amounts when a summary is asked
      for and on every detail row's revenue in any case, so neither ever produces a
      document for the sales record. */
  function GenerateReportAsWritten(config: ReportConfig): (r: Result<ReportOutput, ReportError>)
    ensures r == Failure(NotAFunction("formatCurrency")) <==>
      config.format in {"pdf", "excel"} && config.kind == "sales"
    ensures r.Success? ==> config.format == "csv" && r.value.CsvReport?
    ensures config.format !in {"pdf", "excel"} || config.kind != "sales" ==> r == GenerateReport(config)
  {
    var data := GetReportData(config.kind);
    match config.format
    case "pdf" =>
      if data.None? then Failure(MissingData)
      else if config.includeSummary || data.value.details != [] then Failure(NotAFunction("formatCurrency"))
      else Success(PdfReport)
    case "excel" =>
      if data.None? then Failure(MissingData)
      else if config.includeSummary || data.value.details != [] then Failure(NotAFunction("formatCurrency"))
      else Success(ExcelReport)
    case "csv" => if data.None? then Failure(MissingData) else Success(CsvReport(CsvContent(data.value.details)))
    case _ => Failure(UnsupportedFormat)
  }

  /** A sales PDF without summary or charts: the written service throws on the first
      detail row, the intended one produces the document. The spreadsheet fails the same way. */
  lemma SalesPdfFails()
    ensures GenerateReportAsWritten(ReportConfig("sales", "pdf", false, false)) == Failure(NotAFunction("formatCurrency"))
    ensures GenerateReport(ReportConfig("sales", "pdf", false, false)) == Success(PdfReport)
    ensures GenerateReportAsWritten(ReportConfig("sales", "excel", false, false)) == Failure(NotAFunction("formatCurrency"))
    ensures GenerateReport(ReportConfig("sales", "excel", false, false)) == Success(ExcelReport)
  {
  }

  /** A date a CSV line can carry unambiguously: no comma and no newline. */
  predicate PlainDate(date: string) {
    ',' !in date && '\n' !in date
  }

  /** Reads back one line written by `CsvLine`. */
  function ParseCsvLine(line: string): Option<DetailRow> {
    var fields := Split(line, ',');
    if |fields| != 3 then None
    else match (ParseInt(fields[1]), ParseInt(fields[2]))
      case (Some(o), Some(v)) => Some(DetailRow(fields[0], o, v))
      case _ => None
  }

  function ParseCsvLines(lines: seq<string>): Option<seq<DetailRow>> {
    if lines == [] then Some([])
    else match (ParseCsvLine(lines[0]), ParseCsvLines(lines[1..]))
      case (Some(row), Some(rest)) => Some([row] + rest)
      case _ => None
  }

  /** Reads back a CSV text. */
  function ParseCsv(content: string): Option<seq<DetailRow>> {
    ParseCsvLines(Split(content, '\n'))
  }

  lemma IntToStringPlain(n: int)
    ensures ',' !in IntToString(n) && '\n' !in IntToString(n)
  {
  }

  lemma CsvLineRoundTrip(row: DetailRow)
    requires PlainDate(row.date)
    ensures ParseCsvLine(CsvLine(row)) == Some(row)
    ensures '\n' !in CsvLine(row)
  {
    var fields := [row.date, IntToString(row.orders), IntToString(row.revenue)];
    IntToStringPlain(row.orders);
    IntToStringPlain(row.revenue);
    SplitJoin(fields, ',');
    IntToStringRoundTrip(row.orders);
    IntToStringRoundTrip(row.revenue);
    JoinAvoids(fields, ',', '\n');
  }

  /** The CSV text of a non-empty list of rows with plain dates reads back as those rows, in
      order. An empty list gives the empty text, which reads as one blank line. */
  lemma {:induction false} CsvRoundTrip(rows: seq<DetailRow>)
    requires rows != []
    requires forall i :: 0 <= i < |rows| ==> PlainDate(rows[i].date)
    ensures ParseCsv(CsvContent(rows)) == Some(rows)
    decreases |rows|
  {
    var lines := Map(CsvLine, rows);
    forall i | 0 <= i < |lines|
      ensures '\n' !in lines[i]
    {
      CsvLineRoundTrip(rows[i]);
    }
    SplitJoin(lines, '\n');
    CsvLinesRoundTrip(rows);
  }

  lemma {:induction false} CsvLinesRoundTrip(rows: seq<DetailRow>)
    requires forall i :: 0 <= i < |rows| ==> PlainDate(rows[i].date)
    ensures ParseCsvLines(Map(CsvLine, rows)) == Some(rows)
    decreases |rows|
  {
    if rows != [] {
      var lines := Map(CsvLine, rows);
      assert lines == [CsvLine(rows[0])] + Map(CsvLine, rows[1..]);
      CsvLineRoundTrip(rows[0]);
      CsvLinesRoundTrip(rows[1..]);
      ParseCsvLinesCons(CsvLine(rows[0]), Map(CsvLine, rows[1..]), rows[0], rows[1..]);
      assert [rows[0]] + rows[1..] == rows;
    }
  }

  lemma ParseCsvLinesCons(line: string, rest: seq<string>, row: DetailRow, rows: seq<DetailRow>)
    requires ParseCsvLine(line) == Some(row) && ParseCsvLines(rest) == Some(rows)
    ensures ParseCsvLines([line] + rest) == Some([row] + rows)
  {
    assert ([line] + rest)[0] == line && ([line] + rest)[1..] == rest;
  }

  lemma EmptyCsvReadsAsBlankLine()
    ensures CsvContent([]) == "" && ParseCsv("") == None
  {
    assert Split("", '\n') == [""];
    assert Split("", ',') == [""];
  }

  /** Every CSV report the service produces reads back as the details of the record it
      was made from. */
  lemma CsvReportReadsBack(config: ReportConfig)
    requires config.format == "csv" && GenerateReport(config).Success?
    ensures GetReportData(config.kind).Some?
    ensures ParseCsv(GenerateReport(config).value.content) == Some(GetReportData(config.kind).value.details)
  {
    var d := GetReportData(config.kind).value.details;
    SalesDatesPlain();
    CsvRoundTrip(d);
  }

  lemma SalesDatesPlain()
    ensures SalesData().details != []
    ensures forall i :: 0 <= i < |SalesData().details| ==> PlainDate(SalesData().details[i].date)
  {
  }
}
