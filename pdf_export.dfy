/** The PDF report layout (locust-dashboard/src/components/PDFExport.js):
    a title, one `Label: value` line per selected metric 30 points apart,
    and a footer 20 points below the last line. The logo image, the drawing
    calls and the clock are not modelled; the footer's date text is a
    parameter. */
module PdfExport {
  import opened Text
  import opened JsValues

  /** The metrics printed, in order. */
  const SelectedFields: seq<string> := ["users", "rps", "failures", "duration", "status"]

  const FirstLineY := 130
  const LineSpacing := 30

  /** One `doc.text(text, x, y)` call. */
  datatype TextLine = TextLine(text: string, x: int, y: int)

  /** `key.charAt(0).toUpperCase() + key.slice(1)` (ASCII letters). */
  function Capitalize(key: string): (caption: string)
    ensures |caption| == |key|
    ensures key != [] ==> caption[0] == UpperChar(key[0]) && caption[1..] == key[1..]
  {
    if key == [] then [] else [UpperChar(key[0])] + key[1..]
  }

  /** The line for the `i`-th selected field: `metrics[key] ?? "N/A"`
      written as a template literal does. */
  function FieldLine(metrics: map<string, JsValue>, i: nat): (line: TextLine)
    requires i < |SelectedFields|
    ensures line.x == 40 && line.y == FirstLineY + LineSpacing * i
  {
    var key := SelectedFields[i];
    var value := Coalesce(if key in metrics then metrics[key] else Undefined, Str("N/A"));
    TextLine(Capitalize(key) + ": " + ToStr(value), 40, FirstLineY + LineSpacing * i)
  }

  /** A missing or null metric is printed as N/A. */
  lemma MissingIsNA(metrics: map<string, JsValue>, i: nat)
    requires i < |SelectedFields|
    requires SelectedFields[i] !in metrics || IsNullish(metrics[SelectedFields[i]])
    ensures FieldLine(metrics, i).text == Capitalize(SelectedFields[i]) + ": N/A"
  {
  }

  /** A present, non-null metric is printed after its capitalised label. */
  lemma PresentValuePrinted(metrics: map<string, JsValue>, i: nat)
    requires i < |SelectedFields|
    requires SelectedFields[i] in metrics && !IsNullish(metrics[SelectedFields[i]])
    ensures FieldLine(metrics, i).text
         == Capitalize(SelectedFields[i]) + ": " + ToStr(metrics[SelectedFields[i]])
  {
  }

  /** The text colour: white on the dark theme, black otherwise. */
  function TextColor(theme: string): (color: string)
    ensures theme == "dark" ==> color == "#FFFFFF"
    ensures theme != "dark" ==> color == "#000000"
  {
    if theme == "dark" then "#FFFFFF" else "#000000"
  }

  /** The text lines of `exportPDF`, in drawing order: the title, one line
      per selected field, the footer. */
  method ReportLines(metrics: map<string, JsValue>, generatedOn: string) returns (lines: seq<TextLine>)
    ensures |lines| == |SelectedFields| + 2
    ensures lines[0] == TextLine("Performance Report", 40, 90)
    ensures forall i :: 0 <= i < |SelectedFields| ==> lines[i + 1] == FieldLine(metrics, i)
    ensures lines[|lines| - 1] == TextLine("Generated on: " + generatedOn, 40, 300)
  {
    lines := [TextLine("Performance Report", 40, 90)];
    var y := FirstLineY;
    var i := 0;
    while i < |SelectedFields|
      invariant 0 <= i <= |SelectedFields|
      invariant y == FirstLineY + LineSpacing * i
      invariant |lines| == i + 1 && lines[0] == TextLine("Performance Report", 40, 90)
      invariant forall j :: 0 <= j < i ==> lines[j + 1] == FieldLine(metrics, j)
    {
      var key := SelectedFields[i];
      var value := Coalesce(if key in metrics then metrics[key] else Undefined, Str("N/A"));
      lines := lines + [TextLine(Capitalize(key) + ": " + ToStr(value), 40, y)];
      y := y + LineSpacing;
      i := i + 1;
    }
    lines := lines + [TextLine("Generated on: " + generatedOn, 40, y + 20)];
  }
}
