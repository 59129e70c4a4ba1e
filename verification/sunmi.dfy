/** The pure side of the Sunmi label printer: the ESC/POS text of a ticket label, the reading of
    the printer's status code, and the bookkeeping of a batch print. Every call into the native
    printer service is an input: whether the module and each of its methods exist, and whether
    each call returned or threw. */
module SunmiPrinter {
  import opened Text
  import opened Tickets
  import QrCode

  // ESC/POS control sequences of the label.
  const Esc: string := "\U{1B}"
  const Gs: string := "\U{1D}"
  const AlignCenter: string := Esc + "a" + "\U{1}"
  const AlignLeft: string := Esc + "a" + "\U{0}"
  const BoldOn: string := Esc + "E" + "\U{1}"
  const BoldOff: string := Esc + "E" + "\U{0}"
  const DoubleHeight: string := Gs + "!" + "\U{1}"
  const NormalSize: string := Gs + "!" + "\U{0}"
  const Feed: string := "\n"
  const ThickSep: string := "\U{2550}\U{2550}\U{2550}\U{2550}\U{2550}\U{2550}\U{2550}\U{2550}\U{2550}\U{2550}\U{2550}\U{2550}\U{2550}\U{2550}\U{2550}\U{2550}\U{2550}\U{2550}\U{2550}\U{2550}\U{2550}\U{2550}\U{2550}\U{2550}\n"
  const ThinSep: string := "\U{2500}\U{2500}\U{2500}\U{2500}\U{2500}\U{2500}\U{2500}\U{2500}\U{2500}\U{2500}\U{2500}\U{2500}\U{2500}\U{2500}\U{2500}\U{2500}\U{2500}\U{2500}\U{2500}\U{2500}\U{2500}\U{2500}\U{2500}\U{2500}\n"

  /** `FIȘĂ SERVICE` */
  const Title: string := "FI\U{218}\U{102} SERVICE"
  const QrMarker: string := "[QR CODE]"

  /** The label shows at most this many characters of the problem description. */
  const ProblemWidth: nat := 40

  /** `ticket.id.substring(0, 8).toUpperCase()` */
  function LabelId(id: string): (r: string)
    ensures |r| == if |id| < 8 then |id| else 8
    ensures forall i :: 0 <= i < |r| ==> r[i] == UpperChar(id[i])
  {
    ToUpper(Take(id, 8))
  }

  /** The problem description, cut to 37 characters plus `...` when it is longer than 40. */
  function ProblemText(description: string): (r: string)
    ensures |r| <= ProblemWidth
    ensures |description| <= ProblemWidth ==> r == description
    ensures |description| > ProblemWidth ==> |r| == ProblemWidth && StartsWith(description, r[..37])
                                             && r[37..] == "..."
  {
    if |description| > ProblemWidth then description[..37] + "..." else description
  }

  /** The optional line under the QR code: the fallback link without its `https://`. */
  function LinkLine(fallbackUrl: string): string {
    if fallbackUrl != "" then ReplaceFirst(fallbackUrl, "https://", "") + Feed else ""
  }

  /** The centred, bold, double-height title over the thick rule. */
  function Header(): string {
    AlignCenter + BoldOn + DoubleHeight + Title + NormalSize + BoldOff + Feed + ThickSep + Feed
  }

  /** `prefix` followed by a bold field name, its value, and a blank line. */
  function WithField(prefix: string, name: string, value: string): string {
    prefix + BoldOn + name + BoldOff + value + Feed + Feed
  }

  /** `prefix` followed by the thin rule, the bold `DEFECT:` heading and the problem text. */
  function WithDefect(prefix: string, problem: string): string {
    prefix + ThinSep + Feed + BoldOn + "DEFECT:" + BoldOff + Feed + problem + Feed + Feed
  }

  /** `prefix` followed by the thin rule, the centred QR marker, the optional link line, and the
      final feeds. */
  function WithQr(prefix: string, fallbackUrl: string): string {
    prefix + ThinSep + Feed + AlignCenter + QrMarker + Feed + Feed + LinkLine(fallbackUrl) + Feed + Feed
  }

  /** The label, section by section, in the order it is printed. */
  function LabelText(id: string, phone: string, date: string, problem: string, fallbackUrl: string): string {
    var fields := WithField(WithField(WithField(Header() + AlignLeft, "ID: ", id), "TEL: ", phone), "DATA: ", date);
    WithQr(WithDefect(fields, problem), fallbackUrl)
  }

  /** `generateLabelText`. The date formatter is a parameter. The QR data is built without a
      Telegram group, so its fallback is empty and the prefix never carries a link line. */
  method GenerateLabelText(t: Ticket, formatDate: Timestamp -> string) returns (text: string)
    ensures text == LabelText(LabelId(t.id), t.clientPhone, formatDate(t.dateReceived),
                              ProblemText(t.problemDescription), "")
  {
    var ticketId := LabelId(t.id);
    var clientPhone := t.clientPhone;
    var receivedDate := formatDate(t.dateReceived);
    var problem := ProblemText(t.problemDescription);

    text := "";
    text := text + AlignCenter;
    text := text + BoldOn;
    text := text + DoubleHeight;
    text := text + Title;
    text := text + NormalSize;
    text := text + BoldOff;
    text := text + Feed;

    text := text + ThickSep;
    text := text + Feed;
    assert text == Header();

    text := text + AlignLeft;
    ghost var before := text;
    text := text + BoldOn;
    text := text + "ID: ";
    text := text + BoldOff;
    text := text + ticketId;
    text := text + Feed;
    text := text + Feed;
    assert text == WithField(before, "ID: ", ticketId);

    before := text;
    text := text + BoldOn;
    text := text + "TEL: ";
    text := text + BoldOff;
    text := text + clientPhone;
    text := text + Feed;
    text := text + Feed;
    assert text == WithField(before, "TEL: ", clientPhone);

    before := text;
    text := text + BoldOn;
    text := text + "DATA: ";
    text := text + BoldOff;
    text := text + receivedDate;
    text := text + Feed;
    text := text + Feed;
    assert text == WithField(before, "DATA: ", receivedDate);

    before := text;
    text := text + ThinSep;
    text := text + Feed;

    text := text + BoldOn;
    text := text + "DEFECT:";
    text := text + BoldOff;
    text := text + Feed;
    text := text + problem;
    text := text + Feed;
    text := text + Feed;
    assert text == WithDefect(before, problem);

    before := text;
    text := text + ThinSep;
    text := text + Feed;

    text := text + AlignCenter;
    // The scheme only shapes `qrData.value`, which the label does not print; the fallback
    // link is the same under every scheme.
    var qrData := QrCode.GenerateQRCodeForPrinter(t, QrCode.DefaultScheme);
    text := text + QrMarker;
    text := text + Feed;
    text := text + Feed;

    text := text + LinkLine(qrData.fallbackUrl);

    text := text + Feed;
    text := text + Feed;
    assert text == WithQr(before, qrData.fallbackUrl);
    assert qrData.fallbackUrl == "";
  }

  lemma OccursBetween(x: string, m: string, y: string)
    ensures OccursAt(x + m + y, m, |x|)
  {
    assert (x + m + y)[|x|..|x| + |m|] == m;
  }

  /** What occurs in `x` still occurs, at the same place, once more text is appended. */
  lemma OccursExtended(x: string, y: string, m: string, i: int)
    requires OccursAt(x, m, i)
    ensures OccursAt(x + y, m, i)
  {
    assert (x + y)[i..i + |m|] == x[i..i + |m|];
  }

  lemma HeaderLayout()
    ensures |Header() + AlignLeft| == 57 && OccursAt(Header() + AlignLeft, Title, 9)
  {
    OccursBetween(AlignCenter + BoldOn + DoubleHeight, Title, NormalSize + BoldOff + Feed + ThickSep + Feed + AlignLeft);
  }

  lemma FieldLayout(prefix: string, name: string, value: string)
    ensures |WithField(prefix, name, value)| == |prefix| + 8 + |name| + |value|
    ensures forall m, i :: OccursAt(prefix, m, i) ==> OccursAt(WithField(prefix, name, value), m, i)
    ensures OccursAt(WithField(prefix, name, value), name, |prefix| + 3)
    ensures OccursAt(WithField(prefix, name, value), value, |prefix| + 6 + |name|)
  {
    var rest := BoldOn + name + BoldOff + value + Feed + Feed;
    assert WithField(prefix, name, value) == prefix + rest;
    forall m, i | OccursAt(prefix, m, i) ensures OccursAt(WithField(prefix, name, value), m, i) {
      OccursExtended(prefix, rest, m, i);
    }
    OccursBetween(prefix + BoldOn, name, BoldOff + value + Feed + Feed);
    OccursBetween(prefix + BoldOn + name + BoldOff, value, Feed + Feed);
  }

  lemma DefectLayout(prefix: string, problem: string)
    ensures |WithDefect(prefix, problem)| == |prefix| + 42 + |problem|
    ensures forall m, i :: OccursAt(prefix, m, i) ==> OccursAt(WithDefect(prefix, problem), m, i)
    ensures OccursAt(WithDefect(prefix, problem), "DEFECT:", |prefix| + 29)
    ensures OccursAt(WithDefect(prefix, problem), problem, |prefix| + 40)
  {
    var rest := ThinSep + Feed + BoldOn + "DEFECT:" + BoldOff + Feed + problem + Feed + Feed;
    assert WithDefect(prefix, problem) == prefix + rest;
    forall m, i | OccursAt(prefix, m, i) ensures OccursAt(WithDefect(prefix, problem), m, i) {
      OccursExtended(prefix, rest, m, i);
    }
    OccursBetween(prefix + ThinSep + Feed + BoldOn, "DEFECT:", BoldOff + Feed + problem + Feed + Feed);
    OccursBetween(prefix + ThinSep + Feed + BoldOn + "DEFECT:" + BoldOff + Feed, problem, Feed + Feed);
  }

  lemma QrLayout(prefix: string)
    ensures |WithQr(prefix, "")| == |prefix| + 42
    ensures forall m, i :: OccursAt(prefix, m, i) ==> OccursAt(WithQr(prefix, ""), m, i)
    ensures OccursAt(WithQr(prefix, ""), QrMarker, |prefix| + 29)
    ensures WithQr(prefix, "")[|prefix| + 38..] == "\n\n\n\n"
  {
    var rest := ThinSep + Feed + AlignCenter + QrMarker + (Feed + Feed + Feed + Feed);
    assert WithQr(prefix, "") == prefix + rest;
    forall m, i | OccursAt(prefix, m, i) ensures OccursAt(WithQr(prefix, ""), m, i) {
      OccursExtended(prefix, rest, m, i);
    }
    OccursBetween(prefix + ThinSep + Feed + AlignCenter, QrMarker, Feed + Feed + Feed + Feed);
  }

  /** The title and the three fields, each name followed by its value. */
  lemma FieldsLayout(id: string, phone: string, date: string)
    ensures var l := WithField(WithField(WithField(Header() + AlignLeft, "ID: ", id), "TEL: ", phone), "DATA: ", date);
            var a := |id|;
            var b := a + |phone|;
            OccursAt(l, Title, 9)
            && OccursAt(l, "ID: ", 60) && OccursAt(l, id, 67)
            && OccursAt(l, "TEL: ", 72 + a) && OccursAt(l, phone, 80 + a)
            && OccursAt(l, "DATA: ", 85 + b) && OccursAt(l, date, 94 + b)
            && |l| == 96 + b + |date|
  {
    var l0 := Header() + AlignLeft;
    var l1 := WithField(l0, "ID: ", id);
    var l2 := WithField(l1, "TEL: ", phone);
    HeaderLayout();
    FieldLayout(l0, "ID: ", id);
    FieldLayout(l1, "TEL: ", phone);
    FieldLayout(l2, "DATA: ", date);
  }

  /** Where each section starts: the title, then `ID: ` and the id, `TEL: ` and the phone,
      `DATA: ` and the date, `DEFECT:` and the problem, and the QR marker, each one after the
      previous, and nothing but line feeds after the marker. */
  lemma LabelLayout(id: string, phone: string, date: string, problem: string)
    ensures var l := LabelText(id, phone, date, problem, "");
            var a := |id|;
            var b := a + |phone|;
            var c := b + |date|;
            var d := c + |problem|;
            OccursAt(l, Title, 9)
            && OccursAt(l, "ID: ", 60) && OccursAt(l, id, 67)
            && OccursAt(l, "TEL: ", 72 + a) && OccursAt(l, phone, 80 + a)
            && OccursAt(l, "DATA: ", 85 + b) && OccursAt(l, date, 94 + b)
            && OccursAt(l, "DEFECT:", 125 + c) && OccursAt(l, problem, 136 + c)
            && OccursAt(l, QrMarker, 167 + d)
            && |l| == 180 + d && l[176 + d..] == "\n\n\n\n"
  {
    var l3 := WithField(WithField(WithField(Header() + AlignLeft, "ID: ", id), "TEL: ", phone), "DATA: ", date);
    var l4 := WithDefect(l3, problem);
    FieldsLayout(id, phone, date);
    DefectLayout(l3, problem);
    QrLayout(l4);
  }

  /** Had the QR data carried a Telegram fallback, the line under the marker would be the link
      without its scheme. */
  lemma LinkLineOfFallback(t: Ticket, groupId: string)
    requires groupId != ""
    ensures LinkLine(QrCode.GenerateTelegramFallbackLink(t, Some(groupId))) == QrCode.TelegramSearchPath + t.id + Feed
  {
    var rest := QrCode.TelegramSearchPath + t.id;
    assert QrCode.GenerateTelegramFallbackLink(t, Some(groupId)) == "https://" + rest;
    ReplaceAtStart("https://", rest, "");
  }

  // ---------------------------------------------------------------------------------------------
  // The printer service

  /** Which optional methods the native printer module exposes. */
  datatype PrinterModule = PrinterModule(
    hasInitPrinter: bool,
    hasPrintText: bool,
    hasPrint: bool,
    hasFeedPaper: bool,
    hasGetPrinterStatus: bool)

  /** The outcome of one awaited native call; a thrown value that is not an `Error` has no message. */
  datatype NativeCall<T> = Returned(value: T) | Threw(message: Option<string>)

  const UnavailableMessage: string := "Sunmi PrinterService nu este disponibil"
  const PartialPrintMessage: string := "Unele etichete nu au putut fi tip\U{103}rite"
  const PrintFailedMessage: string := "Eroare la imprimare"
  const StatusFailedMessage: string := "Eroare la verificare status"

  /** `error instanceof Error ? error.message : fallback` */
  function ErrorText(message: Option<string>, fallback: string): (r: string)
    ensures message.Some? ==> r == message.value
    ensures message.None? ==> r == fallback
  {
    if message.Some? then message.value else fallback
  }

  /** The status map of `getPrinterStatus`; codes outside it read as `unknown`. */
  function StatusName(code: int): (r: string)
    ensures code == 0 <==> r == "normal"
    ensures code == 1 <==> r == "offline"
    ensures code == 2 <==> r == "error"
    ensures code == 3 <==> r == "paper_low"
    ensures code == 4 <==> r == "paper_out"
    ensures !(0 <= code <= 4) <==> r == "unknown"
  {
    if code == 0 then "normal"
    else if code == 1 then "offline"
    else if code == 2 then "error"
    else if code == 3 then "paper_low"
    else if code == 4 then "paper_out"
    else "unknown"
  }

  datatype PrinterStatus = PrinterStatus(status: string, error: Option<string>)

  /** `getPrinterStatus`: `statusCall` is what the native `getPrinterStatus` does when called. */
  function GetPrinterStatus(service: Option<PrinterModule>, statusCall: NativeCall<int>): (r: PrinterStatus)
    ensures service.None? ==> r == PrinterStatus("unavailable", Some(UnavailableMessage))
    ensures service.Some? && !service.value.hasGetPrinterStatus ==> r == PrinterStatus("available", None)
    ensures service.Some? && service.value.hasGetPrinterStatus && statusCall.Returned?
            ==> r == PrinterStatus(StatusName(statusCall.value), None)
    ensures service.Some? && service.value.hasGetPrinterStatus && statusCall.Threw?
            ==> r.status == "error" && r.error == Some(ErrorText(statusCall.message, StatusFailedMessage))
    ensures r.error.Some? <==> service.None? || (service.value.hasGetPrinterStatus && statusCall.Threw?)
  {
    if service.None? then PrinterStatus("unavailable", Some(UnavailableMessage))
    else if service.value.hasGetPrinterStatus then
      match statusCall
      case Returned(code) => PrinterStatus(StatusName(code), None)
      case Threw(message) => PrinterStatus("error", Some(ErrorText(message, StatusFailedMessage)))
    else PrinterStatus("available", None)
  }

  /** A status code never reads as one of the states the service reports without a code. */
  lemma StatusNamesAreCodes(code: int)
    ensures StatusName(code) != "unavailable" && StatusName(code) != "available"
  {
  }

  datatype PrintResult = PrintResult(success: bool, printed: nat, error: Option<string>)

  /** How many of the calls returned. */
  function Succeeded<T>(calls: seq<NativeCall<T>>): (n: nat)
    ensures n <= |calls|
    ensures n == |calls| <==> forall k :: 0 <= k < |calls| ==> calls[k].Returned?
    decreases |calls|
  {
    if calls == [] then 0
    else
      var n := Succeeded(calls[..|calls| - 1]);
      assert forall k :: 0 <= k < |calls| - 1 ==> calls[..|calls| - 1][k] == calls[k];
      n + if calls[|calls| - 1].Returned? then 1 else 0
  }

  /** The labels counted as printed: a module without any print method counts every label. */
  function PrintedCount(m: PrinterModule, printCalls: seq<NativeCall<()>>): (n: nat)
    ensures n <= |printCalls|
    ensures !m.hasPrintText && !m.hasPrint ==> n == |printCalls|
    ensures m.hasPrintText || m.hasPrint ==> n == Succeeded(printCalls)
  {
    if m.hasPrintText || m.hasPrint then Succeeded(printCalls) else |printCalls|
  }

  /** One more label: counted unless a print method is present and its call threw. */
  lemma PrintedStep(m: PrinterModule, printCalls: seq<NativeCall<()>>, k: nat)
    requires k < |printCalls|
    ensures PrintedCount(m, printCalls[..k + 1])
            == PrintedCount(m, printCalls[..k]) + if (m.hasPrintText || m.hasPrint) && printCalls[k].Threw? then 0 else 1
  {
    assert printCalls[..k + 1][..k] == printCalls[..k];
  }

  /** The body of the per-ticket `try`: the ticket's label is generated and handed to
      `printText`, or else to `print`; it counts as printed unless that call threw. */
  method PrintOneLabel(ticket: Ticket, formatDate: Timestamp -> string, printer: PrinterModule,
                       printCall: NativeCall<()>) returns (printed: bool)
    ensures printed <==> !((printer.hasPrintText || printer.hasPrint) && printCall.Threw?)
  {
    var labelText := GenerateLabelText(ticket, formatDate);
    printed := !((printer.hasPrintText || printer.hasPrint) && printCall.Threw?);
  }

  /** `printMultipleLabels`. `initCall`, `printCalls[k]` (for the k-th ticket) and `feedCall` are
      the outcomes of the native calls; a throwing `initPrinter` or `feedPaper` lands in the outer
      `catch`, which reports nothing printed even when labels already were. */
  method PrintMultipleLabels(tickets: seq<Ticket>, formatDate: Timestamp -> string,
                             service: Option<PrinterModule>, initCall: NativeCall<()>,
                             printCalls: seq<NativeCall<()>>, feedCall: NativeCall<()>)
    returns (r: PrintResult)
    requires |printCalls| == |tickets|
    ensures r.printed <= |tickets|
    ensures r.success ==> r.printed == |tickets|
    ensures r.success <==> r.error.None?
    ensures service.None? ==> r == PrintResult(false, 0, Some(UnavailableMessage))
    ensures service.Some? && service.value.hasInitPrinter && initCall.Threw?
            ==> r == PrintResult(false, 0, Some(ErrorText(initCall.message, PrintFailedMessage)))
    ensures service.Some? && !(service.value.hasInitPrinter && initCall.Threw?)
            && service.value.hasFeedPaper && feedCall.Threw?
            ==> r == PrintResult(false, 0, Some(ErrorText(feedCall.message, PrintFailedMessage)))
    ensures service.Some? && !(service.value.hasInitPrinter && initCall.Threw?)
            && !(service.value.hasFeedPaper && feedCall.Threw?)
            ==> r.printed == PrintedCount(service.value, printCalls)
                && (r.success <==> r.printed == |tickets|)
                && (r.error.Some? ==> r.error.value == PartialPrintMessage)
  {
    if service.None? {
      return PrintResult(false, 0, Some(UnavailableMessage));
    }
    var printer := service.value;

    if printer.hasInitPrinter && initCall.Threw? {
      return PrintResult(false, 0, Some(ErrorText(initCall.message, PrintFailedMessage)));
    }

    var printedCount := 0;
    var k := 0;
    while k < |tickets|
      invariant 0 <= k <= |tickets|
      invariant printedCount == PrintedCount(printer, printCalls[..k])
    {
      var printed := PrintOneLabel(tickets[k], formatDate, printer, printCalls[k]);
      PrintedStep(printer, printCalls, k);
      if printed {
        printedCount := printedCount + 1;
      }
      k := k + 1;
    }
    assert printCalls[..k] == printCalls;

    if printer.hasFeedPaper && feedCall.Threw? {
      return PrintResult(false, 0, Some(ErrorText(feedCall.message, PrintFailedMessage)));
    }

    r := PrintResult(
      printedCount == |tickets|,
      printedCount,
      if printedCount < |tickets| then Some(PartialPrintMessage) else None);
  }

  /** When every native call returns, the batch prints every label. */
  lemma AllCallsReturnedMeansAllPrinted(m: PrinterModule, printCalls: seq<NativeCall<()>>)
    requires forall k :: 0 <= k < |printCalls| ==> printCalls[k].Returned?
    ensures PrintedCount(m, printCalls) == |printCalls|
  {
  }

  /** One failed print call with a print method present leaves the batch short. */
  lemma OneFailureMeansShort(m: PrinterModule, printCalls: seq<NativeCall<()>>, k: int)
    requires m.hasPrintText || m.hasPrint
    requires 0 <= k < |printCalls| && printCalls[k].Threw?
    ensures PrintedCount(m, printCalls) < |printCalls|
  {
  }
}
