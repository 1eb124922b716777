/**
 * The report e-mail: its subject, its HTML body assembled from the lead's
 * first name, company and report link, and the mapping of the mail
 * provider's reply to a `{ success, emailId?, error? }` result.
 *
 * The fixed markup of the body (styles, the inline logo, the product copy and
 * the demo link) is abbreviated here to its structure: the constants below
 * keep the document's first and last lines and the places where values are
 * interpolated.
 */
module EmailService {
  import opened Js

  datatype EmailData = EmailData(name: string, email: string, company: Option<string>, pdfUrl: Option<string>)

  /** The message handed to the provider. */
  datatype OutgoingEmail = OutgoingEmail(
    from: string,
    to: string,
    subject: string,
    html: string,
    tags: seq<(string, string)>)

  /** The provider's answer: `{ data, error }` with `data.id`, `error.message`; or a thrown value. */
  datatype ProviderReply =
    | Replied(dataId: Option<string>, errorMessage: Option<string>)
    | SendThrew(thrown: Thrown)

  datatype EmailResult = EmailResult(success: bool, emailId: Option<string>, error: Option<string>)

  const FromAddress: string := "ProofIQ <noreply@proofiqapp.com>"
  const SubjectSuffix: string := ", Your ProofIQ ROI Analysis is Ready"
  const Tags: seq<(string, string)> := [("type", "roi_report"), ("source", "lead_form")]

  /** The subject: the lead's full name followed by a fixed phrase. */
  function Subject(name: string): (s: string)
    ensures |s| == |name| + |SubjectSuffix|
    ensures s[..|name|] == name && s[|name|..] == SubjectSuffix
  {
    name + SubjectSuffix
  }

  /** `name.split(' ')[0]`: the text before the first space, or all of it. */
  function FirstName(name: string): (first: string)
    ensures first <= name
    ensures forall k :: 0 <= k < |first| ==> first[k] != ' '
    ensures |first| < |name| ==> name[|first|] == ' '
  {
    if name == [] || name[0] == ' ' then [] else [name[0]] + FirstName(name[1..])
  }

  const CompanyIntro: string := "We've prepared a personalized ROI analysis for "

  /** The sentence naming the lead's company, or "your organization" when there is none. */
  function CompanyText(company: Option<string>): string
  {
    if TruthyString(company) then CompanyIntro + company.value + "." else CompanyIntro + "your organization."
  }

  /** The sentence is the introduction, then the company's name when it is given and "your organization" otherwise, then a full stop. */
  lemma CompanyTextNamesCompany(company: Option<string>)
    ensures var text := CompanyText(company);
      && |text| > |CompanyIntro| && text[..|CompanyIntro|] == CompanyIntro && text[|text| - 1] == '.'
      && (TruthyString(company) ==> text[|CompanyIntro|..|text| - 1] == company.value)
      && (!TruthyString(company) ==> text[|CompanyIntro|..|text| - 1] == "your organization")
  {
  }

  const DownloadOpen: string := "\n<p>Your custom report is ready to download and includes detailed projections based on your specific requirements.</p>\n<table role=\"presentation\"><tr><td align=\"center\">\n<a "
  const DownloadClose: string := ">Download Your ROI Report</a>\n</td></tr></table>\n"

  /** The link attribute of the download button. */
  function Href(url: string): string
  {
    "href=\"" + url + "\""
  }

  /** The download paragraph and button, present only when there is a report link. */
  function PdfSection(pdfUrl: Option<string>): (section: string)
    ensures section == "" <==> !TruthyString(pdfUrl)
    ensures TruthyString(pdfUrl) ==> Contains(section, Href(pdfUrl.value))
  {
    if TruthyString(pdfUrl) then
      ContainsMiddle(DownloadOpen, Href(pdfUrl.value), DownloadClose);
      DownloadOpen + Href(pdfUrl.value) + DownloadClose
    else ""
  }

  /** `sub` occurs in `s` at index `i`. */
  predicate OccursAt(s: string, sub: string, i: int)
  {
    0 <= i <= |s| - |sub| && s[i..i + |sub|] == sub
  }

  /** `sub` occurs in `s`. */
  predicate Contains(s: string, sub: string)
  {
    exists i | 0 <= i <= |s| - |sub| :: OccursAt(s, sub, i)
  }

  lemma ContainsMiddle(front: string, sub: string, back: string)
    ensures Contains(front + sub + back, sub)
  {
    var s := front + sub + back;
    assert OccursAt(s, sub, |front|);
  }

  lemma ContainsTransitive(s: string, t: string, u: string)
    requires Contains(s, t) && Contains(t, u)
    ensures Contains(s, u)
  {
    var i :| 0 <= i <= |s| - |t| && OccursAt(s, t, i);
    var j :| 0 <= j <= |t| - |u| && OccursAt(t, u, j);
    forall k | 0 <= k < |u| ensures s[i + j + k] == u[k] {
      assert t[j + k] == u[k];
      assert s[i + (j + k)] == t[j + k];
    }
    assert s[i + j..i + j + |u|] == u;
    assert OccursAt(s, u, i + j);
  }

  const Doctype: string := "<!DOCTYPE html>"
  const HtmlEnd: string := "</html>"
  const DocumentOpen: string := Doctype + HeadOpen
  const HeadOpen: string := "\n<html lang=\"en\">\n<head>\n<meta charset=\"UTF-8\">\n<title>Your ProofIQ ROI Report</title>\n</head>\n<body>\n<table role=\"presentation\">\n<p>\n"
  const AfterGreeting: string := "\n</p>\n<p>\nThank you for your interest in ProofIQ. "

  /** "Hi <first name>,". */
  function Greeting(name: string): string
  {
    "Hi " + FirstName(name) + ","
  }
  const AfterCompanyText: string := "\n</p>\n"
  const AfterPdfSection: string := "\n<p>ProofIQ helps Lifeline providers streamline compliance audits.</p>\n<a href=\"https://proofiqapp.com/demo\">Schedule a Demo</a>\n<p>\n&copy; "
  const DocumentClose: string := FooterClose + HtmlEnd
  const FooterClose: string := " ProofIQ. All rights reserved.\n</p>\n</table>\n</body>\n"

  /** What sits between the document's first and last lines. */
  function TemplateMiddle(data: EmailData, year: nat): string
  {
    Greeting(data.name) + AfterGreeting + CompanyText(data.company) + AfterCompanyText
      + PdfSection(data.pdfUrl) + AfterPdfSection + Decimal(year)
  }

  /** The document from its first line to its last. */
  function Document(data: EmailData, year: nat): string
  {
    DocumentOpen + TemplateMiddle(data, year) + DocumentClose
  }

  /** The template literal before trimming: it opens with a newline and closes with a newline and a tab. */
  function UntrimmedTemplate(data: EmailData, year: nat): string
  {
    "\n" + Document(data, year) + "\n\t"
  }

  /** `String.prototype.trim`, front half. */
  function TrimStart(s: string): string
    decreases |s|
  {
    if s != [] && IsWhitespace(s[0]) then TrimStart(s[1..]) else s
  }

  /** `String.prototype.trim`, back half. */
  function TrimEnd(s: string): string
    decreases |s|
  {
    if s != [] && IsWhitespace(s[|s| - 1]) then TrimEnd(s[..|s| - 1]) else s
  }

  function Trim(s: string): string
  {
    TrimEnd(TrimStart(s))
  }

  /** `TrimStart` keeps a suffix, removes only whitespace, and what it leaves does not start with whitespace. */
  lemma {:induction false} TrimStartStrips(s: string)
    ensures var r := TrimStart(s);
      && |r| <= |s| && r == s[|s| - |r|..]
      && AllWhitespace(s[..|s| - |r|])
      && (r == [] || !IsWhitespace(r[0]))
    decreases |s|
  {
    if s != [] && IsWhitespace(s[0]) {
      TrimStartStrips(s[1..]);
      var removed := s[..|s| - |TrimStart(s)|];
      assert removed == [s[0]] + s[1..][..|s[1..]| - |TrimStart(s[1..])|];
    }
  }

  /** `TrimEnd` keeps a prefix, removes only whitespace, and what it leaves does not end with whitespace. */
  lemma {:induction false} TrimEndStrips(s: string)
    ensures var r := TrimEnd(s);
      && |r| <= |s| && r == s[..|r|]
      && AllWhitespace(s[|r|..])
      && (r == [] || !IsWhitespace(r[|r| - 1]))
    decreases |s|
  {
    if s != [] && IsWhitespace(s[|s| - 1]) {
      var front := s[..|s| - 1];
      TrimEndStrips(front);
      assert s[|TrimEnd(s)|..] == front[|TrimEnd(front)|..] + [s[|s| - 1]];
    }
  }

  /** What `trim` leaves neither starts nor ends with whitespace, and is empty only when all of `s` was whitespace. */
  lemma TrimStripsBothEnds(s: string)
    ensures var r := Trim(s);
      && |r| <= |s|
      && (r == [] || (!IsWhitespace(r[0]) && !IsWhitespace(r[|r| - 1])))
      && (r == [] <==> AllWhitespace(s))
  {
    var t := TrimStart(s);
    var r := TrimEnd(t);
    TrimStartStrips(s);
    TrimEndStrips(t);
    if r != [] {
      assert r[0] == t[0];
    } else {
      assert t == t[|r|..];
      assert t == [];
      assert s == s[..|s| - |t|];
    }
  }

  predicate AllWhitespace(s: string)
  {
    forall k :: 0 <= k < |s| ==> IsWhitespace(s[k])
  }

  lemma {:induction false} TrimStartPadded(pad: string, core: string)
    requires AllWhitespace(pad)
    requires core != [] && !IsWhitespace(core[0])
    ensures TrimStart(pad + core) == core
    decreases |pad|
  {
    if pad != [] {
      assert (pad + core)[1..] == pad[1..] + core;
      TrimStartPadded(pad[1..], core);
    } else {
      assert pad + core == core;
    }
  }

  lemma {:induction false} TrimEndPadded(core: string, pad: string)
    requires AllWhitespace(pad)
    requires core != [] && !IsWhitespace(core[|core| - 1])
    ensures TrimEnd(core + pad) == core
    decreases |pad|
  {
    if pad != [] {
      assert (core + pad)[..|core + pad| - 1] == core + pad[..|pad| - 1];
      TrimEndPadded(core, pad[..|pad| - 1]);
    } else {
      assert core + pad == core;
    }
  }

  /** Trimming text padded with whitespace on both sides gives back the text, when it neither starts nor ends with whitespace. */
  lemma TrimPadded(front: string, core: string, back: string)
    requires AllWhitespace(front) && AllWhitespace(back)
    requires core != [] && !IsWhitespace(core[0]) && !IsWhitespace(core[|core| - 1])
    ensures Trim(front + core + back) == core
  {
    assert front + core + back == front + (core + back);
    TrimStartPadded(front, core + back);
    TrimEndPadded(core, back);
  }

  lemma DocumentEnds(middle: string)
    ensures var core := DocumentOpen + middle + DocumentClose;
      && core[..|Doctype|] == Doctype && core[|core| - |HtmlEnd|..] == HtmlEnd
      && core[0] == '<' && core[|core| - 1] == '>'
  {
    var core := DocumentOpen + middle + DocumentClose;
    assert core == Doctype + (HeadOpen + middle + FooterClose + HtmlEnd);
    assert core == (Doctype + HeadOpen + middle + FooterClose) + HtmlEnd;
  }

  /** The e-mail's HTML body: the template literal, trimmed. */
  function CreateEmailTemplate(data: EmailData, year: nat): string
  {
    Trim(UntrimmedTemplate(data, year))
  }

  /** The message is a single HTML document: it opens with `<!DOCTYPE html>` and closes with `</html>`. */
  lemma DocumentFrame(data: EmailData, year: nat)
    ensures var doc := Document(data, year);
      && doc[..|Doctype|] == Doctype && doc[|doc| - |HtmlEnd|..] == HtmlEnd
  {
    DocumentEnds(TemplateMiddle(data, year));
  }

  /** Trimming removes only the newline before the document and the newline and tab after it, leaving the document whole. */
  lemma TemplateTrims(data: EmailData, year: nat)
    ensures CreateEmailTemplate(data, year) == Document(data, year)
  {
    var middle := TemplateMiddle(data, year);
    DocumentEnds(middle);
    var core := Document(data, year);
    assert core == DocumentOpen + middle + DocumentClose;
    assert !IsWhitespace(core[0]) && !IsWhitespace(core[|core| - 1]);
    assert AllWhitespace("\n") && AllWhitespace("\n\t");
    TrimPadded("\n", core, "\n\t");
  }

  /** Maps the provider's reply to the result the caller sees. */
  function ReplyResult(reply: ProviderReply): (r: EmailResult)
    ensures r.success <==> reply.Replied? && reply.errorMessage.None?
    ensures r.success ==> r.emailId == reply.dataId && r.error.None?
    ensures !r.success ==> r.emailId.None? && r.error.Some?
    ensures reply.Replied? && reply.errorMessage.Some? ==> r.error == reply.errorMessage
    ensures reply.SendThrew? && reply.thrown.ErrorObject? ==> r.error == Some(reply.thrown.message)
    ensures reply.SendThrew? && reply.thrown.OtherValue? ==> r.error == Some(UnknownError)
  {
    match reply
    case Replied(id, error) =>
      if error.Some? then EmailResult(false, None, error) else EmailResult(true, id, None)
    case SendThrew(thrown) =>
      EmailResult(false, None, Some(ErrorMessageOrUnknown(thrown)))
  }

  /**
   * `sendROIReportEmail`: the message it hands to the provider and the result
   * it returns for the provider's `reply`. `year` is the current year.
   */
  function SendROIReportEmail(data: EmailData, year: nat, reply: ProviderReply): (r: (OutgoingEmail, EmailResult))
    ensures r.0.to == data.email && r.0.from == FromAddress
    ensures r.0.subject == Subject(data.name)
    ensures r.0.html == CreateEmailTemplate(data, year)
    ensures r.0.tags == Tags
    ensures r.1 == ReplyResult(reply)
  {
    (OutgoingEmail(FromAddress, data.email, Subject(data.name), CreateEmailTemplate(data, year), Tags), ReplyResult(reply))
  }

  lemma ContainsLeft(a: string, b: string)
    ensures Contains(a + b, a)
  {
    assert OccursAt(a + b, a, 0);
  }

  lemma ContainsRight(a: string, b: string)
    ensures Contains(a + b, b)
  {
    assert OccursAt(a + b, b, |a|);
  }

  /** The body contains its middle part. */
  lemma ContainsMiddlePart(data: EmailData, year: nat)
    ensures Contains(CreateEmailTemplate(data, year), TemplateMiddle(data, year))
  {
    var middle := TemplateMiddle(data, year);
    TemplateTrims(data, year);
    ContainsLeft(DocumentOpen + middle, DocumentClose);
    ContainsRight(DocumentOpen, middle);
    ContainsTransitive(CreateEmailTemplate(data, year), DocumentOpen + middle, middle);
  }

  /** The greeting names the lead by first name. */
  lemma GreetsByFirstName(data: EmailData, year: nat)
    ensures Contains(CreateEmailTemplate(data, year), Greeting(data.name))
  {
    var html, g := CreateEmailTemplate(data, year), Greeting(data.name);
    var p1 := g + AfterGreeting;
    var p2 := p1 + CompanyText(data.company);
    var p3 := p2 + AfterCompanyText;
    var p4 := p3 + PdfSection(data.pdfUrl);
    var p5 := p4 + AfterPdfSection;
    ContainsMiddlePart(data, year);
    ContainsLeft(p5, Decimal(year));
    ContainsTransitive(html, p5 + Decimal(year), p5);
    ContainsLeft(p4, AfterPdfSection);
    ContainsTransitive(html, p5, p4);
    ContainsLeft(p3, PdfSection(data.pdfUrl));
    ContainsTransitive(html, p4, p3);
    ContainsLeft(p2, AfterCompanyText);
    ContainsTransitive(html, p3, p2);
    ContainsLeft(p1, CompanyText(data.company));
    ContainsTransitive(html, p2, p1);
    ContainsLeft(g, AfterGreeting);
    ContainsTransitive(html, p1, g);
  }

  /** The body names the company when there is one, and "your organization" otherwise. */
  lemma MentionsCompany(data: EmailData, year: nat)
    ensures Contains(CreateEmailTemplate(data, year), CompanyText(data.company))
    ensures TruthyString(data.company) ==> Contains(CreateEmailTemplate(data, year), CompanyIntro + data.company.value + ".")
    ensures !TruthyString(data.company) ==> Contains(CreateEmailTemplate(data, year), CompanyIntro + "your organization.")
  {
    var html, c := CreateEmailTemplate(data, year), CompanyText(data.company);
    var p1 := Greeting(data.name) + AfterGreeting;
    var p2 := p1 + c;
    var p3 := p2 + AfterCompanyText;
    var p4 := p3 + PdfSection(data.pdfUrl);
    var p5 := p4 + AfterPdfSection;
    ContainsMiddlePart(data, year);
    ContainsLeft(p5, Decimal(year));
    ContainsTransitive(html, p5 + Decimal(year), p5);
    ContainsLeft(p4, AfterPdfSection);
    ContainsTransitive(html, p5, p4);
    ContainsLeft(p3, PdfSection(data.pdfUrl));
    ContainsTransitive(html, p4, p3);
    ContainsLeft(p2, AfterCompanyText);
    ContainsTransitive(html, p3, p2);
    ContainsRight(p1, c);
    ContainsTransitive(html, p2, c);
  }

  /** The body links to the report when there is a report URL. */
  lemma LinksToReport(data: EmailData, year: nat)
    requires TruthyString(data.pdfUrl)
    ensures Contains(CreateEmailTemplate(data, year), Href(data.pdfUrl.value))
  {
    var html, section := CreateEmailTemplate(data, year), PdfSection(data.pdfUrl);
    var p3 := Greeting(data.name) + AfterGreeting + CompanyText(data.company) + AfterCompanyText;
    var p4 := p3 + section;
    var p5 := p4 + AfterPdfSection;
    ContainsMiddlePart(data, year);
    ContainsLeft(p5, Decimal(year));
    ContainsTransitive(html, p5 + Decimal(year), p5);
    ContainsLeft(p4, AfterPdfSection);
    ContainsTransitive(html, p5, p4);
    ContainsRight(p3, section);
    ContainsTransitive(html, p4, section);
    ContainsTransitive(html, section, Href(data.pdfUrl.value));
  }
}
