/**
 * The lead-capture endpoint: method dispatch, validation of the submitted
 * name and e-mail, the database insert, the decision to produce a report,
 * and the background steps that produce and deliver it.
 *
 * The database, the object store, the mail provider, the clock and the
 * template file are outside the model: what they answer is passed in, and
 * what the code asks of them is returned.
 */
module Leads {
  import opened Js
  import opened Http
  import opened RoiCalculator
  import opened S3Upload
  import opened EmailService

  /** The JSON body of a submission. */
  datatype LeadData = LeadData(
    name: Option<string>,
    email: Option<string>,
    phone: Option<string>,
    company: Option<string>,
    message: Option<string>,
    source: Option<string>,
    annualLifelineEnrollments: Option<real>,
    averageReviewTimeSeconds: Option<real>,
    annualOrderVolume: Option<real>,
    averageNonComplianceCost: Option<real>)

  datatype Request = Request(httpMethod: string, body: LeadData)

  /** The row the handler inserts: falsy optional fields become NULL; the report URL starts NULL and the status 'new'. */
  datatype LeadRow = LeadRow(
    name: string,
    email: string,
    phone: Option<string>,
    company: Option<string>,
    message: Option<string>,
    source: Option<string>,
    annualLifelineEnrollments: Option<real>,
    averageReviewTimeSeconds: Option<real>,
    annualOrderVolume: Option<real>,
    averageNonComplianceCost: Option<real>,
    pdfReportUrl: Option<string>,
    status: string)

  /** What the background report processing is started with. */
  datatype ReportJob = ReportJob(leadId: int, name: string, email: string, company: Option<string>, calculatorData: CalculatorInputs)

  const CreatedMessage: string := "Lead created successfully"
  const ReportNotice: string := ". Report will be sent shortly."

  // ---------------------------------------------------------------------------
  // E-mail shape: /^[^\s@]+@[^\s@]+\.[^\s@]+$/

  /** A character of the class `[^\s@]`. */
  predicate IsAddressChar(c: char)
  {
    !IsWhitespace(c) && c != '@'
  }

  /** A run of `[^\s@]` characters. */
  predicate AllAddressChars(s: string)
  {
    forall k :: 0 <= k < |s| ==> IsAddressChar(s[k])
  }

  /**
   * The language of the pattern: a non-empty local part, `@`, a non-empty
   * host, `.`, a non-empty last label, none of the three containing
   * whitespace or `@`.
   */
  ghost predicate MatchesEmailPattern(s: string)
  {
    exists i, j :: 0 < i < j - 1 < |s| - 2 && s[i] == '@' && s[j] == '.'
      && AllAddressChars(s[..i]) && AllAddressChars(s[i + 1..j]) && AllAddressChars(s[j + 1..])
  }

  /** Whether `d` has a `.` that is neither its first nor its last character. */
  predicate HasInnerDot(d: string)
  {
    exists k | 0 < k < |d| - 1 :: d[k] == '.'
  }

  /**
   * The e-mail check, character by character: no whitespace anywhere, a
   * first `@` that is not the first character, no second `@`, and a `.`
   * inside the domain that is neither its first nor its last character.
   */
  function IsValidEmail(s: string): (valid: bool)
    ensures valid ==> |s| >= 5 && 0 < IndexOf(s, '@') < |s| - 3
    ensures valid ==> forall k :: 0 <= k < |s| && s[k] == '@' ==> k == IndexOf(s, '@')
  {
    var at := IndexOf(s, '@');
    && 0 < at < |s|
    && (forall k :: 0 <= k < |s| ==> !IsWhitespace(s[k]))
    && AllAddressChars(s[at + 1..])
    && HasInnerDot(s[at + 1..])
  }

  /** A valid address has the pattern's three parts. */
  lemma ValidEmailMatchesPattern(s: string)
    requires IsValidEmail(s)
    ensures MatchesEmailPattern(s)
  {
    var at := IndexOf(s, '@');
    var d := s[at + 1..];
    var k :| 0 < k < |d| - 1 && d[k] == '.';
    var j := at + 1 + k;
    assert s[j] == d[k];
    var local, host, last := s[..at], s[at + 1..j], s[j + 1..];
    forall m | 0 <= m < |local| ensures IsAddressChar(local[m]) {
      assert local[m] == s[m];
    }
    forall m | 0 <= m < |host| ensures IsAddressChar(host[m]) {
      assert host[m] == d[m];
    }
    forall m | 0 <= m < |last| ensures IsAddressChar(last[m]) {
      assert last[m] == d[k + 1 + m];
    }
  }

  /** Two runs of `[^\s@]` around a `.` make one run. */
  lemma AddressCharsAroundDot(d: string, k: nat)
    requires k < |d| && d[k] == '.'
    requires AllAddressChars(d[..k]) && AllAddressChars(d[k + 1..])
    ensures AllAddressChars(d)
  {
    var front, back := d[..k], d[k + 1..];
    forall m | 0 <= m < |d| ensures IsAddressChar(d[m]) {
      if m < k {
        assert d[m] == front[m];
      } else if m > k {
        assert d[m] == back[m - k - 1];
      }
    }
  }

  /** Runs of `[^\s@]` around an `@` hold no whitespace, and that `@` is the first. */
  lemma AddressCharsAroundAt(s: string, i: nat)
    requires i < |s| && s[i] == '@'
    requires AllAddressChars(s[..i]) && AllAddressChars(s[i + 1..])
    ensures IndexOf(s, '@') == i
    ensures forall m :: 0 <= m < |s| ==> !IsWhitespace(s[m])
  {
    var local, d := s[..i], s[i + 1..];
    assert forall m :: 0 <= m < i ==> s[m] == local[m];
    forall m | 0 <= m < |s| ensures !IsWhitespace(s[m]) {
      if m > i {
        assert s[m] == d[m - i - 1];
      }
    }
  }

  /** A string of the pattern's shape passes the check. */
  lemma PatternMatchIsValidEmail(s: string)
    requires MatchesEmailPattern(s)
    ensures IsValidEmail(s)
  {
    var i, j :| 0 < i < j - 1 < |s| - 2 && s[i] == '@' && s[j] == '.'
      && AllAddressChars(s[..i]) && AllAddressChars(s[i + 1..j]) && AllAddressChars(s[j + 1..]);
    var d, k := s[i + 1..], j - i - 1;
    assert d[..k] == s[i + 1..j] && d[k + 1..] == s[j + 1..];
    AddressCharsAroundDot(d, k);
    AddressCharsAroundAt(s, i);
    assert HasInnerDot(d);
  }

  /** The character-level check accepts exactly the strings the pattern matches. */
  lemma EmailCheckMatchesPattern(s: string)
    ensures IsValidEmail(s) <==> MatchesEmailPattern(s)
  {
    if IsValidEmail(s) {
      ValidEmailMatchesPattern(s);
    }
    if MatchesEmailPattern(s) {
      PatternMatchIsValidEmail(s);
    }
  }

  // ---------------------------------------------------------------------------
  // Calculator data and the response message

  /**
   * `hasCalculatorData` and the job's `calculatorData`: the four fields when
   * all are present and non-zero, by the rule the PDF endpoint applies too.
   */
  function CalculatorData(body: LeadData): Option<CalculatorInputs>
  {
    CalculatorDataFrom(body.annualLifelineEnrollments, body.averageReviewTimeSeconds,
      body.annualOrderVolume, body.averageNonComplianceCost)
  }

  /** The message of a 201 reply: the report notice is appended exactly when a report was started. */
  function CreatedResponseMessage(reportStarted: bool): (m: string)
    ensures |m| >= |CreatedMessage| && m[..|CreatedMessage|] == CreatedMessage
    ensures reportStarted ==> m[|CreatedMessage|..] == ReportNotice
    ensures !reportStarted ==> m == CreatedMessage
  {
    CreatedMessage + (if reportStarted then ReportNotice else "")
  }

  /** The row inserted for a submission with a name and an e-mail. */
  function NewLeadRow(body: LeadData): (row: LeadRow)
    requires body.name.Some? && body.email.Some?
    ensures row.name == body.name.value && row.email == body.email.value
    ensures StringStoredOrNull(row.phone, body.phone) && StringStoredOrNull(row.company, body.company)
    ensures StringStoredOrNull(row.message, body.message) && StringStoredOrNull(row.source, body.source)
    ensures NumberStoredOrNull(row.annualLifelineEnrollments, body.annualLifelineEnrollments)
    ensures NumberStoredOrNull(row.averageReviewTimeSeconds, body.averageReviewTimeSeconds)
    ensures NumberStoredOrNull(row.annualOrderVolume, body.annualOrderVolume)
    ensures NumberStoredOrNull(row.averageNonComplianceCost, body.averageNonComplianceCost)
    ensures row.pdfReportUrl.None? && row.status == "new"
  {
    LeadRow(
      body.name.value, body.email.value,
      StringOrNull(body.phone), StringOrNull(body.company), StringOrNull(body.message), StringOrNull(body.source),
      NumberOrNull(body.annualLifelineEnrollments), NumberOrNull(body.averageReviewTimeSeconds),
      NumberOrNull(body.annualOrderVolume), NumberOrNull(body.averageNonComplianceCost),
      None, "new")
  }

  /** The submission passes the handler's checks: a non-empty name, a non-empty e-mail of the right shape. */
  predicate IsAcceptable(body: LeadData)
  {
    TruthyString(body.name) && TruthyString(body.email) && IsValidEmail(body.email.value)
  }

  /**
   * `handler`: `insert` is what the database answered to the INSERT (the new
   * lead's id, or a thrown error). Returns the response, the row inserted
   * (None when the handler stops before the database), and the background job
   * started (None when none is).
   */
  method HandleLead(request: Request, insert: Outcome<int>)
    returns (response: Response, row: Option<LeadRow>, job: Option<ReportJob>)
    ensures request.httpMethod == "OPTIONS" ==> response == Response(200, NoBody)
    ensures request.httpMethod == "GET" ==> response == Response(200, HealthOk)
    ensures request.httpMethod !in {"OPTIONS", "GET", "POST"} ==> response == MethodNotAllowed
    ensures request.httpMethod == "POST" && !(TruthyString(request.body.name) && TruthyString(request.body.email))
      ==> response == Response(400, ErrorBody("Name and email are required"))
    ensures request.httpMethod == "POST" && TruthyString(request.body.name) && TruthyString(request.body.email)
      && !IsValidEmail(request.body.email.value)
      ==> response == Response(400, ErrorBody("Invalid email format"))
    ensures row.Some? <==> request.httpMethod == "POST" && IsAcceptable(request.body)
    ensures row.Some? ==> row.value == NewLeadRow(request.body)
    ensures row.Some? && insert.Threw?
      ==> response == Response(500, ErrorWithMessage("Failed to create lead", MessageOrUnknown(insert.error)))
    ensures row.Some? && insert.Returned?
      ==> response == Response(201, LeadCreated(true, insert.value, CreatedResponseMessage(CalculatorData(request.body).Some?)))
    ensures job.Some? <==> row.Some? && insert.Returned? && CalculatorData(request.body).Some?
    ensures job.Some? ==> job.value == ReportJob(insert.value, request.body.name.value, request.body.email.value,
      request.body.company, CalculatorData(request.body).value)
  {
    row, job := None, None;
    if request.httpMethod == "OPTIONS" {
      return Response(200, NoBody), row, job;
    }
    if request.httpMethod == "GET" {
      return Response(200, HealthOk), row, job;
    }
    if request.httpMethod != "POST" {
      return MethodNotAllowed, row, job;
    }
    var body := request.body;
    if !TruthyString(body.name) || !TruthyString(body.email) {
      return Response(400, ErrorBody("Name and email are required")), row, job;
    }
    if !IsValidEmail(body.email.value) {
      return Response(400, ErrorBody("Invalid email format")), row, job;
    }
    row := Some(NewLeadRow(body));
    if insert.Threw? {
      return Response(500, ErrorWithMessage("Failed to create lead", MessageOrUnknown(insert.error))), row, job;
    }
    var leadId := insert.value;
    var calculatorData := CalculatorData(body);
    if calculatorData.Some? {
      job := Some(ReportJob(leadId, body.name.value, body.email.value, body.company, calculatorData.value));
    }
    response := Response(201, LeadCreated(true, leadId, CreatedResponseMessage(calculatorData.Some?)));
  }

  // ---------------------------------------------------------------------------
  // Background report processing

  /** `email.replace(/[^a-zA-Z0-9]/g, '-')`. */
  function SanitizeEmail(email: string): (r: string)
    ensures |r| == |email|
    ensures forall k :: 0 <= k < |r| ==> r[k] == (if IsAsciiAlnum(email[k]) then email[k] else '-')
  {
    if email == [] then []
    else [if IsAsciiAlnum(email[0]) then email[0] else '-'] + SanitizeEmail(email[1..])
  }

  /** Sanitising yields only letters, digits and `-`. */
  lemma SanitizedCharacters(email: string)
    ensures forall k :: 0 <= k < |SanitizeEmail(email)| ==> IsAsciiAlnum(SanitizeEmail(email)[k]) || SanitizeEmail(email)[k] == '-'
  {
  }

  /** Sanitising twice is sanitising once. */
  lemma SanitizeIdempotent(email: string)
    ensures SanitizeEmail(SanitizeEmail(email)) == SanitizeEmail(email)
  {
    var once := SanitizeEmail(email);
    var twice := SanitizeEmail(once);
    assert forall k :: 0 <= k < |once| ==> twice[k] == once[k];
  }

  /** The object key of a report for a sanitised e-mail holds only letters, digits, `-`, `/` and `.`. */
  lemma ReportKeyCharacters(timestamp: nat, email: string)
    ensures var key := ObjectKey(timestamp, SanitizeEmail(email));
      forall k :: 0 <= k < |key| ==> IsKeyChar(key[k])
  {
    SanitizedCharacters(email);
    KeyCharacters(timestamp, SanitizeEmail(email));
  }

  /** The pixel width reports are rendered at. */
  const ReportWidth: nat := 1200

  /** What the background steps meet: each external call's answer, the clock and the configuration. */
  datatype ReportEnvironment = ReportEnvironment(
    template: Outcome<string>,     // readFileSync of report.svg
    render: Outcome<seq<int>>,     // convertSvgToPdf's PDF bytes
    timestamp: nat,                // Date.now() at upload
    s3: S3Config,
    put: Outcome<()>,              // the object store's answer to the upload
    mailReply: ProviderReply,      // the mail provider's answer
    year: nat)                     // the current year, for the e-mail footer

  /** One externally visible step of the background processing. */
  datatype Step =
    | ReadTemplate
    | RenderPdf(width: nat, calculatorData: CalculatorInputs)
    | UploadPdf(pdf: seq<int>, fileName: string)
    | SendEmail(data: EmailData)
    | UpdateLeadReport(leadId: int, pdfReportUrl: string)

  /** The report's public URL for a job, as the upload computes it. */
  function ReportUrl(job: ReportJob, env: ReportEnvironment): string
  {
    PublicUrl(env.s3, ObjectKey(env.timestamp, SanitizeEmail(job.email)))
  }

  /**
   * The steps `processReportAsync` takes against the environment `env`, each
   * with the arguments the service passes: the template is read, the PDF
   * rendered at 1200 px wide, uploaded under the sanitised e-mail, the report
   * e-mail sent with the upload's URL, and the URL recorded on the lead only
   * when the e-mail was reported sent. The first step that throws ends the
   * processing (the error is only logged).
   */
  function ReportSteps(job: ReportJob, env: ReportEnvironment): seq<Step>
  {
    var render := RenderPdf(ReportWidth, job.calculatorData);
    if env.template.Threw? then [ReadTemplate]
    else if env.render.Threw? then [ReadTemplate, render]
    else
      var upload := UploadPdf(env.render.value, SanitizeEmail(job.email));
      if env.put.Threw? then [ReadTemplate, render, upload]
      else
        var url := ReportUrl(job, env);
        var send := SendEmail(EmailData(job.name, job.email, job.company, Some(url)));
        if ReplyResult(env.mailReply).success then [ReadTemplate, render, upload, send, UpdateLeadReport(job.leadId, url)]
        else [ReadTemplate, render, upload, send]
  }

  /**
   * The background processing as the service runs it, calling the upload and
   * the e-mail service and acting on what they return.
   */
  method ProcessReportAsync(job: ReportJob, env: ReportEnvironment) returns (steps: seq<Step>)
    ensures steps == ReportSteps(job, env)
  {
    steps := [ReadTemplate];
    if env.template.Threw? {
      return;
    }
    var render := RenderPdf(ReportWidth, job.calculatorData);
    steps := [ReadTemplate, render];
    if env.render.Threw? {
      return;
    }
    var pdfBytes := env.render.value;
    var sanitizedEmail := SanitizeEmail(job.email);
    var upload := UploadPdfToS3(pdfBytes, sanitizedEmail, env.s3, env.timestamp, env.put);
    steps := [ReadTemplate, render, UploadPdf(pdfBytes, sanitizedEmail)];
    if upload.1.Threw? {
      return;
    }
    var pdfUrl := upload.1.value;
    assert pdfUrl == ReportUrl(job, env);
    var emailData := EmailData(job.name, job.email, job.company, Some(pdfUrl));
    var sent := SendROIReportEmail(emailData, env.year, env.mailReply);
    assert sent.1 == ReplyResult(env.mailReply);
    steps := [ReadTemplate, render, UploadPdf(pdfBytes, sanitizedEmail), SendEmail(emailData)];
    if sent.1.success {
      steps := steps + [UpdateLeadReport(job.leadId, pdfUrl)];
    }
  }

  /**
   * The run stops exactly at the first failure (the template read, the
   * render, the upload), and the lead is updated exactly when everything
   * before succeeded and the e-mail was reported sent.
   */
  lemma ReportStepsStopAtFirstFailure(job: ReportJob, env: ReportEnvironment)
    ensures var n := |ReportSteps(job, env)|;
      && 1 <= n <= 5
      && (n == 1 <==> env.template.Threw?)
      && (n == 2 <==> env.template.Returned? && env.render.Threw?)
      && (n == 3 <==> env.template.Returned? && env.render.Returned? && env.put.Threw?)
      && (n == 5 <==> (env.template.Returned? && env.render.Returned? && env.put.Returned?
            && ReplyResult(env.mailReply).success))
  {
  }

  /**
   * Each step carries what the service passes: the template is read first,
   * the render is at 1200 px with the lead's data, the rendered PDF is
   * uploaded under the sanitised e-mail, the e-mail goes to the lead with the
   * report's public URL, and that URL is what is recorded on the lead.
   */
  lemma ReportStepsArguments(job: ReportJob, env: ReportEnvironment)
    ensures var steps := ReportSteps(job, env);
      && |steps| >= 1 && steps[0] == ReadTemplate
      && (|steps| >= 2 ==> steps[1] == RenderPdf(ReportWidth, job.calculatorData))
      && (|steps| >= 3 ==> steps[2] == UploadPdf(env.render.value, SanitizeEmail(job.email)))
      && (|steps| >= 4 ==> steps[3] == SendEmail(EmailData(job.name, job.email, job.company, Some(ReportUrl(job, env)))))
      && (|steps| == 5 ==> steps[4] == UpdateLeadReport(job.leadId, ReportUrl(job, env)))
  {
  }

  /**
   * In a run that records the report on the lead (see
   * `ReportStepsStopAtFirstFailure`), the e-mail sent just before links to
   * the very URL that is recorded.
   */
  lemma RecordedUrlIsLinked(job: ReportJob, env: ReportEnvironment)
    requires env.template.Returned? && env.render.Returned? && env.put.Returned?
    requires ReplyResult(env.mailReply).success
    ensures var data := EmailData(job.name, job.email, job.company, Some(ReportUrl(job, env)));
      Contains(SendROIReportEmail(data, env.year, env.mailReply).0.html, Href(ReportUrl(job, env)))
  {
    var data := EmailData(job.name, job.email, job.company, Some(ReportUrl(job, env)));
    LinksToReport(data, env.year);
  }
}
