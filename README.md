# ProofIQ PDF service — a Dafny model

This project models the server side of the ProofIQ lead and report service. It covers:

- the ROI calculator;
- the SVG-to-PDF converter that draws the three ROI figures over the rendered report;
- the object-store upload that names and publishes a report;
- the report e-mail;
- the `/api/leads` handler and its background report processing;
- the `/api/generate-pdf` handler.

There is one Dafny module per source file:

- `RoiCalculator` in `roi_calculator.dfy`;
- `SvgToPdf` in `svg_to_pdf.dfy`;
- `S3Upload` in `s3_upload.dfy`;
- `EmailService` in `email_service.dfy`;
- `Leads` in `leads.dfy`;
- `GeneratePdf` in `generate_pdf.dfy`.

Two support modules complete the set. `Js` (`js.dfy`) holds the JavaScript notions the code leans on:

- `undefined` as `Option`;
- the truthiness of strings and numbers;
- thrown values;
- `error?.message || 'Unknown error'`;
- the `\s` class;
- `String(n)`.

`Http` (`http.dfy`) holds the status codes and JSON bodies the handlers send.

## How the code is modelled

- **Pure computations are functions.** This covers `calculateROI`, the object key and URL, the e-mail template and subject, and the generate-pdf handler. Each function's contract is proved.
- **`convertSvgToPdf` is imperative.** It is a method that creates a `PdfPage` object and appends drawing operations to it in the source's order. Its `ensures` ties the page's final operation list to the specification function `OverlayOps`. The lemmas about `OverlayOps` state where the cards and figures land.
- **The leads handler is a method with the source's early returns.** It returns three things:
  - the response;
  - the row it inserts, if any;
  - the background job it starts, if any.
- **`processReportAsync` is a method.** It returns the externally visible steps it takes, in order:
  - read the template;
  - render;
  - upload;
  - send the e-mail;
  - update the lead.
- **Every external answer is a parameter.** These are:
  - the database insert's id or thrown error;
  - the renderer's bytes;
  - the object store's reply;
  - the mail provider's reply;
  - `Date.now()`;
  - the current year.
- **Numbers are exact reals.** `Math.round` is `floor(x + 0.5)`.

Two facts about the code are worth stating on their own:

- **The worked example.** For 10,000 orders of 300 s, `calculateROI` gives 10000 × (300/3600) × 0.9 × 50 = $37,500 of efficiency gains. `RoiCalculator.WorkedExample` proves that figure.
- **No link annotation.** `convertSvgToPdf` draws only an image, three rectangles and three texts. It adds no link annotation to the PDF.

## Model

| member | source | states |
|---|---|---|
| RoiCalculator.MathRound | api/roiCalculator.ts:35 | `Math.round` gives the integer within half a unit of its argument, halves going up |
| RoiCalculator.EfficiencyGains | api/roiCalculator.ts:33-35 | hours saved (90% of volume × review seconds / 3600) at $50/h, rounded to the cent, equals round(volume × seconds × 1.25) cents |
| RoiCalculator.ComplianceAccuracy | api/roiCalculator.ts:40-42 | 5% of orders prevented, times the violation cost, rounded to the cent, equals round(5 × volume × cost) cents |
| RoiCalculator.CalculateROI | api/roiCalculator.ts:22-52 | both components are whole cents as above, and the annual value saved is exactly their sum |
| RoiCalculator.ComplianceExactForIntegers | api/roiCalculator.ts:40-42 | with whole-number volume and cost, no rounding happens: the savings are 5 × volume × cost cents |
| RoiCalculator.EnrollmentsIgnored | api/roiCalculator.ts:23-45 | the annual enrollment count has no influence on any result |
| RoiCalculator.NonNegative | api/roiCalculator.ts:33-45 | non-negative inputs give non-negative amounts |
| RoiCalculator.EfficiencyMonotone | api/roiCalculator.ts:33-35 | efficiency gains never decrease when the volume or the review time grows |
| RoiCalculator.MathRoundMonotone | api/roiCalculator.ts:35 | rounding preserves order |
| RoiCalculator.WorkedExample | api/roiCalculator.ts:22-52 | 10,000 orders, 300 s, $500 per violation give $37,500 + $250,000 = $287,500 |
| RoiCalculator.CalculatorDataFrom | api/leads.ts:91-95 | the calculator data exists exactly when all four fields are truthy, and then carries their values unchanged; the PDF endpoint's validation (generate-pdf.ts, lines 30-35) applies the same rule |
| SvgToPdf.RasterOptions | api/svgToPdf.ts:17-22 | a fit-to-width option is passed exactly when the width is truthy, carrying that width |
| SvgToPdf.Scale | api/svgToPdf.ts:32-33 | the scale maps the 776-unit design width onto the raster width |
| SvgToPdf.CardAmounts | api/svgToPdf.ts:54-57 | one amount per card |
| SvgToPdf.CardOps | api/svgToPdf.ts:66-116 | two operations, a rectangle and then its text, per card |
| SvgToPdf.PdfPage.constructor | api/svgToPdf.ts:39 | the page has the raster's size and nothing drawn yet |
| SvgToPdf.PdfPage.DrawImage | api/svgToPdf.ts:45-50 | appends one image operation and changes nothing else |
| SvgToPdf.PdfPage.DrawRectangle | api/svgToPdf.ts:68-74 | appends one rectangle operation and changes nothing else |
| SvgToPdf.PdfPage.DrawText | api/svgToPdf.ts:76-82 | appends one text operation and changes nothing else |
| SvgToPdf.ConvertSvgToPdf | api/svgToPdf.ts:11-122 | the raster option follows the width; a fresh page of the raster's size receives exactly the operations of `OverlayOps`, in order |
| SvgToPdf.CardOpAt | api/svgToPdf.ts:66-116 | card i contributes its rectangle at 2i and its text at 2i+1 |
| SvgToPdf.CardOpsListed | api/svgToPdf.ts:66-116 | the six card operations, written out with the source's coordinates |
| SvgToPdf.OverlayOps | api/svgToPdf.ts:45-117 | the first operation is the full-page image of the raster's size; it is the only one exactly when there is no calculator data |
| SvgToPdf.OverlayShape | api/svgToPdf.ts:45-117 | the first operation is the full-page image; there are 7 operations with calculator data and 1 without, rectangles and texts alternating |
| SvgToPdf.BackgroundUnaffectedByData | api/svgToPdf.ts:45-53 | the operations without data are a prefix of those with data |
| SvgToPdf.CardRectangleFlipped | api/svgToPdf.ts:68-108 | each card rectangle's y is the page height minus the scaled bottom of the card, so the top-left design coordinates flip into PDF bottom-left coordinates |
| SvgToPdf.CardTextPlaced | api/svgToPdf.ts:76-116 | each text is at the card's scaled baseline, 28 × scale in size, in Helvetica Bold and the text colour |
| SvgToPdf.CardAmountsInOrder | api/svgToPdf.ts:54-57 | the three texts show efficiency gains, compliance savings and annual value saved, in that order |
| SvgToPdf.TextInsideCard | api/svgToPdf.ts:66-116 | every text's anchor lies inside its card's rectangle |
| SvgToPdf.CardsDisjoint | api/svgToPdf.ts:66-108 | the three card rectangles do not overlap |
| SvgToPdf.CardsWithinPage | api/svgToPdf.ts:66-108 | when the raster is at least as tall as the design's 445 units scaled, every card lies on the page |
| S3Upload.ObjectKey | api/s3Upload.ts:29-30 | the key is `proof-iq/`, the decimal timestamp, `-`, the file name, `.pdf` |
| S3Upload.PublicUrl | api/s3Upload.ts:45-46 | the URL is an https URL ending in `/` and the key |
| S3Upload.UploadPdfToS3 | api/s3Upload.ts:14-49 | the put is for the configured bucket, that key, the bytes and `application/pdf`; the URL is returned exactly when the store accepts, and its error is rethrown unchanged |
| S3Upload.KeyInjectiveInTimestamp | api/s3Upload.ts:29-30 | uploads of one file name at different milliseconds get different keys |
| S3Upload.KeyInjectiveInFileName | api/s3Upload.ts:29-30 | different file names at the same millisecond get different keys |
| S3Upload.TimestampEndsAtFirstDash | api/s3Upload.ts:30 | after the prefix, the key's first `-` is the one just after the timestamp's digits |
| S3Upload.KeyInjective | api/s3Upload.ts:29-30 | equal keys come from the same timestamp and the same file name |
| S3Upload.KeyRecoverableFromUrl | api/s3Upload.ts:46 | the public URL ends with the whole key, which begins with `proof-iq/` |
| S3Upload.KeyCharacters | api/s3Upload.ts:30 | a file name of letters, digits and `-` yields a key of letters, digits, `-`, `/` and `.` |
| EmailService.Subject | api/emailService.ts:24 | the subject is the full name followed by ", Your ProofIQ ROI Analysis is Ready" |
| EmailService.FirstName | api/emailService.ts:49 | the first name is the longest prefix of the name without a space, which is `split(' ')[0]` |
| EmailService.PdfSection | api/emailService.ts:54-70 | the download section is empty exactly when the URL is falsy, and otherwise links to the URL |
| EmailService.CompanyTextNamesCompany | api/emailService.ts:50-52 | the company sentence is the fixed introduction, then the company when it is truthy and "your organization" otherwise, then a full stop |
| EmailService.TrimStartStrips | api/emailService.ts:170 | the front half of `trim()` keeps a suffix, removes only whitespace, and leaves text that does not start with whitespace |
| EmailService.TrimEndStrips | api/emailService.ts:170 | the back half of `trim()` keeps a prefix, removes only whitespace, and leaves text that does not end with whitespace |
| EmailService.TrimStripsBothEnds | api/emailService.ts:170 | `trim()` leaves text with no whitespace at either end, and leaves nothing exactly when the input is all whitespace |
| EmailService.TrimPadded | api/emailService.ts:170 | `trim()` of whitespace + a core without outer whitespace + whitespace is the core |
| EmailService.CreateEmailTemplate | api/emailService.ts:47-170 | the e-mail body: the template literal, trimmed; what it returns is stated by `TemplateTrims` (exactly the document) and `DocumentFrame` (from `<!DOCTYPE html>` to `</html>`) |
| EmailService.TemplateTrims | api/emailService.ts:72-170 | trimming the template literal removes only the surrounding whitespace and leaves the whole document |
| EmailService.DocumentFrame | api/emailService.ts:72-170 | that document starts with `<!DOCTYPE html>` and ends with `</html>` |
| EmailService.ReplyResult | api/emailService.ts:32-44 | success exactly when the provider answered without error; otherwise the provider's message, or the thrown Error's message, or "Unknown error" |
| EmailService.SendROIReportEmail | api/emailService.ts:10-45 | the message goes from the fixed sender to the lead's address, with the subject and the template above |
| EmailService.ContainsMiddlePart | api/emailService.ts:72-170 | the trimmed message contains the whole personalised body |
| EmailService.GreetsByFirstName | api/emailService.ts:49-95 | the message contains "Hi <first name>," |
| EmailService.MentionsCompany | api/emailService.ts:50-99 | the message names the company when one is given, and "your organization" otherwise |
| EmailService.LinksToReport | api/emailService.ts:54-102 | with a report URL, the message contains a link to it |
| Js.StringOrNull | api/leads.ts:79-80 | a falsy string becomes NULL through the or-operator: the model keeps a non-empty string and turns every falsy one into NULL |
| Js.NumberOrNull | api/leads.ts:81-82 | a falsy number becomes NULL through the or-operator: the model keeps a non-zero number and turns every falsy one into NULL |
| Js.MessageOrUnknown | api/leads.ts:125 | the reported message is the error's non-empty message, or "Unknown error"; it is never empty |
| Js.ErrorMessageOrUnknown | api/emailService.ts:42 | an `Error`'s message, and "Unknown error" for any other thrown value |
| Js.Decimal | api/s3Upload.ts:30 | `String(n)` is a non-empty run of digits without a leading zero |
| Js.DecimalRoundTrip | api/s3Upload.ts:30 | reading back `String(n)` gives n |
| Js.DecimalInjective | api/s3Upload.ts:30 | distinct timestamps print differently |
| Js.IndexOf | api/leads.ts:64 | the first `@`, with none before it |
| Leads.IsValidEmail | api/leads.ts:64-65 | an accepted address has at least five characters and a single `@`, which is neither first nor among the last three |
| Leads.ValidEmailMatchesPattern | api/leads.ts:64-65 | every address the check accepts matches `^[^\s@]+@[^\s@]+\.[^\s@]+$` |
| Leads.PatternMatchIsValidEmail | api/leads.ts:64-65 | every string matching the pattern is accepted |
| Leads.EmailCheckMatchesPattern | api/leads.ts:64-67 | the check and the pattern agree on every string |
| Leads.NewLeadRow | api/leads.ts:71-84 | the row holds the name and e-mail, each optional field or NULL when it is falsy, no report URL, and status 'new' |
| Leads.CreatedResponseMessage | api/leads.ts:119 | "Lead created successfully", with ". Report will be sent shortly." appended exactly when a report was started |
| Leads.HandleLead | api/leads.ts:22-128 | OPTIONS gets 200 with no body; GET gets 200 `{status:'ok'}`; other non-POST methods get 405; a falsy name or e-mail gets 400; a malformed e-mail gets 400; a row with falsy optional fields as NULL, status 'new' and no report URL is inserted exactly for valid submissions; an insert failure gets 500 with its message; otherwise 201 with the new id; a report job is started exactly when all four calculator fields are truthy |
| Leads.SanitizeEmail | api/leads.ts:163 | same length; every letter or digit kept in place and every other character replaced by `-` |
| Leads.SanitizedCharacters | api/leads.ts:163 | the result holds only letters, digits and `-` |
| Leads.SanitizeIdempotent | api/leads.ts:163 | sanitising a sanitised address changes nothing |
| Leads.ReportKeyCharacters | api/leads.ts:163-167 | the report's object key holds only letters, digits, `-`, `/` and `.` |
| Leads.ProcessReportAsync | api/leads.ts:131-199 | the calls the run makes, with their arguments and in order, are exactly `ReportSteps`: the results of the upload and of the e-mail service decide how far it goes |
| Leads.ReportStepsStopAtFirstFailure | api/leads.ts:143-198 | the run ends at the first of the template read, the render and the upload that throws; the lead is updated exactly when all of them succeeded and the e-mail service reported success |
| Leads.ReportStepsArguments | api/leads.ts:144-191 | the template is read first; the render is at 1200 px with the lead's data; the rendered bytes are uploaded under the sanitised e-mail; the e-mail goes to the lead's name, address and company with the upload's public URL; that same URL is written to the lead |
| Leads.RecordedUrlIsLinked | api/leads.ts:165-191 | in a run that updates the lead, the e-mail sent links to the URL recorded |
| GeneratePdf.HandleGeneratePdf | api/generate-pdf.ts:12-65 | non-POST gets 405; a missing or zero field gets 400; otherwise the converter is called at 1200 px with the four fields unchanged; its bytes give 200 and its error gives 500 with the message |
| GeneratePdf.RefusalIgnoresConverter | api/generate-pdf.ts:17-39 | a refused request's response does not depend on the converter |
| GeneratePdf.SuccessIffRendered | api/generate-pdf.ts:49-57 | the reply is 200 exactly when the request was valid and rendering returned |

## Left out

- `formatCurrency` and `formatNumber`: `Intl.NumberFormat` locale formatting is outside the model. A text operation carries the amount it shows, not its formatted string.
- SvgToPdf.ConvertSvgToPdf: the SVG rasterisation (resvg), PNG encoding and embedding, font embedding and `save()` are library code. The raster's width and height are parameters, and the method returns the page's drawing operations instead of PDF bytes.
- `injectDynamicValues` is imported by the converter but never called. `svgDynamicValues.ts` is not part of this model.
- Leads.HandleLead: the database, the environment variables and CORS headers are left out. The INSERT's result is a parameter, `created_at`/`updated_at` (`NOW()`) are not modelled, and the response headers are not modelled.
- Leads.HandleLead: a request whose body is null or missing makes the destructuring throw and yields a 500. The model always has a body whose fields are present or absent. A string, number or array body gives all fields absent, which the model covers: it is answered 400 "Name and email are required".
- Leads.HandleLead: `name` and `email` are taken as strings. Other JSON types (numbers, objects) reaching the regular expression are not modelled.
- Leads.HandleLead and GeneratePdf.HandleGeneratePdf: the four calculator fields are taken as numbers. Other JSON types are not modelled; the string "0", for example, is truthy in the service and would pass the check.
- GeneratePdf.HandleGeneratePdf: a POST with no body makes the destructuring of `request.body` throw a TypeError. The service then answers 500 "Failed to generate PDF" with that error's message. `PdfRequest` always has the four fields, present or absent, so this path is not modelled.
- Leads.SanitizeEmail: the model replaces each Unicode character. The service's `replace` without the `u` flag works on UTF-16 code units, so a character outside the Basic Multilingual Plane becomes two `-` in the service and one in the model. "Same length" counts characters here, not the JavaScript `length`.
- Leads.ProcessReportAsync: it is started before the 201 reply and runs synchronously up to its first `await`, which covers the template read and the rasterisation inside `convertSvgToPdf`; the rest runs after the reply, and nothing awaits it. The model runs it to completion on its own and does not model interleaving with other requests. Logging via `console.log` and `console.error` is left out.
- Leads.ProcessReportAsync: the template file's contents, and so the SVG passed to the renderer, are not modelled. The step records that the file was read.
- Leads.ProcessReportAsync: `Promise.all` over the single upload is the same as awaiting it, so it is modelled as a plain call. The `.catch` on the background promise only logs, so it is not modelled.
- S3Upload.UploadPdfToS3: `Date.now()` is a parameter, and S3 client construction with credentials is not modelled. Two uploads in the same millisecond with the same sanitised address would share a key. `S3Upload.KeyInjective` proves that the key determines both the timestamp and the file name.
- EmailService.CreateEmailTemplate: the HTML markup, styling and static paragraphs are abbreviated to fixed strings, including those of the download section. The model keeps these parts exactly: `Hi ${firstName},`, the company sentence, `href="${pdfUrl}"`, the year, and the first line (`<!DOCTYPE html>`) and last line (`</html>`). `new Date().getFullYear()` is the `year` parameter.
- EmailService.SendROIReportEmail: the API key and the network call are left out. The provider's answer is a parameter.
- PDF bytes in the generate-pdf reply are shown as the byte sequence. Its base64 text encoding is not modelled.
- RoiCalculator.CalculateROI: arithmetic is exact, not IEEE-754 double precision. A product within one double rounding error of a half cent could round differently in the service.
- SvgToPdf.ConvertSvgToPdf: the overlay's coordinates, sizes and scale are exact reals in the model and IEEE-754 doubles in the service. The drawn positions may differ from the model's by rounding error.
- Js.TruthyNumber: `NaN` is not modelled; a present number is falsy only when zero.

