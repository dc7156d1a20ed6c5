# Proposal generator and subscription flows, modelled in Dafny

The application sells access to a proposal generator for effluent-treatment
plants. This project models its core in Dafny:

- **Proposal document builder** (`generateProposalWord`). The builder walks a
  sparse proposal record and appends document blocks, one after another, to an
  array of sections. Blocks are headings, paragraphs, tables, spacers and page
  breaks. The document then opens with a cover and a table of contents, runs
  through sections 1 to 4 and ends with the exclusions. It also gets a page
  header, a footer and a file name.
  - `ProposalBlocks`: the formatting helpers.
  - `ProposalContent`: the input record and the static content.
  - `ProposalEquipment`: equipment sections, dosing systems, the sludge table and
    instrument lines.
  - `ProposalSections`: section contents, the outline of parts and the header.
  - `ProposalGenerator`: the generator itself, as methods that append to the
    section list.
- **Account side** (`SubscriptionRequests`):
  - the provider's session state;
  - the password login, which registers a missing administrator;
  - the signup request with its payment-proof upload and metadata record;
  - the administrator's decision on a subscription request (`handleRequest`).
- **Administrator dashboard** (`AdminDashboard`): the access guard, the list
  sorted newest first, the approval-duration selector, and the actions offered
  for each subscription status.
- **Proposal generator gate** (`ProposalAccess`): a chain of checks that
  unlocks the generator, and remembers the unlock for the browser session.
- **Sign-in and registration page** (`SignupWizard`):
  - its opening screen and the screens its buttons lead to;
  - the password check;
  - the payload the last step submits;
  - where a successful login is sent.

`JsValues` supplies the JavaScript values and string built-ins these rely on:
truthiness, `||`, `String(v)`, `includes`, `indexOf`, `split`/`join`, `trim`,
`replace` and `substring`.

The parts of the document are numbered by rank. A numbered heading *M.N* has
rank `1000*M + 10*N`; the unnumbered parts fit between these ranks. The
generator's output is proved to list the parts of the outline for the chosen
selection, each once and in increasing rank. Every numbered part is also proved
to open with a heading whose text starts with its number, "M. " or "M.N ", so
the numbers a reader sees increase through the document.

Two behaviours of the code are easy to miss, and the model keeps both:

- The saved file name uses the client name unchanged. No character is replaced.
- The first two client lines of the page header pass `spacingAfter: 0`. But
  `createParagraph` evaluates `options.spacingAfter || 120`, so they get 120
  like the third line.

## Model

| member | source | states |
|---|---|---|
| JsValues.JsString | src/utils/generateProposalWord.js:35-38 | `String(v)` is empty exactly for the empty string and is the string itself for a string |
| JsValues.IntToStringRoundTrip | src/utils/generateProposalWord.js:35-38 | the decimal rendering of an integer is a well-formed numeral that parses back to the same integer |
| JsValues.Contains | src/pages/Auth.jsx:69 | `includes` holds exactly when the text occurs at some position |
| JsValues.IndexOf | src/utils/generateProposalWord.js:826 | the index found is an occurrence with no earlier one; none found means no occurrence anywhere |
| JsValues.SplitJoin | src/utils/generateProposalWord.js:826 | joining the pieces of a split with the separator gives back the original text |
| JsValues.SplitPiecesAreFree | src/utils/generateProposalWord.js:826 | no piece of a split contains the separator |
| JsValues.AfterLast | src/context/AuthContext.jsx:81 | `split(sep).pop()` is the last piece of the split: a suffix of the text free of the separator, and the whole text when there is no separator |
| JsValues.TrimHasNoOuterSpace | src/pages/Auth.jsx:136 | a trimmed text neither starts nor ends with white space |
| JsValues.TrimIsSlice | src/pages/Auth.jsx:136 | a trimmed text is a slice of the original with only white space removed on either side |
| JsValues.ReplaceNonAlnum | src/context/AuthContext.jsx:82 | the length is kept; every character that is not an ASCII letter or digit becomes '_' and the others stay |
| JsValues.Prefix | src/context/AuthContext.jsx:82 | `substring(0, n)` is a prefix of length min(n, length) |
| ProposalBlocks.SafeString | src/utils/generateProposalWord.js:35-38 | "" exactly for undefined, null and ""; a string stays itself; a number gives its decimal text, so 0 gives "0" |
| ProposalBlocks.CreateText | src/utils/generateProposalWord.js:42-51 | a Calibri run of the safe string; 11 pt and black unless sizes or colours are given; bold and italics as asked |
| ProposalBlocks.CreateParagraph | src/utils/generateProposalWord.js:53-69 | the runs given, or one run from `createText`; spacing never zero; 1.5 line spacing; justified unless an alignment is given |
| ProposalBlocks.ZeroSpacingFallsBackToDefault | src/utils/generateProposalWord.js:62 | a requested spacing of 0 gives the default 120 |
| ProposalBlocks.CreateHeading | src/utils/generateProposalWord.js:71-80 | bold blue text of the safe string; level 1 or 2 exactly when asked, any other level the third; 18, 16 or 14 pt |
| ProposalBlocks.WidthAt | src/utils/generateProposalWord.js:84-122 | a cell gets the width at its index when there is one and it is non-zero, and no width otherwise |
| ProposalBlocks.CreateCell | src/utils/generateProposalWord.js:84-96 | one paragraph of the content; left aligned unless an alignment is given; the given width |
| ProposalBlocks.SimpleTableShape | src/utils/generateProposalWord.js:98-140 | at most one header row, present exactly when headers are given, bold and centred; then one row per data entry in input order, never a header; cell i carries `widths[i]` |
| ProposalBlocks.CreateSimpleTable | src/utils/generateProposalWord.js:98-140 | the loop that fills the rows builds the simple table, with one row per entry plus the header row when there is one |
| ProposalEquipment.FindParam | src/utils/generateProposalWord.js:358-359 | `find` returns the first entry that matches by name or id; none exactly when no entry matches |
| ProposalEquipment.InletTss | src/utils/generateProposalWord.js:493 | the DAF inlet TSS is truthy: the first TSS entry's value when that value is truthy, and "4000" when there is no TSS entry or the first one's value is falsy |
| ProposalEquipment.EquipBlocksShape | src/utils/generateProposalWord.js:475-485 | a level-2 heading "number title" with the scope suffix exactly when a scope is given; one paragraph per detail item, or one for a truthy value; a table exactly when there are rows |
| ProposalEquipment.DosingTables | src/utils/generateProposalWord.js:501-555 | a dosing system holds its calculation, pump, tank and agitator tables in that order, each optional one only when present |
| ProposalEquipment.DosingBlocksShape | src/utils/generateProposalWord.js:501-555 | a dosing system opens with a level-3 heading of its name, followed by caption, table and spacer for each group shown |
| ProposalEquipment.SludgeRowsShape | src/utils/generateProposalWord.js:787-794 | six rows of two cells labelled Dewatering Mechanism, Capacity, Processing Rate, Polymer Dosing System, Dosing Tank and Dosing Pump; a given mechanism is shown as given, otherwise the screw-press flag picks the machine; a given capacity and rate are shown with " Tons/day Solids" and " kg/hr"; the polymer system is always "Auto Dosing System" |
| ProposalEquipment.SludgeRowsDefaults | src/utils/generateProposalWord.js:787-794 | without calculation details the table shows a decanter centrifuge and the default dosing figures |
| ProposalEquipment.InstrumentRowShape | src/utils/generateProposalWord.js:826-827 | every instrument line gives three cells; location and range are never empty |
| ProposalEquipment.InstrumentRowOfThreeFields | src/utils/generateProposalWord.js:826-827 | "name - location - range" splits back into exactly those three non-empty fields whenever none holds " - " and the first two do not end in " -"; hyphens elsewhere, as in "4-20 mA", are allowed |
| ProposalEquipment.InstrumentRowWithoutSeparator | src/utils/generateProposalWord.js:826-827 | a line without " - " is its own name, with "-" for location and range |
| ProposalEquipment.InstrumentRowEmptyName | src/utils/generateProposalWord.js:826-827 | a line that starts with the separator shows the whole line as its name |
| ProposalSections.KeepSelected | src/utils/generateProposalWord.js:376 | the kept items are exactly the items whose title is selected |
| ProposalSections.KeepSelectedKeepsContentOrder | src/utils/generateProposalWord.js:375-396 | the kept items are a subsequence of the static content, in its order |
| ProposalSections.KeepSelectedIgnoresSelectionOrder | src/utils/generateProposalWord.js:375-396 | reordering or repeating the selected titles does not change the result |
| ProposalSections.InfluentCell | src/utils/generateProposalWord.js:357-366 | the first matching user entry's value (empty when missing) is shown, and the static default when no entry matches |
| ProposalSections.ExclusionParagraphs | src/utils/generateProposalWord.js:872-874 | one numbered paragraph per exclusion, in list order |
| ProposalSections.ExclusionsBlocks | src/utils/generateProposalWord.js:869-879 | section 5 is its level-1 heading, the introduction, one numbered paragraph per exclusion in order, and a spacer with the justified conclusion exactly when the conclusion is truthy |
| ProposalSections.OutlineMembership | src/utils/generateProposalWord.js:402-419 | a part appears in the body exactly when its selection condition holds: the anaerobic table and 4.6-4.12 with the anaerobic section, the aerobic table and 4.13-4.16 with the aerobic section, 4.20 with instruments |
| ProposalSections.OutlineInOrder | src/utils/generateProposalWord.js:265-879 | the parts of the body strictly increase in rank, so none appears twice and the order is fixed |
| ProposalSections.HeadingNumbersIncrease | src/utils/generateProposalWord.js:330-879 | the numbers of the numbered parts increase through the body, and a part left out leaves a gap; `ProposalGenerator.HeadingsCarryTheirNumbers` ties each number to the heading text the part opens with |
| ProposalSections.PageHeaderOf | src/utils/generateProposalWord.js:200-239 | the logo when it loaded, the company name in green otherwise; three right-aligned grey client lines: name, reference and date |
| ProposalSections.FileNameShape | src/utils/generateProposalWord.js:896 | "Technical_Proposal_" + client name + ".docx"; "Draft" when the name is falsy; the name is not sanitised |
| ProposalGenerator.Details | src/utils/generateProposalWord.js:478-481 | each detail item of a list is appended as its own paragraph, in order, or the one value when it is truthy |
| ProposalGenerator.CalculationGroup | src/utils/generateProposalWord.js:505-511 | the "Calculations:" caption, the two-column calculation table and a spacer are appended exactly when the system has calculations |
| ProposalGenerator.PumpGroup | src/utils/generateProposalWord.js:513-524 | the "A) Dosing Pump" caption, the pump table and a spacer are always appended |
| ProposalGenerator.TankGroup | src/utils/generateProposalWord.js:526-539 | the "B) Dosing Tank" caption, the tank table and a spacer are appended exactly when the system has a tank |
| ProposalGenerator.AgitatorGroup | src/utils/generateProposalWord.js:541-554 | the "C) Agitator" caption, the agitator table and a spacer are appended exactly when the system has an agitator |
| ProposalGenerator.EquipSection | src/utils/generateProposalWord.js:475-485 | `createEquipSection` appends exactly the equipment blocks to the sections |
| ProposalGenerator.DosingDetailed | src/utils/generateProposalWord.js:501-555 | `renderDosingDetailed` appends exactly the dosing-system blocks |
| ProposalGenerator.Instrumentation | src/utils/generateProposalWord.js:824-834 | the 4.20 heading is appended with a table of one split row per instrument, in order |
| ProposalGenerator.WritePartsToOtherEquipment | src/utils/generateProposalWord.js:783-820 | subsections 4.17 Sludge Management, 4.18 Treated Water Handling and 4.19 Other Major Equipment are appended in that order |
| ProposalGenerator.WriteInstrumentation | src/utils/generateProposalWord.js:822-835 | subsection 4.20 is appended only when instruments are listed |
| ProposalGenerator.WritePartsToExclusions | src/utils/generateProposalWord.js:837-879 | subsections 4.21 Pipings and 4.22 Valves, then section 5, are appended in that order |
| ProposalGenerator.ExclusionList | src/utils/generateProposalWord.js:872-874 | the loop over exclusions appends one numbered paragraph per entry, in order |
| ProposalGenerator.Exclusions | src/utils/generateProposalWord.js:869-879 | section 5 is appended: heading, introduction, the exclusions and the conclusion when there is one |
| ProposalGenerator.WriteOpening | src/utils/generateProposalWord.js:265-400 | the cover, the table of contents, sections 1 and 2, the technology overview, the process description and the performance-guarantee heading are appended in that order; they are the outline's parts up to the guarantees |
| ProposalGenerator.WriteGuaranteeTables | src/utils/generateProposalWord.js:399-419 | the guarantee tables are appended, each only when its section is selected |
| ProposalGenerator.WritePartsToDaf | src/utils/generateProposalWord.js:421-497 | the important considerations, section 3, the section 4 heading and subsection 4.1 (DAF) are appended in that order |
| ProposalGenerator.WriteDosing | src/utils/generateProposalWord.js:499-595 | subsection 4.2 and its five dosing systems are appended |
| ProposalGenerator.WritePartsToCooling | src/utils/generateProposalWord.js:598-628 | subsections 4.3 Screening, 4.4 Primary Clarification and 4.5 Cooling are appended in that order |
| ProposalGenerator.WriteAnaerobicEquipment | src/utils/generateProposalWord.js:631-704 | subsections 4.6-4.12 are appended only when the anaerobic section is selected |
| ProposalGenerator.WriteAerobicEquipment | src/utils/generateProposalWord.js:706-781 | subsections 4.13-4.16 are appended only when the aerobic section is selected |
| ProposalGenerator.BodyIsChunks | src/utils/generateProposalWord.js:186-879 | the body is the blocks of each outline part, appended part after part |
| ProposalGenerator.BodyFollowsOutline | src/utils/generateProposalWord.js:186-879 | the parts the body is made of are exactly the outline of the selection, in its order |
| ProposalGenerator.HeadingsCarryTheirNumbers | src/utils/generateProposalWord.js:331-869 | every numbered part of the body opens with a heading whose text starts with its own number, "M. " for a section and "M.N " for a subsection |
| ProposalGenerator.BuildDocument | src/utils/generateProposalWord.js:883-893 | the document is the page header, the footer and the body that the appends build |
| ProposalGenerator.GenerateProposalWord | src/utils/generateProposalWord.js:144-902 | the generator returns that document and saves it under the proposal's file name |
| SubscriptionRequests.AuthSession.constructor | src/context/AuthContext.jsx:7-8 | before the stored session is read there is no user and loading is on |
| SubscriptionRequests.AuthSession.Restore | src/context/AuthContext.jsx:11-16 | the stored session's user, if any, is signed in and loading ends |
| SubscriptionRequests.AuthSession.OnAuthStateChange | src/context/AuthContext.jsx:18-20 | the user follows the service's report and loading is untouched |
| SubscriptionRequests.AuthSession.Logout | src/context/AuthContext.jsx:63-67 | the local user is cleared whatever the service answers |
| SubscriptionRequests.LoginSucceedsWithSignIn | src/context/AuthContext.jsx:27-61 | a successful sign-in is the login's outcome for any address |
| SubscriptionRequests.LoginFailureIsSignInError | src/context/AuthContext.jsx:36-59 | a failure is reported as the sign-in error unless an administrator address with wrong credentials gets registered |
| SubscriptionRequests.AdminRegistrationWithoutSession | src/context/AuthContext.jsx:45-55 | a registered administrator is signed in with a session and asked to confirm the address without one |
| SubscriptionRequests.MetadataRules | src/context/AuthContext.jsx:107-118 | status is always pending; role is admin exactly for the two administrator addresses; company name and GST are empty unless the account is a company's |
| SubscriptionRequests.MetadataFallbacks | src/context/AuthContext.jsx:121-131 | the company e-mail falls back to the signup e-mail; the composite address shows missing parts as empty |
| SubscriptionRequests.ProofNameEmailPart | src/context/AuthContext.jsx:82 | the e-mail part of the proof's name has at most ten characters, all letters, digits or '_' |
| SubscriptionRequests.ProofFileNameKeepsExtension | src/context/AuthContext.jsx:81-82 | the stored proof keeps the uploaded file's extension |
| SubscriptionRequests.SubmitSignupRequestOrder | src/context/AuthContext.jsx:73-139 | a failed upload registers nobody; otherwise the registration carries the proof URL exactly when a proof was uploaded |
| SubscriptionRequests.RequestUpdateStatus | src/context/AuthContext.jsx:160-206 | every decision writes the status for its action, and a disable or rejection writes nothing else |
| SubscriptionRequests.ApprovalIssuesToken | src/context/AuthContext.jsx:163-192 | approve and enable both activate from now to the expiry; only approve issues an "EDI-" token, and the verification e-mail carries that token and expiry |
| SubscriptionRequests.SilentAndRejectingActions | src/context/AuthContext.jsx:193-206 | disable and enable send no e-mail; every other action rejects and sends the rejection e-mail |
| SubscriptionRequests.HandleRequest | src/context/AuthContext.jsx:158-235 | the update is written first; a failed write reports its error and sends nothing; a failed e-mail does not undo success |
| AdminDashboard.SortIsNewestFirst | src/pages/AdminDashboard.jsx:47 | the sorted list is newest first |
| AdminDashboard.SortIsPermutation | src/pages/AdminDashboard.jsx:47 | the sorted list holds exactly the fetched profiles, each as often as fetched |
| AdminDashboard.SortIsStable | src/pages/AdminDashboard.jsx:47 | profiles created at the same instant keep their fetched order |
| AdminDashboard.GuardAdmits | src/pages/AdminDashboard.jsx:53-67 | the page stays open exactly for a user with the admin role or the master address; no user goes to sign up |
| AdminDashboard.DurationChoicesWellFormed | src/pages/AdminDashboard.jsx:21 | the default of 12 months is one of the choices, listed shortest first without repeats |
| AdminDashboard.OfferedActionsChangeStatus | src/pages/AdminDashboard.jsx:307-331 | every offered action moves the status: pending to active or rejected, active to disabled, any other to active; the duration goes with the activating actions |
| AdminDashboard.OfferedActionsByStatus | src/pages/AdminDashboard.jsx:307-331 | approve is offered exactly for pending, disable exactly for active, enable exactly for the other statuses |
| AdminDashboard.RejectNoticeMisspelt | src/pages/AdminDashboard.jsx:74 | the notice as written reads "rejectd" for a dismissal |
| AdminDashboard.NoticeAsWrittenAgrees | src/pages/AdminDashboard.jsx:74 | the notice as written is right exactly for verbs ending in 'e' |
| AdminDashboard.CorrectionOnlyChangesReject | src/pages/AdminDashboard.jsx:74 | among the offered actions, the corrected notice differs only for the dismissal |
| AdminDashboard.Dashboard.constructor | src/pages/AdminDashboard.jsx:18-21 | an empty list, loading, and a 12-month duration |
| AdminDashboard.Dashboard.BeginFetch | src/pages/AdminDashboard.jsx:39-40 | loading is on while the query runs; the list and the duration stay |
| AdminDashboard.Dashboard.CompleteFetch | src/pages/AdminDashboard.jsx:41-50 | when the query answers, the list is empty on an error and the rows newest first otherwise; loading ends either way |
| AdminDashboard.Dashboard.FetchData | src/pages/AdminDashboard.jsx:39-51 | after a fetch the list is empty on an error and the rows newest first otherwise; loading ends either way |
| AdminDashboard.Dashboard.SelectDuration | src/pages/AdminDashboard.jsx:241-249 | choosing an offered duration sets it and changes nothing else |
| AdminDashboard.Dashboard.OnUserChange | src/pages/AdminDashboard.jsx:53-67 | a visitor the guard turns away changes nothing; otherwise both fetches start and the answer that arrives last stays shown, the arrival order being a parameter |
| AdminDashboard.Dashboard.OnHandleRequest | src/pages/AdminDashboard.jsx:69-85 | a successful decision is announced with the notice as the dashboard writes it ("rejectd" for a rejection) and the list fetched again; a failure shows its error and changes nothing |
| ProposalAccess.DecideGrantsExactly | src/context/ProposalGeneratorPasswordContext.jsx:30-93 | access is granted exactly to a signed-in, approved user who gives a stored credential or passes the password check |
| ProposalAccess.DenialReasons | src/context/ProposalGeneratorPasswordContext.jsx:34-92 | the earliest failing check decides the message: log in first, contact support, not approved, or the password hint or raw error |
| ProposalAccess.AdminIgnoresStatus | src/context/ProposalGeneratorPasswordContext.jsx:57-60 | an administrator's subscription status plays no part |
| ProposalAccess.CredentialNeedsNoPasswordCheck | src/context/ProposalGeneratorPasswordContext.jsx:64-72 | a stored transaction ID or token unlocks whatever the remote check would say |
| ProposalAccess.EmptyPasswordIsNoCredential | src/context/ProposalGeneratorPasswordContext.jsx:64-72 | an empty password never matches a stored credential |
| ProposalAccess.ProposalAccessGate.constructor | src/context/ProposalGeneratorPasswordContext.jsx:17-18 | locked and loading at first render |
| ProposalAccess.ProposalAccessGate.Mount | src/context/ProposalGeneratorPasswordContext.jsx:20-28 | unlocked exactly when the stored flag is "true"; loading ends either way |
| ProposalAccess.ProposalAccessGate.Authenticate | src/context/ProposalGeneratorPasswordContext.jsx:30-93 | the decision of the check chain; the profile is looked up only for a signed-in user, and the password is checked remotely only when no credential matched; a grant unlocks and stores the flag, a denial changes nothing |
| ProposalAccess.ProposalAccessGate.Logout | src/context/ProposalGeneratorPasswordContext.jsx:94-97 | locked, and the stored flag removed |
| SignupWizard.InitialModeCases | src/pages/Auth.jsx:19-24 | "login" opens the client login, "admin" the administrator login, anything else the welcome screen |
| SignupWizard.ButtonsGuardTheSteps | src/pages/Auth.jsx:226-580 | only the last step's back button leads to the billing summary; no button leads to success or to the client login |
| SignupWizard.PasswordCheckOrder | src/pages/Auth.jsx:113-121 | a mismatch is reported before the length; the step passes exactly for equal entries of at least six characters |
| SignupWizard.PayloadMetadata | src/pages/Auth.jsx:136-154 | the request uses the trimmed e-mail, is pending, and has no company details unless the account is a company's |
| SignupWizard.PayloadEmailHasNoOuterSpace | src/pages/Auth.jsx:136 | the submitted e-mail has no white space at either end |
| SignupWizard.DashboardUsersRoutedToIt | src/pages/Auth.jsx:68-75 | everyone the dashboard admits is sent to it after logging in |
| SignupWizard.RoutedButTurnedAway | src/pages/Auth.jsx:68-75 | an e-mail that merely contains "admin" is sent to the dashboard, whose guard sends a client home |
| SignupWizard.PageThrowsOnMount | src/pages/Auth.jsx:13 | the page takes `getQRCode` from the provider, which does not supply it, so the mount effect calls a missing member |
| SignupWizard.SuppliedProviderMounts | src/pages/Auth.jsx:49-51 | with `getQRCode` supplied, every member the page takes exists and the effect stores the QR code |
| SignupWizard.Wizard.constructor | src/pages/Auth.jsx:26-51 | for a provider that supplies `getQRCode`: the opening screen of the query parameter, an empty form, not loading, and the QR code stored |
| SignupWizard.WithInput | src/pages/Auth.jsx:53 | the input typed into shows the new value, every other input keeps its own, and the proof and account type are untouched |
| SignupWizard.Wizard.Change | src/pages/Auth.jsx:53 | typing into an input replaces the form by `WithInput` of it; the screen, loading flag and QR code stay |
| SignupWizard.Wizard.ChooseFile | src/pages/Auth.jsx:55-59 | the first chosen file becomes the payment proof; an empty choice changes nothing |
| SignupWizard.Wizard.ChooseAccountType | src/pages/Auth.jsx:409-416 | the account type becomes "company" or "individual" and nothing else changes |
| SignupWizard.Wizard.Press | src/pages/Auth.jsx:226-580 | a button moves to its screen and changes nothing else |
| SignupWizard.Wizard.InitialSignup | src/pages/Auth.jsx:111-122 | on to the billing summary exactly when the password check passes; otherwise its notice and no move |
| SignupWizard.Wizard.FinalSignup | src/pages/Auth.jsx:124-162 | nothing is submitted without a transaction ID; otherwise the payload is submitted and the page moves to success exactly when it succeeded |
| SignupWizard.Wizard.LoginSubmit | src/pages/Auth.jsx:61-109 | a successful login is routed by role or e-mail; a failed one gets the verification reminder or the error; the screen stays |

## Left out

- The logo fetch, `Packer.toBlob` and `saveAs` are I/O. Whether the logo loaded is a boolean parameter, and the model returns the document and its file name.
- The `docx` objects are replaced by an abstract block datatype. Properties that never vary, such as table borders and page margins, are implied by the kind of block and not stored.
- The date on the header, `Date.now()` in the proof name, the subscription start and expiry, and the random token part are parameters.
- The start-up biomass quantity (`vssCapacity`, computed in floating point) is given already rendered.
- The equal column widths `100 / tableHeaders.length` are kept as "an equal share of n columns", not as a number.
- The profile query, the sign-in and sign-up service, storage uploads, the e-mail service and the session storage are represented by their answers or by a field.
- Toasts, navigation, animations and JSX are represented by the notice or route a handler returns.
- The fixed one-second delay before a final signup is not modelled.
- The static content (technology overview, guarantees, theory, exclusions, table of contents) is an opaque parameter.
- `getRequests`, `resendVerification`, `resetPassword` and `updatePassword` are not part of this model. They are thin calls into the authentication service with nothing to decide.
- The payment and registration components under `src/components/` are not part of this model. They call provider functions that do not exist.
- The client dashboard page and the application's routes are not part of this model.
- No claim is made that the static table of contents matches the headings. It lists 4.20 as Pipings, but the body numbers pipings 4.21 after an optional 4.20 Instrumentation.
- ProposalGenerator.GenerateProposalWord: the input record is assumed well-typed. Its nested records and lists are never null, and every instrument is a string. The destructuring defaults apply only to `undefined`, so the source throws a TypeError on a null `clientInfo`, `params` or `selectedSections`, or on a non-string instrument, then logs and rethrows it. That error path is not modelled: the model always returns a document.
- ProposalGenerator.GenerateProposalWord: the `sections` array is threaded through the generator's methods as a sequence value rather than shared mutable storage. The source's closures append to one array in the same order, so no aliasing is modelled.
- ProposalSections.PageHeaderOf: only the header's brand run and client lines are stated. Its table layout of 60 and 40 percent is not.
- AdminDashboard.Dashboard.FetchData: creation times are given as the instant `new Date(created_at)` denotes. An unparsable date, which compares as NaN, is not modelled.
- AdminDashboard.Dashboard.SelectDuration: the select stores the chosen value as a string (`e.target.value`). The model keeps the number it names.
- SubscriptionRequests.SubmitSignupRequestOrder: the upload error is reported as the fixed message thrown inside the `try`, so the `err.message || "Upload failed."` fallback is never reached. Any other exception in the upload is not modelled.
- SignupWizard.Wizard.constructor: models the page mounting under a provider that supplies `getQRCode`. The provider as written does not supply it, so the mount effect throws; `SignupWizard.PageThrowsOnMount` states that case.
- AdminDashboard.Dashboard.OnUserChange: the effect starts `fetchData` twice without waiting, so which answer arrives last is not fixed by the code. The model takes the two answers in arrival order as parameters and does not model the two loading flags interleaving.
- ProposalBlocks.SafeString: `JsValue` numbers are integers only. Non-integer numbers, and their JavaScript decimal rendering, are not represented.
- JsValues: characters are Unicode scalar values, while JavaScript strings count UTF-16 code units. Lengths, indices and `substring(0, 10)` agree only for text in the Basic Multilingual Plane, which the model assumes.
- SignupWizard.Wizard.FinalSignup: the payment proof is represented by the attached file's name; the file contents are not modelled.

## Findings

| source | as written | input that shows it | evidently intended | confidence | as-written member | corrected member |
|---|---|---|---|---|---|---|
| src/pages/AdminDashboard.jsx:74 | the success toast appends "d" to the action: `Request ${action}d successfully.` | action "reject" gives "Request rejectd successfully." | the past tense, "Request rejected successfully." | not executed | AdminDashboard.RejectNoticeMisspelt | AdminDashboard.CorrectionOnlyChangesReject |
| src/pages/Auth.jsx:49-51 | the page destructures `getQRCode` from `useAuth()` and calls it in its mount effect, but the provider value (src/context/AuthContext.jsx:275-286) has no `getQRCode` | any mount of the page: `getQRCode` is undefined and calling it throws a TypeError | the provider supplies `getQRCode`, and the effect stores the QR code URL it returns | not executed | SignupWizard.PageThrowsOnMount | SignupWizard.SuppliedProviderMounts |
