# Smart hostel management: gate terminal, student requests, sign-in

This is a Dafny model of the parts of the hostel front end that hold real logic:

- **The security officer's gate terminal** (`SecurityView`). A six-character
  code is typed either into six one-character slots or into one digit-only
  field. Verification strips all whitespace and compares the result with the
  two accepted codes, `742910` and `123456`. A free pass needs a non-blank
  justification and always grants exit. The terminal is a class whose fields
  are the component's state: `otp`, `status`, `entryMode`, `showFreePassModal`
  and `freePassReason`. Each handler is a method. The slot updater is a method
  with a padding loop.
- **The student's requests** (`StudentView`). Filing a complaint or applying
  for leave puts one new `PENDING` record in front of the list. Three of the
  dashboard's figures come from the two lists: the number of approved passes,
  the number of unresolved complaints, and the code of the first approved
  leave. A fourth, the meal rating card, shows the rating last given with the
  star buttons.
- **The sign-in form** (`AuthView`). It builds the mock user (default name,
  room, `HX` id number) and picks a colour badge for each role.
- `HostelTypes` holds the records, and `JsRuntime` holds the JavaScript
  built-ins those handlers call. The built-ins are `filter`, the `\s` class,
  `trim`, ASCII `toLowerCase`, the decimal `toString`, and `||` on optional
  strings.

Each `setTimeout` in the terminal is split into two steps. A `Begin…` method
does what the click does at once. A `Complete…` method does what the timer
callback does later. `BeginVerify` returns the code that the callback's
closure captured, and `CompleteVerify` takes that code. The same split is made
at the `await` in the complaint handler. `BeginFileComplaint` raises the
submitting flag and reads the form. `CompleteFileComplaint` receives the
analysis service's answer as a parameter. Random ids, `Date.now()` and the
random number behind the id number are parameters too.

The code has none of the following, so neither does the model:

- no OTP issuance, consumption or expiry;
- no approve or reject transition (the buttons have no handlers);
- no audit entries;
- no date check on leave;
- no `CONSUMED` or `EXPIRED` leave status.

Verification accepts two fixed codes and changes no record. The free pass is
not linked to any leave.

## Model

| member | source | states |
|---|---|---|
| `HostelTypes.RoleName` | types.ts:2-7 | each role's run-time string is a non-empty word of upper-case ASCII letters |
| `JsRuntime.Filter` | views/StudentView.tsx:164 | `filter` yields no more elements than it was given, and each one satisfies the predicate |
| `JsRuntime.FilterConcat` | views/StudentView.tsx:194 | filtering distributes over concatenation, so the kept elements stay in their order |
| `JsRuntime.FilterMultiset` | views/StudentView.tsx:164 | every kept occurrence survives filtering and every other occurrence is dropped |
| `JsRuntime.FilterIdentity` | views/SecurityView.tsx:176 | filtering leaves a sequence unchanged exactly when every element satisfies the predicate |
| `JsRuntime.FilterIdempotent` | views/SecurityView.tsx:41 | filtering twice is the same as filtering once |
| `JsRuntime.FilterHead` | views/StudentView.tsx:194 | the first element of a filtered sequence is the element at the first index that satisfies the predicate |
| `JsRuntime.FilterEmpty` | views/StudentView.tsx:200 | the filtered sequence is empty exactly when no element satisfies the predicate |
| `JsRuntime.LowerChar` | views/AuthView.tsx:30 | an upper-case ASCII letter becomes lower-case; every other character is unchanged |
| `JsRuntime.UpperUndoesLower` | views/AuthView.tsx:30 | lower-casing a word of upper-case letters gives lower-case letters, and upper-casing gives the word back |
| `JsRuntime.TrimStart` | views/SecurityView.tsx:50 | the result is a suffix; everything dropped is whitespace; the result does not begin with whitespace |
| `JsRuntime.TrimEnd` | views/SecurityView.tsx:50 | the result is a prefix; everything dropped is whitespace; the result does not end with whitespace |
| `JsRuntime.Trim` | views/SecurityView.tsx:50 | `trim()` leaves a contiguous piece of the string with only whitespace dropped before and after it, and a non-empty result neither begins nor ends with whitespace |
| `JsRuntime.TrimEmptyIffBlank` | views/SecurityView.tsx:50 | `trim()` gives the empty string exactly for strings made only of whitespace |
| `JsRuntime.NatToString` | views/AuthView.tsx:33 | `toString` of a non-negative integer is one or more decimal digits, with no leading zero except for 0 itself |
| `JsRuntime.DecimalRoundTrip` | views/AuthView.tsx:33 | reading back the decimal form of n gives n |
| `JsRuntime.NatToStringLength` | views/AuthView.tsx:33 | a number below 10^w has at most w digits |
| `AuthView.RoleColor` | views/AuthView.tsx:16-24 | each role's colour is a seven-character `#RRGGBB` colour: `#` followed by six hex digits |
| `AuthView.RoleColorInjective` | views/AuthView.tsx:16-24 | two roles share a colour only if they are the same role |
| `AuthView.DefaultName` | views/AuthView.tsx:30 | the default name is never empty; it is `Vissampalli Karthik` exactly for a student; for another role it is as long as the role's name and begins with the same capital letter |
| `AuthView.DefaultNameCapitalised` | views/AuthView.tsx:30 | for a role other than student, the default name is the role's name capitalised: the same first letter, then lower-case letters that upper-case back to the rest of the name |
| `AuthView.MockUser` | views/AuthView.tsx:28-35 | the user's id is the random id; email and role are copied from the form; a non-empty entered name is kept, otherwise the role's default name is used (`Vissampalli Karthik` for a student); the room is `402-B` exactly for a student and absent otherwise; the id number starts with `HX` |
| `AuthView.IdNumberEncodesRoll` | views/AuthView.tsx:33 | the id number is `HX` followed by 1 to 5 digits with no leading zero, and their value is the random draw |
| `AuthView.MockUserNamed` | views/AuthView.tsx:30 | the built user always has a non-empty name, and it is the entered name whenever one was entered |
| `SecurityView.Normalize` | views/SecurityView.tsx:41 | the normalised code contains no whitespace |
| `SecurityView.IsAcceptedCode` | views/SecurityView.tsx:41 | only a six-digit code can be accepted |
| `SecurityView.VerifyOutcome` | views/SecurityView.tsx:41-45 | a verdict is always success or error, never idle or verifying |
| `SecurityView.NormalizeIdempotent` | views/SecurityView.tsx:41 | stripping whitespace a second time removes nothing more |
| `SecurityView.NormalizeDropsInsertedWhitespace` | views/SecurityView.tsx:41 | inserting a whitespace character anywhere leaves the whitespace-stripped code unchanged |
| `SecurityView.VerifyIgnoresInsertedWhitespace` | views/SecurityView.tsx:41 | inserting a whitespace character anywhere in a code never changes the verdict |
| `SecurityView.DigitCodeVerdict` | views/SecurityView.tsx:41-45 | a digit-only code is accepted exactly when it is `742910` or `123456` as it stands |
| `SecurityView.BypassCodeNotAccepted` | views/SecurityView.tsx:56 | the `BYPASS` code that the free pass leaves behind is rejected if it is verified |
| `SecurityView.ManualCodeVerdict` | views/SecurityView.tsx:41-45 | a code of digits, or the `BYPASS` code, is accepted exactly when it is an accepted code as it stands |
| `SecurityView.FillSlot` | views/SecurityView.tsx:156-161 | the slot updater pads the code with spaces to at least 6 characters and puts the character at slot i; every other position keeps its old character, or a space where it was padded |
| `SecurityView.DigitsOf` | views/SecurityView.tsx:176 | the manual filter's result contains only digits and is no longer than the typed text |
| `SecurityView.DigitsOfKeepsOrder` | views/SecurityView.tsx:176 | the typed digits survive in order, and text made only of digits passes through unchanged |
| `SecurityView.ManualEntryVerdict` | views/SecurityView.tsx:174-176 | a manually entered code has at most six digits, and it is accepted exactly when those digits form an accepted code |
| `GateScenario.SeedPassOpensGate` | views/SecurityView.tsx:40 | the code on the student's seeded approved pass is shown on the gate panel, survives manual entry, and is accepted by the terminal |
| `SecurityView.GateTerminal.constructor` | views/SecurityView.tsx:11-15 | the terminal starts idle, in structured mode, with an empty code, no dialog and no reason |
| `SecurityView.GateTerminal.Valid` | views/SecurityView.tsx:151-176 | the terminal's invariant: the code is at most six characters (the inputs' `maxLength`) and in manual mode it is digits or `BYPASS`; under it a manual code's verdict is decided by the code exactly as shown |
| `SecurityView.GateTerminal.AuthorizeEnabled` | views/SecurityView.tsx:182 | when the button is enabled, nothing is verifying, the code is non-empty, and the handler's short-code guard cannot fire |
| `SecurityView.GateTerminal.BeginVerify` | views/SecurityView.tsx:36-39 | in manual mode a code shorter than 6 characters changes nothing; otherwise the status becomes verifying and the current code is captured; the state invariant is kept |
| `SecurityView.GateTerminal.CompleteVerify` | views/SecurityView.tsx:39-46 | the status becomes success exactly when the captured code, stripped of whitespace, is an accepted code, and error otherwise; nothing else changes; the state invariant is kept |
| `SecurityView.GateTerminal.TypeIntoSlot` | views/SecurityView.tsx:153-166 | an empty input leaves the code unchanged; a character makes the code 6 long with that character at the slot and every other position kept or space-padded; the state invariant is kept |
| `SecurityView.GateTerminal.TypeManually` | views/SecurityView.tsx:174-176 | the code becomes the digits of the typed text; the state invariant is kept |
| `SecurityView.GateTerminal.SetEntryMode` | views/SecurityView.tsx:130-141 | switching the entry mode empties the code |
| `SecurityView.GateTerminal.ClearTerminal` | views/SecurityView.tsx:114-115 | "Clear Terminal" sets the status to idle and empties the code |
| `SecurityView.GateTerminal.OpenFreePass` | views/SecurityView.tsx:190-191 | the override link opens the free-pass dialog; the state invariant is kept |
| `SecurityView.GateTerminal.CloseFreePass` | views/SecurityView.tsx:218 | the close button hides the dialog; the state invariant is kept |
| `SecurityView.GateTerminal.ChooseReason` | views/SecurityView.tsx:227-229 | the chosen justification becomes the reason; the state invariant is kept |
| `SecurityView.GateTerminal.BeginFreePass` | views/SecurityView.tsx:49-52 | a blank or whitespace-only reason changes nothing; otherwise the status becomes verifying; the state invariant is kept |
| `SecurityView.GateTerminal.CompleteFreePass` | views/SecurityView.tsx:52-57 | the free pass always ends in success, closes the dialog, clears the reason and shows `BYPASS` as the code |
| `StudentView.NewComplaint` | views/StudentView.tsx:123-135 | a new complaint is pending and carries the given id and time, the user's id and name, the draft's title and description, and the analysis note; its image is present exactly when a non-empty image was attached |
| `StudentView.NewComplaintDefaults` | views/StudentView.tsx:130-131 | a missing or empty priority becomes `MEDIUM` and a missing or empty category becomes `General`; present values are kept; neither field is ever blank |
| `StudentView.RoomOrDefault` | views/StudentView.tsx:149 | the user's room is used when present and non-empty, and `N/A` otherwise |
| `StudentView.NewLeave` | views/StudentView.tsx:145-155 | a new leave is pending with no code; it carries the user's id and name, the room or `N/A`, and the form's dates and reason in any order |
| `StudentView.ApprovedPassCount` | views/StudentView.tsx:164 | the approved-pass figure never exceeds the number of leaves |
| `StudentView.OpenIssueCount` | views/StudentView.tsx:166 | the open-issue figure never exceeds the number of complaints |
| `StudentView.ApprovedPassCountExact` | views/StudentView.tsx:164 | the approved-pass figure counts each approved leave as often as it occurs and nothing else, and is zero exactly when no leave is approved |
| `StudentView.OpenIssueCountExact` | views/StudentView.tsx:166 | the open-issue figure counts each complaint not resolved as often as it occurs and nothing else, and is zero exactly when every complaint is resolved |
| `StudentView.FirstApproved` | views/StudentView.tsx:194 | the panel's leave, when there is one, is an approved leave from the list |
| `StudentView.DisplayedOtp` | views/StudentView.tsx:197 | the shown code is the leave's code when present and non-empty, and `000000` otherwise |
| `StudentView.GatePanel` | views/StudentView.tsx:194-205 | the panel shows a code exactly when some leave is approved, and the code shown is never empty |
| `StudentView.FirstApprovedIsFirst` | views/StudentView.tsx:194-197 | the gate panel shows the approved leave at the first approved position, with its displayed code |
| `StudentView.GatePanelEmptyIffNoApproved` | views/StudentView.tsx:194-205 | the panel shows no code exactly when the approved-pass figure is zero |
| `StudentView.FilingOpensOneIssue` | views/StudentView.tsx:136 | putting a pending complaint in front raises the open-issue figure by one and keeps the earlier complaints behind it in order |
| `StudentView.ApplyingKeepsGate` | views/StudentView.tsx:156 | putting a pending leave in front changes neither the approved-pass figure nor the panel's leave or code |
| `StudentView.SeedFigures` | views/StudentView.tsx:12-63 | before anything is filed there is one approved pass, showing `742910`, and one open issue |
| `StudentView.SeedComplaints` | views/StudentView.tsx:12-38 | the view starts with two complaints, both filed earlier by the signed-in student |
| `StudentView.SeedLeaves` | views/StudentView.tsx:39-63 | the view starts with two leaves of the signed-in student, in the student's room or `N/A`, none dated after now, and a leave carries a code exactly when it is approved |
| `StudentView.RatingCard` | views/StudentView.tsx:165 | the rating card shows a whole number without a leading zero, a point and one decimal: the given rating and `.0`, or the placeholder `4.2` before any rating |
| `StudentView.StudentDesk.constructor` | views/StudentView.tsx:12-63 | the view starts with the seeded complaints and leaves, no dialogs open, an empty form and nothing submitting; no meal has been rated, so the rating card shows `4.2` |
| `StudentView.StudentDesk.OpenComplaintForm` | views/StudentView.tsx:173 | the report buttons open the complaint dialog |
| `StudentView.StudentDesk.OpenLeaveForm` | views/StudentView.tsx:174 | the gate-pass buttons open the leave dialog |
| `StudentView.StudentDesk.EditComplaint` | views/StudentView.tsx:410-414 | the title and description inputs set the form fields |
| `StudentView.StudentDesk.AttachImage` | views/StudentView.tsx:114 | the reader's data URL becomes the attached image |
| `StudentView.StudentDesk.BeginFileComplaint` | views/StudentView.tsx:119-122 | submitting (possible only while no submission is under way, the button being disabled) raises the submitting flag and captures the form and the complaint list as they stand |
| `StudentView.StudentDesk.CompleteFileComplaint` | views/StudentView.tsx:122-140 | exactly one new pending complaint goes in front of the captured list, in order; the open-issue figure rises by one over it; the flag is lowered, the dialog closed and the title, description and image cleared |
| `StudentView.StudentDesk.ApplyLeave` | views/StudentView.tsx:142-158 | exactly one new pending leave goes in front of the old list; the approved-pass figure and the gate panel are unchanged; the dialog is closed |
| `StudentView.StudentDesk.RateMeal` | views/StudentView.tsx:338-339 | a star button sets the rating to its number, one to five, and the rating card then shows that number with `.0` |

## Left out

- Rendering, styling, charts and the mock dashboards of the warden and admin
  views. Their Approve and Reject buttons have no handlers, so there is no
  status transition to model. `services/geminiService.ts` (a network call)
  and `components/Chatbot.tsx` are not part of this model either. The
  complaint handler's analysis result is an input.
- `App.tsx` (local-storage persistence and theme toggling) is not part of
  this model.
- Timers and `async`/`await` are explicit Begin/Complete steps, not
  concurrency. Interleavings are whatever sequence of method calls a caller
  makes. React's batching of state updates is not modelled.
- The random ids, `Date.now()` and `Math.random()` are parameters. `MockUser`
  takes the drawn integer directly and requires it to be below 100000. That is
  the range `Math.floor(Math.random() * 100000)` produces.
- The browser `FileReader` is reduced to the data URL it delivers
  (`AttachImage`).
- The dashboard's attendance card is the constant `84%` and is not modelled.
  Nor are the quick-access tiles, the announcements and the mess menu, which
  display fixed content.
- `StudentView.StudentDesk.RateMeal`: requires a star number from one to five,
  the only values the five buttons pass.
- `onLogin` (handing the user to the app) is not modelled.
- `e.preventDefault()` is not modelled.
- The auto-focus of the next slot is not modelled.
- JavaScript strings are UTF-16 code units, and Dafny characters are Unicode
  scalar values. The two agree on lengths except for characters outside the
  Basic Multilingual Plane, which the model does not distinguish.
- `ToLower` and `ToUpper` map only ASCII letters. The only strings the source
  lower-cases are the role names, which are ASCII.
- `SecurityView.GateTerminal.TypeManually`: requires the typed text to be at
  most six characters. This stands for the input's `maxLength`, which the
  browser enforces before the handler runs.
- `StudentView.StudentDesk.BeginFileComplaint`: requires that no submission
  is under way. The submit button is disabled while `isSubmitting` holds
  (`views/StudentView.tsx:420`), so overlapping filings cannot start.
  `CompleteFileComplaint` prepends onto the list the closure captured, as the
  source does; nothing else changes `complaints` in between.
- `SecurityView.GateTerminal.TypeIntoSlot`: requires a value of at most one
  character (the slots' `maxLength`). It also requires structured mode,
  because the slots are rendered only in that mode.
- Types: the complaint's `priority` is a string, not the three-value union in
  `types.ts`. The `as any` cast at `views/StudentView.tsx:130` stores whatever
  the analysis returned. `StudentView.NewComplaintDefaults` states when the
  stored value is within the union.
- Medical requests exist only as a record type. No handler creates or changes
  one.
