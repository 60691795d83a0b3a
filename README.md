# Verified model of the portfolio site's forms and tool pages

This project models, in Dafny, the interactive core of a personal portfolio
site made of a static contact page and two React tool pages:

- **The contact form** (`ContactForm`, over `Text` and `EmailPattern`). Five
  validators check the trimmed name (at least 3 characters), e-mail (the pattern
  `^[^\s@]+@[^\s@]+\.[^\s@]+$`), subject (at least 5), message (10 to 500) and
  the terms checkbox. Each validator shows or clears its own field's error. A
  character counter caps the message at 500 characters. The submit handler runs
  all five validators and, only if all accept, disables the button and starts a
  simulated send. When that send completes, the form is reset, the errors are
  hidden, the success notice shows, and a second timer later hides it. The page
  is the class `ContactFormPage`. Its two timers are counts of callbacks still
  to fire, and `CompleteSend` and `HideSuccess` are the callbacks.
- **The SQL-schema generator chat** (`SqlGenerator`). Each non-blank idea is
  appended as a user turn, exactly as typed, and sent to the backend. The reply
  adds one assistant turn: either the schema inside a fixed Spanish sentence and
  an `sql` code fence, or a fixed apology. A success replaces the schema panel,
  and also the diagram panel when the answer carries a diagram. The page is the
  class `SchemaChat`. Its invariant says the turns alternate and a request is
  pending exactly when the last turn is the user's.
- **The product finder** (`ProductSearch`). A non-blank query is sent. The list
  becomes the returned products, or empty when the call fails. Which of the
  three panels shows (result grid, "no results", initial notice) is a pure
  function of the state.

The two React handlers `await` a backend call. Each is modelled as the part
before the `await` (`BeginSend`, `BeginSearch`, which return the request sent
or `None`), the continuation given the call's outcome (`Deliver`), and the two
run back to back (`SendMessage`, `Search`). The backend's answer is a parameter.

JavaScript's `trim` and `\s` are modelled on the ECMAScript white-space and
line-terminator characters (`Text.Spaces`).

The "no results" panel depends only on the query text and not on whether a
search ran. Typing a query before searching therefore shows it, and so does a
query of spaces. `ProductSearch.ActivePanel` states this condition as written.

## Model

| member | source | states |
|---|---|---|
| Text.Trim | frontend/logic/javascript/contact-form.js:39 | `value.trim()`: its contract bounds the result by the input's length; removing the leading and then the trailing white space is described in full by the lemmas below |
| Text.TrimStartRemovesSpaces | frontend/logic/javascript/contact-form.js:39 | trimming the front keeps a suffix, everything cut off is white space, and what is left does not start with white space |
| Text.TrimEndRemovesSpaces | frontend/logic/javascript/contact-form.js:39 | trimming the back keeps a prefix, everything cut off is white space, and what is left does not end with white space |
| Text.TrimEmptyIffBlank | frontend/logic/javascript/contact-form.js:42 | `trim()` gives the empty string exactly when the value is all white space; otherwise neither end of the result is white space |
| Text.TrimSplit | frontend/logic/javascript/contact-form.js:39 | every value is its trimmed text with a blank run on each side |
| Text.TrimIdempotent | frontend/logic/javascript/contact-form.js:39 | trimming a trimmed value changes nothing |
| EmailPattern.MatchesEmailRegex | frontend/logic/javascript/contact-form.js:57 | the literal reading of `^[^\s@]+@[^\s@]+\.[^\s@]+$`: one `@` and a later `.` split the string into three non-empty runs of characters that are neither white space nor `@`; any match has at least five characters, contains `@` and does not start with it |
| EmailPattern.IsEmailShape | frontend/logic/javascript/contact-form.js:62 | the executable form of `emailRegex.test`: no white space, a first `@` with something before it and no other `@`, and a `.` inside the domain; any accepted string has at least five characters, contains `@` and does not start with it |
| EmailPattern.ShapeMatchesRegex | frontend/logic/javascript/contact-form.js:57 | every string the executable shape check accepts matches the anchored pattern |
| EmailPattern.RegexMatchesShape | frontend/logic/javascript/contact-form.js:57 | every string the pattern matches passes the shape check |
| EmailPattern.ShapeIffRegex | frontend/logic/javascript/contact-form.js:57-62 | the shape check and the pattern accept exactly the same strings |
| EmailPattern.AcceptsExample | frontend/logic/javascript/contact-form.js:57 | `a@b.com` matches the pattern |
| EmailPattern.RejectsExample | frontend/logic/javascript/contact-form.js:57 | `bad` (no `@`) does not match the pattern |
| ContactForm.CheckName | frontend/logic/javascript/contact-form.js:38-52 | the name is accepted iff its trimmed length is at least 3; when rejected, the message is "required" for a blank value and "too short" otherwise |
| ContactForm.CheckEmail | frontend/logic/javascript/contact-form.js:54-69 | the e-mail is accepted iff its trimmed text has the e-mail shape; when rejected, the message is "required" for a blank value and "invalid" otherwise |
| ContactForm.CheckSubject | frontend/logic/javascript/contact-form.js:71-85 | the subject is accepted iff its trimmed length is at least 5; when rejected, the message is "required" or "too short" |
| ContactForm.CheckMessage | frontend/logic/javascript/contact-form.js:87-104 | the message is accepted iff its trimmed length is between 10 and 500; when rejected, the message is "required", "too short" or "too long", tried in that order |
| ContactForm.CheckTerms | frontend/logic/javascript/contact-form.js:106-116 | the terms are accepted iff the box is checked; when rejected, the message is the terms message |
| ContactForm.CheckEmailIsRegex | frontend/logic/javascript/contact-form.js:55-62 | the e-mail validator accepts exactly the values whose trimmed text matches the regular expression |
| ContactForm.SubmitGate | frontend/logic/javascript/contact-form.js:157-165 | the five rules all hold exactly when every one of the five validators accepts |
| ContactForm.ErrorsShowRejections | frontend/logic/javascript/contact-form.js:122-132 | after validation a field is marked and shows its error exactly when it was rejected, a shown error has a message, and an accepted field is fully cleared |
| ContactForm.AcceptedValuesShowNoErrors | frontend/logic/javascript/contact-form.js:157-164 | when every rule holds, running all validators leaves no field marked and no error shown |
| ContactForm.OnlyTermsMissing | frontend/logic/javascript/contact-form.js:106-116 | with valid text fields and the box unchecked, the submit is refused and only the terms error shows, with its message |
| ContactForm.Capped | frontend/logic/javascript/contact-form.js:143-146 | the capped message is a prefix of the original, at most 500 characters long, and either the whole original or exactly 500 characters |
| ContactForm.CappedFacts | frontend/logic/javascript/contact-form.js:143-146 | a message of at most 500 characters is left alone, and capping twice is capping once |
| ContactForm.CappedNeverTooLong | frontend/logic/javascript/contact-form.js:97-99 | a message cut by the counter can never get the "too long" error |
| ContactForm.ContactFormPage.constructor | frontend/logic/javascript/contact-form.js:6-19 | the page starts with empty values, no errors, a zero counter, an enabled button and no pending timer |
| ContactForm.ContactFormPage.ShowError | frontend/logic/javascript/contact-form.js:122-126 | the field is marked and its error element shows the message; no other field changes |
| ContactForm.ContactFormPage.ClearError | frontend/logic/javascript/contact-form.js:128-132 | the field is unmarked and its error element is emptied and hidden; no other field changes |
| ContactForm.ContactFormPage.ValidateName | frontend/logic/javascript/contact-form.js:38-52 | returns whether the name rule holds and sets only the name field's display to the verdict's |
| ContactForm.ContactFormPage.ValidateEmail | frontend/logic/javascript/contact-form.js:54-69 | returns whether the trimmed e-mail matches the regular expression and sets only the e-mail field's display |
| ContactForm.ContactFormPage.ValidateSubject | frontend/logic/javascript/contact-form.js:71-85 | returns whether the subject rule holds and sets only the subject field's display |
| ContactForm.ContactFormPage.ValidateMessage | frontend/logic/javascript/contact-form.js:87-104 | returns whether the message rule holds and sets only the message field's display |
| ContactForm.ContactFormPage.ValidateTerms | frontend/logic/javascript/contact-form.js:106-116 | returns whether the box is checked and sets only the terms field's display |
| ContactForm.ContactFormPage.ValidateAll | frontend/logic/javascript/contact-form.js:157-161 | all five validators run, none skipped after an earlier failure; the result is whether all five rules hold, and every field's display becomes its verdict's |
| ContactForm.ContactFormPage.UpdateCharCount | frontend/logic/javascript/contact-form.js:138-147 | the counter shows the message length capped at 500, the message is cut to its first 500 characters, and nothing else changes |
| ContactForm.ContactFormPage.HandleSubmit | frontend/logic/javascript/contact-form.js:153-166 | with the button enabled (a disabled submit button lets no submit through), every validator runs, every field's display becomes its verdict's, and the send starts (button disabled, label "Enviando...", the send pending) exactly when all five rules hold; the page invariant keeps the button disabled exactly while one send is pending |
| ContactForm.ContactFormPage.SubmitForm | frontend/logic/javascript/contact-form.js:168-174 | the button is disabled with the sending label and one more send is pending |
| ContactForm.ContactFormPage.CompleteSend | frontend/logic/javascript/contact-form.js:174-209 | returns the values collected before the reset; the form is blank, the counter 0, the success notice shown with its hide pending, the text controls unmarked, every error element hidden, and the button enabled with its label |
| ContactForm.ContactFormPage.UnmarkTextControls | frontend/logic/javascript/contact-form.js:194-196 | exactly the four text controls lose their error mark; nothing else changes |
| ContactForm.ContactFormPage.HideErrorElements | frontend/logic/javascript/contact-form.js:197-199 | every error element is hidden; marks and texts are unchanged |
| ContactForm.ContactFormPage.HideSuccess | frontend/logic/javascript/contact-form.js:206-208 | the success notice is hidden and one fewer hide is pending |
| ContactForm.SubmitThenComplete | frontend/logic/javascript/contact-form.js:163-209 | from an enabled button, a submit that is accepted and then completed leaves a blank form, a zero counter, no error anywhere, an enabled button and the success notice shown |
| SqlGenerator.Reply | client/src/pages/Proyecto1.tsx:74-100 | the assistant turn for an outcome: it opens with the fixed schema sentence exactly when the generation succeeded, so the apology never does |
| SqlGenerator.ReplyRoundTrip | client/src/pages/Proyecto1.tsx:74-100 | the schema can be read back from a success reply exactly as generated, and the apology contains no schema |
| SqlGenerator.ApologyIsNoSchemaReply | client/src/pages/Proyecto1.tsx:93-100 | the apology differs from every success reply |
| SqlGenerator.AppendKeepsAlternating | client/src/pages/Proyecto1.tsx:59-63 | appending the turn whose role is due keeps the transcript alternating |
| SqlGenerator.EveryRequestAnswered | client/src/pages/Proyecto1.tsx:55-105 | when no request is pending, every user turn is followed by an assistant turn |
| SqlGenerator.SchemaChat.constructor | client/src/pages/Proyecto1.tsx:36-42 | the chat starts empty, idle, with empty input and empty panels |
| SqlGenerator.SchemaChat.SetInput | client/src/pages/Proyecto1.tsx:206-208 | typing is possible only while idle and sets the input |
| SqlGenerator.SchemaChat.CanSend | client/src/pages/Proyecto1.tsx:213 | the send button is enabled exactly when nothing is loading and the input is not all white space |
| SqlGenerator.SchemaChat.BeginSend | client/src/pages/Proyecto1.tsx:55-71 | blank input or a pending request changes nothing and sends nothing. Otherwise the untrimmed input is sent and appended as a user turn, the input is cleared and loading starts. A request is sent exactly when the send button is enabled |
| SqlGenerator.SchemaChat.Deliver | client/src/pages/Proyecto1.tsx:73-104 | exactly one assistant turn is appended and loading stops. A success replaces the schema, and the diagram only when it is non-empty; a failure keeps both. The new turn quotes the displayed schema after a success and no schema after a failure |
| SqlGenerator.SchemaChat.SendMessage | client/src/pages/Proyecto1.tsx:55-105 | a whole send grows the transcript by the user turn followed by the assistant turn and ends idle; a blank input changes nothing |
| SqlGenerator.SchemaChat.KeyPress | client/src/pages/Proyecto1.tsx:110-115 | a request starts exactly on Enter without Shift while the send button is enabled; otherwise nothing changes |
| ProductSearch.ActivePanel | client/src/Proyecto2.tsx:161-243 | the grid shows iff there are results; "no results" shows iff idle, no results and a non-empty query; the initial notice iff idle, no results and an empty query; no panel shows only while a search with no results is pending |
| ProductSearch.SearchPage.constructor | client/src/Proyecto2.tsx:26-38 | the page starts with an empty query, no results and no pending search |
| ProductSearch.SearchPage.SetQuery | client/src/Proyecto2.tsx:115-117 | typing is possible only while no search is pending and sets the query |
| ProductSearch.SearchPage.CanSearch | client/src/Proyecto2.tsx:122 | the search buttons are enabled exactly when no search is pending and the query is not all white space |
| ProductSearch.SearchPage.BeginSearch | client/src/Proyecto2.tsx:50-60 | a blank query changes nothing and sends nothing; otherwise the query as typed is sent and the search becomes pending, with the old results still shown |
| ProductSearch.SearchPage.Deliver | client/src/Proyecto2.tsx:62-68 | the results become the returned list in its order, or empty on failure (so a failure looks like a search that found nothing), and the search is no longer pending |
| ProductSearch.SearchPage.Search | client/src/Proyecto2.tsx:50-69 | a whole non-blank search ends idle with the outcome's list and shows the grid when products were found and "no results" otherwise; a blank query changes nothing |
| ProductSearch.SearchPage.KeyPress | client/src/Proyecto2.tsx:74-78 | a search starts exactly on Enter while the search button is enabled; otherwise nothing changes |

## Left out

- The backend (`server/routers.ts`), its language-model calls and JSON parsing, and its test: the outcome of each call is a parameter of `Deliver`.
- `frontend/logic/javascript/script.js` and `client/src/pages/Home.tsx`: animation, navigation and menu toggles with no rule to state.
- Rendering: JSX layout, styling, Markdown rendering of the chat, image fallbacks, the info dialog and navigation buttons.
- `scrollIntoView`, `console.log` and `console.error`: they have no effect on the modelled state.
- Timer durations (1500 ms and 5000 ms): each timer is a count of pending callbacks, fired by `CompleteSend` and `HideSuccess`.
- Interleaving of asynchronous handlers: each backend call is one `Deliver`. `SchemaChat.Deliver` requires a pending request, and the page's disabled controls prevent a second one. `SearchPage` does not track how many searches are in flight.
- String lengths are counted in Dafny characters, not in UTF-16 code units as JavaScript counts them; they differ only for characters outside the Basic Multilingual Plane.
- ContactForm.ContactFormPage.constructor: the initial state and the values after `form.reset()` come from the page's HTML, which is not part of this model. They are assumed: empty text fields, an unchecked terms box, a counter at 0, the button label "Enviar Mensaje→" and a hidden success notice.
- ContactForm.Values: the phone field is carried and reset but never validated, as in the source.
- ContactForm.ContactFormPage.UnmarkTextControls: the page's HTML is not part of this model, so the controls selected by `.form-input, .form-textarea` are taken to be the four validated text controls. The terms checkbox keeps its mark, and the phone control has no error state here.
- ContactForm.ContactFormPage.CompleteSend: the button's restored inner HTML (two spans) is reduced to its text, "Enviar Mensaje→".
- SqlGenerator.SchemaChat.Deliver: the source's `typeof ... === 'string'` fallbacks are not modelled, because the outcome's schema and diagram are typed as strings.
