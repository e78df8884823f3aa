# AI Job Description — a Dafny model of the client core

This project models the client side of an HR web application built with
Next.js and React: users generate job descriptions from a short form,
regenerate them, keep a generation history, analyse an existing description,
parse a sample document, chat with an assistant and sign in through a mock
authentication provider. The hosted language model answers every request.
The model covers the logic inside the components:

- the two markdown dialects that turn a description into headings, bullets,
  numbered items and paragraphs:
  - the exact-prefix dialect of the display card and the view dialog;
  - the regex dialect of the analyzer, which first turns literal `\n` into
    line breaks;
- the zod form schemas: generation, analysis, sign-in, sign-up and OTP;
- the CAPTCHA code generator and its case-insensitive check;
- the state machines of the pages and panels: loading flags, results, the
  chat conversation, the history and its local-storage mirror, the signed-in
  user and its local-storage entry.

One Dafny module stands for each source file:

| module | source file |
|---|---|
| `JobDescriptionDisplay` | `src/components/job-description-display.tsx` |
| `JobDescriptionViewDialog` | `src/components/job-description-view-dialog.tsx` |
| `JobDescriptionAnalyzer` | `src/components/job-description-analyzer.tsx` |
| `Chatbot` | `src/components/chatbot.tsx` |
| `HomePage` | `src/app/page.tsx` |
| `AuthContext` | `src/context/auth-context.tsx` |
| `LoginForm` | `src/components/login-form.tsx` |
| `SignupForm` | `src/components/signup-form.tsx` |
| `JobDescriptionForm` | `src/components/job-description-form.tsx` |
| `OtpForm` | `src/components/otp-form.tsx` |
| `LoginPage` | `src/app/login/page.tsx` |
| `JobDescriptionParser` | `src/components/job-description-parser.tsx` |
| `JobDescriptionHistory` | `src/components/job-description-history.tsx` |

Two modules are shared by the others:

- `Common` holds:
  - an optional value for `null`;
  - the outcome of an awaited server call: it resolved with a value, or it threw;
  - a local-storage entry: a parsed record, or text `JSON.parse` rejects;
  - a form error;
  - the three-way result panel: spinner, placeholder or content.
- `JsText` gives the JavaScript string operations the components use:
  - `trim` and the regex class `\s`, both over the same ECMAScript whitespace set;
  - `split` on one character, `join`, `indexOf`, `substring` and `startsWith`;
  - ASCII case mapping.

How each kind of source construct is modelled:

- Components whose state changes become classes:
  - each `useState` variable becomes a field;
  - local storage becomes a `map` field;
  - each handler becomes a method.
- A handler with an `await` becomes three methods:
  - `Begin…` runs up to the call and returns the request sent;
  - `Complete…` takes the call's outcome as a parameter;
  - `Handle…` composes the two.
- Pure logic becomes functions and lemmas: render helpers, schemas and
  classifiers.

## Model

| member | source | states |
|---|---|---|
| `Common.ShownPanels` | src/components/job-description-display.tsx:89-125 | Exactly one panel shows: the spinner iff loading, the placeholder iff idle without content, the content iff idle with content. |
| `JsText.Trim` | src/components/job-description-display.tsx:48-51 | `trim()` is a contiguous slice. Only whitespace is cut on either side. The slice neither starts nor ends with whitespace. It is empty iff the string is all whitespace. |
| `JsText.BlankIsTrimEmpty` | src/components/job-description-display.tsx:48 | The filter `line.trim() !== ''` keeps exactly the lines that are not all whitespace. |
| `JsText.TrimIdempotent` | src/components/job-description-display.tsx:51 | Trimming an already trimmed line changes nothing. |
| `JsText.IndexOf` | src/components/job-description-analyzer.tsx:72 | `indexOf` gives the first occurrence, or -1 exactly when the character is absent. |
| `JsText.Split` | src/components/job-description-display.tsx:48 | `split('\n')` gives at least one piece. No piece holds the separator. Joining the pieces gives the text back. |
| `JsText.SplitJoin` | src/components/job-description-display.tsx:48 | Splitting inverts joining pieces that hold no separator. |
| `JsText.EqualsIgnoringCasePointwise` | src/components/login-form.tsx:119 | Equality after `toLowerCase` holds iff both sides have the same length and agree character by character up to case. |
| `JobDescriptionDisplay.ClassifyLine` | src/components/job-description-display.tsx:52-58 | Only the exact prefixes `## ` and `- ` make a heading or a bullet. Every block's markdown is the line itself, so nothing is lost. |
| `JobDescriptionDisplay.KeptLines` | src/components/job-description-display.tsx:48 | Every kept line has no newline and is not blank. |
| `JobDescriptionDisplay.KeepNonBlank` | src/components/job-description-display.tsx:48 | The filter keeps exactly the non-blank lines, and no more lines than it was given. |
| `JobDescriptionDisplay.KeepNonBlankAppend` | src/components/job-description-display.tsx:48 | Filtering keeps the order: it distributes over concatenation. |
| `JobDescriptionDisplay.RenderFormattedDescription` | src/components/job-description-display.tsx:45-60 | `null` or `""` renders nothing. Otherwise there is one block per non-blank line, in order, whose markdown is that line trimmed. |
| `JobDescriptionDisplay.RenderedBlocksCanonical` | src/components/job-description-display.tsx:45-60 | Every rendered block is canonical: one trimmed line with no newline, and a paragraph starts with no marker. |
| `JobDescriptionDisplay.CanonicalLine` | src/components/job-description-display.tsx:51-58 | The markdown line of a canonical block is trimmed and classifies back to that block. |
| `JobDescriptionDisplay.RenderDocumentRoundTrip` | src/components/job-description-display.tsx:45-60 | Rendering the document of any non-empty list of canonical blocks gives those blocks back. |
| `JobDescriptionDisplay.DescriptionPanels` | src/components/job-description-display.tsx:89-125 | Exactly one panel shows. The content panel shows iff idle and the description renders. The placeholder shows iff idle and rendering gives nothing. |
| `JobDescriptionDisplay.ActionsVisible` | src/components/job-description-display.tsx:66 | The copy, download and regenerate buttons show exactly when the content panel is the one shown. |
| `JobDescriptionViewDialog.RenderFormattedDescription` | src/components/job-description-view-dialog.tsx:50-65 | The dialog's copy of the classifier renders nothing exactly for `null` or `""`. |
| `JobDescriptionViewDialog.SameAsDisplay` | src/components/job-description-view-dialog.tsx:50-65 | The dialog renders every description exactly as the display card does. |
| `JobDescriptionViewDialog.IsOpen` | src/components/job-description-view-dialog.tsx:68 | The dialog is open iff the description is non-empty, and iff there is something to render. |
| `JobDescriptionAnalyzer.UnescapeNewlines` | src/components/job-description-analyzer.tsx:66 | The result has no backslash followed by `n`, is no longer than the input, and equals the input when the input has no backslash. |
| `JobDescriptionAnalyzer.UnescapeEscape` | src/components/job-description-analyzer.tsx:66 | Un-escaping undoes escaping for every text in which no backslash precedes an `n`. |
| `JobDescriptionAnalyzer.LeadingDigits` | src/components/job-description-analyzer.tsx:79 | The greedy run of ASCII digits `\d+` at the start of the line. |
| `JobDescriptionAnalyzer.MatchesNumberedIsRegex` | src/components/job-description-analyzer.tsx:79 | `^\d+\.\s` matches iff some non-empty digit run is followed by a dot and whitespace. The dot can only follow the greedy run. |
| `JobDescriptionAnalyzer.AfterFirstSpace` | src/components/job-description-analyzer.tsx:72 | `substring(indexOf(' ') + 1)` is the whole line when it has no space. Otherwise it is what follows the first space. |
| `JobDescriptionAnalyzer.ClassifyLine` | src/components/job-description-analyzer.tsx:68-82 | Heading iff `^##\s` matches. Bullet iff `^[-*]\s` matches and the heading test does not. Numbered iff only `^\d+\.\s` matches. A paragraph keeps the line. Any other block keeps the text after the first space. |
| `JobDescriptionAnalyzer.HeadingFollowedBySpace` | src/components/job-description-analyzer.tsx:71-72 | `## x` is the heading `x`. |
| `JobDescriptionAnalyzer.BulletFollowedBySpace` | src/components/job-description-analyzer.tsx:75-76 | `- x` and `* x` are the bullet `x`. |
| `JobDescriptionAnalyzer.NumberFollowedBySpace` | src/components/job-description-analyzer.tsx:79-80 | `12. x` is the numbered item `x`. |
| `JobDescriptionAnalyzer.DialectsAgree` | src/components/job-description-analyzer.tsx:68-82 | Where the display's dialect finds a marker, the analyzer gives the same block. A line the analyzer leaves as a paragraph is a paragraph in both dialects. |
| `JobDescriptionAnalyzer.RenderFormattedText` | src/components/job-description-analyzer.tsx:64-84 | There is one block per line kept after un-escaping, splitting and dropping blank lines, in order, each classified after trimming. Its meaning as a whole is stated by the two lemmas below. |
| `JobDescriptionAnalyzer.UnescapeUnescaped` | src/components/job-description-analyzer.tsx:66 | The global replace leaves a text without any backslash-`n` pair unchanged. |
| `JobDescriptionAnalyzer.AnalyzerDocumentRoundTrip` | src/components/job-description-analyzer.tsx:64-84 | Take any list of headings, bullets, numbered items and paragraphs whose texts are one line, do not end in whitespace and hold no backslash-`n`, where no paragraph starts with whitespace or matches one of the three patterns. Their markdown rendered back gives exactly that list, whether the lines are joined by newlines or by escaped `\n`. |
| `JobDescriptionAnalyzer.AgreesWithDisplay` | src/components/job-description-analyzer.tsx:64-84 | On a text without backslash-`n` where each kept line either starts with `## ` / `- ` or matches none of the analyzer's patterns, the analyzer renders exactly the blocks the display card renders. The card alone renders nothing for `""`. |
| `JobDescriptionAnalyzer.AnalyzerState.constructor` | src/components/job-description-analyzer.tsx:35-36 | No analysis and not loading. |
| `JobDescriptionAnalyzer.RenderedTextHasNoEscapes` | src/components/job-description-analyzer.tsx:64-84 | No rendered block's text holds a newline or a literal backslash-`n`. |
| `JobDescriptionAnalyzer.FormErrors` | src/components/job-description-analyzer.tsx:25-27 | The form is valid iff the description has at least 50 characters; otherwise there is one error with the schema's message. |
| `JobDescriptionAnalyzer.AnalysisPanels` | src/components/job-description-analyzer.tsx:144-172 | Exactly one panel shows. The results show iff idle with an analysis. |
| `JobDescriptionAnalyzer.AnalyzerState.BeginAnalysis` | src/components/job-description-analyzer.tsx:46-50 | Loading starts, the previous analysis is cleared, and the form data is sent as it is. |
| `JobDescriptionAnalyzer.AnalyzerState.CompleteAnalysis` | src/components/job-description-analyzer.tsx:50-61 | On success the result is stored. On failure the analysis stays as it was. Loading ends either way. |
| `JobDescriptionAnalyzer.AnalyzerState.Submit` | src/components/job-description-analyzer.tsx:46-62 | A too-short description changes nothing. Otherwise the analysis ends as the call's result, or empty after a failure, and loading is off. |
| `Chatbot.UserTurnKeepsAlternation` | src/components/chatbot.tsx:37-38 | Appending a user message after the model's turn keeps the conversation alternating. |
| `Chatbot.ModelTurnKeepsAlternation` | src/components/chatbot.tsx:45-50 | Appending a model message after the user's turn keeps the conversation alternating. |
| `Chatbot.SendButtonEnabled` | src/components/chatbot.tsx:140 | The send button is enabled iff nothing is loading and the input holds a non-whitespace character. |
| `Chatbot.ChatState.constructor` | src/components/chatbot.tsx:14-19 | Closed, only the greeting, an empty input, not loading; the conversation invariant holds. |
| `Chatbot.ChatState.ToggleOpen` | src/components/chatbot.tsx:67 | Flips `isOpen` and nothing else. |
| `Chatbot.ChatState.Close` | src/components/chatbot.tsx:87 | Closes the card and changes nothing else. |
| `Chatbot.ChatState.SetInput` | src/components/chatbot.tsx:132 | Sets the input and nothing else. |
| `Chatbot.ChatState.BeginSend` | src/components/chatbot.tsx:33-44 | A blank input changes nothing. Otherwise the untrimmed input is appended as the user's message, the box is cleared and loading starts. `chat` gets the conversation as it was before that message. The invariant is kept. |
| `Chatbot.ChatState.CompleteSend` | src/components/chatbot.tsx:44-53 | The reply, or the fixed apology after a failure, is appended; loading ends; the invariant is kept. |
| `Chatbot.ChatState.HandleSendMessage` | src/components/chatbot.tsx:33-54 | A non-blank input adds exactly one user/model exchange and keeps the turns alternating. |
| `Chatbot.ChatState.HandleEnter` | src/components/chatbot.tsx:56-61 | Enter without Shift on a non-blank input sends it: one user/model exchange is appended, the box is cleared and loading is off. Any other key, or a blank input, changes nothing. |
| `HomePage.HomeState.constructor` | src/app/page.tsx:20-23 | No description, not loading, no form input, an empty history, local storage as given. |
| `HomePage.HomeState.RestoreHistory` | src/app/page.tsx:34-46 | With a user, a stored history is loaded and a corrupt entry is deleted. Afterwards storage mirrors the history. Without a user nothing changes. |
| `HomePage.HomeState.AddToHistory` | src/app/page.tsx:48-52 | The item goes first, the whole history is written to storage, and storage mirrors the history. |
| `HomePage.HomeState.BeginGenerate` | src/app/page.tsx:55-59 | Loading starts, the description is cleared, and the input is remembered and sent unchanged. |
| `HomePage.HomeState.CompleteGeneration` | src/app/page.tsx:59-77 | On success the description is shown and recorded first in the history. On failure only the loading flag changes. |
| `HomePage.HomeState.HandleGenerate` | src/app/page.tsx:55-78 | The history item is titled with the submitted role title. After a failure no description is shown and the history is unchanged. |
| `HomePage.HomeState.BeginRegenerate` | src/app/page.tsx:80-88 | Nothing happens without a form input or a non-empty description. Otherwise the request carries the input and the description that was shown, and the description is cleared. |
| `HomePage.HomeState.HandleRegenerate` | src/app/page.tsx:80-106 | On success the new item is titled with the remembered role title and storage mirrors the history. |
| `AuthContext.NameFromEmail` | src/context/auth-context.tsx:40 | The name is the prefix of the address before its first `@`, or the whole address when it has none. |
| `AuthContext.NameIsLocalPart` | src/context/auth-context.tsx:40 | For `local@domain` whose local part has no `@`, the name is the local part. |
| `AuthContext.Initials` | src/context/auth-context.tsx:41 | The initials are empty for an empty name. Otherwise they are the first character upper-cased. |
| `AuthContext.LoginUser` | src/context/auth-context.tsx:38-42 | The login user has the address, the derived name, initials from that name and no avatar. |
| `AuthContext.SignupUser` | src/context/auth-context.tsx:50-54 | The sign-up user has the address, the entered name, initials from that name and no avatar. |
| `AuthContext.LoginIsSignupWithDerivedName` | src/context/auth-context.tsx:36-57 | Logging in is signing up under the name derived from the address. |
| `AuthContext.LowerCaseInitial` | src/context/auth-context.tsx:41 | An address starting with a small letter gets that letter's capital as its initials. |
| `AuthContext.AuthProvider.constructor` | src/context/auth-context.tsx:18-19 | No user, still loading. |
| `AuthContext.AuthProvider.RestoreSession` | src/context/auth-context.tsx:22-34 | A stored user is restored, a corrupt entry is removed, loading ends, and memory and storage agree. |
| `AuthContext.AuthProvider.Login` | src/context/auth-context.tsx:36-46 | The derived user is stored and signed in; memory and storage agree. |
| `AuthContext.AuthProvider.Signup` | src/context/auth-context.tsx:48-57 | The user with the entered name is stored and signed in; memory and storage agree. |
| `AuthContext.AuthProvider.Logout` | src/context/auth-context.tsx:59-63 | The stored user is removed and nobody is signed in. |
| `LoginForm.CodeFromDraws` | src/components/login-form.tsx:39-46 | The code has one character per draw: the alphabet's character at that position. |
| `LoginForm.EveryCodeCanBeDrawn` | src/components/login-form.tsx:39-46 | Every six-character code over the alphabet is spelled by some valid draws. |
| `LoginForm.GenerateCaptchaCode` | src/components/login-form.tsx:39-46 | The loop builds the code the draws spell: six characters, all from the alphabet. |
| `LoginForm.Errors` | src/components/login-form.tsx:22-29 | Valid iff the address is an e-mail and neither the password nor the answer is empty. Each message appears iff its rule fails. |
| `LoginForm.CaptchaIgnoresCase` | src/components/login-form.tsx:119 | The code typed in upper or lower case passes. Only an answer equal to the code up to ASCII case passes. |
| `LoginForm.LoginFormState.constructor` | src/components/login-form.tsx:101-102 | No code yet, empty fields, password hidden. |
| `LoginForm.LoginFormState.GenerateNewCaptcha` | src/components/login-form.tsx:105-111 | The code becomes the one the draws spell, and nothing else changes. |
| `LoginForm.LoginFormState.SetValues` | src/components/login-form.tsx:115 | The fields take the typed values, and nothing else changes. |
| `LoginForm.LoginFormState.TogglePasswordVisibility` | src/components/login-form.tsx:132 | Flips the password visibility and nothing else. |
| `LoginForm.LoginFormState.Submit` | src/components/login-form.tsx:118-130 | The data is forwarded unchanged iff the schema passes and the answer matches up to case. A wrong answer is cleared and a new code drawn. Invalid fields change nothing. |
| `SignupForm.Errors` | src/components/signup-form.tsx:21-29 | Valid iff the name has at least 2 characters, the e-mail is valid, the password has at least 8 and both passwords agree. The mismatch is reported on `confirmPassword` whatever the other rules say. |
| `SignupForm.Submit` | src/components/signup-form.tsx:48-50 | Valid data is forwarded unchanged. Invalid data is not forwarded. |
| `SignupForm.DefaultsRejected` | src/components/signup-form.tsx:45 | The untouched form is refused, though its empty passwords agree. |
| `JobDescriptionForm.Errors` | src/components/job-description-form.tsx:22-27 | Valid iff role title ≥ 2, experience ≥ 1, location ≥ 2 and skills ≥ 2 characters. Each message appears iff its rule fails. |
| `JobDescriptionForm.Submit` | src/components/job-description-form.tsx:58 | Valid values reach `onSubmit` unchanged, with the company and gender fields left absent. Invalid values never reach it. |
| `JobDescriptionForm.DefaultsRejected` | src/components/job-description-form.tsx:37-42 | The empty form is refused with all four messages, in schema order. |
| `JobDescriptionForm.OnlyLengthsMatter` | src/components/job-description-form.tsx:22-27 | Forms whose fields have equal lengths are accepted or refused alike. |
| `OtpForm.Errors` | src/components/otp-form.tsx:20-22 | Valid iff the code has exactly 6 characters, with the single shared message otherwise. |
| `OtpForm.Submit` | src/components/otp-form.tsx:49 | The code reaches `onSubmit` unchanged exactly when the schema accepts it. |
| `OtpForm.CapInput` | src/components/otp-form.tsx:61 | The box keeps at most the first six typed characters. |
| `OtpForm.CappedInputRefusedOnlyWhenShort` | src/components/otp-form.tsx:20-22 | Through the box, an entry is accepted iff six or more characters were typed; the `max` rule never fires. |
| `OtpForm.LettersAccepted` | src/components/otp-form.tsx:20-22 | Six letters pass although the message speaks of digits. |
| `LoginPage.Errors` | src/app/login/page.tsx:23-26 | Valid iff the address is an e-mail and the password is non-empty. |
| `LoginPage.RedirectTarget` | src/app/login/page.tsx:32-36 | A signed-in user is sent to `/profile`. Nobody else is sent anywhere. |
| `LoginPage.Submit` | src/app/login/page.tsx:46-48 | Valid values sign in under the address alone and lead to the profile redirect. Invalid ones change nothing. |
| `JobDescriptionParser.Sections` | src/components/job-description-parser.tsx:114-163 | The result card has eight fixed sections in order. "Other Information" is added only when that field is non-empty. |
| `JobDescriptionParser.SectionsShowEverything` | src/components/job-description-parser.tsx:114-163 | Reading the card back gives the parsed record itself. |
| `JobDescriptionParser.ParserPanels` | src/components/job-description-parser.tsx:102-114 | Exactly one panel shows. The record shows iff idle with a result. |
| `JobDescriptionParser.ParserState.constructor` | src/components/job-description-parser.tsx:35-36 | No parsed record and not loading. |
| `JobDescriptionParser.ParserState.BeginParse` | src/components/job-description-parser.tsx:39-46 | Loading starts, the old result is cleared, and the sample document is sent. |
| `JobDescriptionParser.ParserState.CompleteParse` | src/components/job-description-parser.tsx:46-56 | On success the record is stored. On failure the result stays as it was. Loading ends. |
| `JobDescriptionParser.ParserState.HandleParse` | src/components/job-description-parser.tsx:39-57 | Afterwards the card shows exactly the call's record, or the placeholder after a failure. |
| `JobDescriptionHistory.Rows` | src/components/job-description-history.tsx:56-64 | The placeholder row shows iff the history is empty. Otherwise there is one row per item. |
| `JobDescriptionHistory.RowsShowHistory` | src/components/job-description-history.tsx:56-80 | The table shows the whole history, in order, and nothing else. |
| `JobDescriptionHistory.HistoryView.constructor` | src/components/job-description-history.tsx:31 | Nothing is selected. |
| `JobDescriptionHistory.HistoryView.View` | src/components/job-description-history.tsx:71 | Selects the item's description. The dialog opens unless that description is empty. |
| `JobDescriptionHistory.HistoryView.OnOpenChange` | src/components/job-description-history.tsx:84-87 | Closing clears the selection and the dialog. An open request changes nothing. |
| `JobDescriptionHistory.HistoryView.DialogOpen` | src/components/job-description-history.tsx:84-85 | The dialog is open iff a non-empty description is selected. |

## Left out

- The hosted language model: every flow under `src/ai/` is a foreign call.
  - Its answer is a parameter: a `Resolved` value or `Rejected` for a thrown error.
  - The server actions in `src/app/actions.ts` are not part of this model.
- E-mail validation in the zod schemas is not modelled. The check is a predicate the caller supplies (`isEmail`).
- `Math.random()`:
  - the CAPTCHA code's six draws are parameters, each in `[0, 62)`;
  - the SVG distortion of the CAPTCHA image is not modelled.
- The toasts, `router.push` navigations, animations, the chat's scroll-to-bottom effect, clipboard copy, PDF download and date formatting are not modelled. They are user-interface effects with no state the model keeps.
- Home's redirect to `/login` and its loading skeleton are not modelled. They are navigation and presentation only.
- Text is modelled as sequences of Unicode code points:
  - zod's `min`/`max` and `maxLength` count UTF-16 code units;
  - `name[0]` takes a UTF-16 code unit;
  - so lengths differ for characters outside the Basic Multilingual Plane.
- JsText.ToUpper: maps ASCII letters only, whereas JavaScript's `toUpperCase` and `toLowerCase` use full Unicode case mapping.
- AuthContext.Initials: upper-cases ASCII only, for the same reason.
- LoginForm.CaptchaMatches: compares after ASCII-only lower-casing. JavaScript's full case mapping accepts some answers the model refuses: U+212A KELVIN SIGN lower-cases to `k`, so it matches a code letter `K` or `k`.
- JobDescriptionAnalyzer.AnalyzerDocumentRoundTrip: writes every numbered item as item `1.`, because a block does not keep its number.
- Local storage holds parsed records rather than JSON text:
  - `JSON.stringify` followed by `JSON.parse` is taken to be lossless;
  - a stored value that parses to something other than the expected shape is not modelled;
  - an entry holding the empty string, which the source skips, is not modelled, since the application never writes one.
- HomePage.HomeState.AddToHistory: prepends to the history current when the call completes. The source prepends to the history captured when the handler ran. The two differ only if the history changes while a request is in flight.
- Overlapping requests are not modelled: a second send, generation or parse started before the first completes. The buttons and the text area are disabled while loading.
- React's batching of updates and the order of re-renders are not modelled. Each handler is one atomic state change per awaited phase.
- The rich-text editor (`src/components/rich-text-editor.tsx`), the header, the profile page and `src/ai/dev.ts` are not part of this model.
- The `key` props of list items are not modelled: duplicate parsed skills would only make React warn.
