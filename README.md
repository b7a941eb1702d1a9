# Sehat Nabha health app — verified model of its decision logic

Sehat Nabha is a demonstration mobile-web health app in three languages
(Hindi, English, Punjabi). Most of its screens show fixed sample data; this
project models the parts that make decisions, one Dafny module per source file:

- `LanguageContext` (`language_context.dfy`): the three languages, the
  47-key translation catalogue with all of its strings, `getTranslation` with
  its English fallback, and the provider cell that holds the current language.
- `SymptomChecker` (`symptom_checker.dfy`): the nine-entry symptom catalogue,
  the first-match triage ladder (`getAnalysisResults`) that turns a selection
  into a high, medium or low verdict, and the screen's four state cells with
  the toggle, analyze and reset handlers (a class).
- `MedicineAvailability` (`medicine_availability.dfy`): the case-insensitive
  pharmacy search by pharmacy or medicine name, the three-medicine display
  slice, the price / out-of-stock label and the "no results" message.
- `RegisterScreen` (`register_screen.dfy`): the five-field form, `updateField`,
  `isFormValid`, the submit handler and the disabled state of its button.
- `App` (`app.dfy`): sign-in state, user profile, current screens and the
  loading flag; the login, register, Google login and logout handlers; and
  the choice of the screen to render (a class).
- `Prelude` (`prelude.dfy`): `Option`, duplicate-freedom, `filter`-style
  removal and the subsequence relation, shared by the modules above.

The per-screen inline translation tables (verdict texts, alerts, badges) are
represented by `LocalText(key, language)`: the string a screen picks for a key
in a language, without its literal text. Alerts are returned as values.

Notes on what the code does:

- The classifier itself is total: an empty selection gives the low verdict.
  The refusal of an empty selection lives in the analyze handler, which
  returns the "select some symptoms" prompt and leaves the results hidden.
- The fever rung tests the literal ids `cough` and `breathless`; the lemma
  `RespiratoryIdsAreTheRespiratoryCategory` shows these are exactly the
  catalogue's respiratory entries. Since `breathless` already reaches the first
  rung, the fever rung in effect needs fever together with cough.
- The selection is an ordered list, not a set. Toggling a selected id twice
  moves it to the end of the list (`ToggleTwiceReorders`); the set of selected
  ids comes back unchanged.
- No missing-key or unknown-symptom error exists in the code: catalogue keys and
  symptom ids are closed types, so both lookups are total.
- The handlers do not check whether results are on screen; the screen simply
  does not render the symptom grid or the text box then
  (src/components/SymptomChecker.tsx:199-294). The model states that gating as
  a precondition of `Toggle` and `SetCustomSymptoms`, and the session invariant
  keeps results hidden for an empty selection.

## Model

| member | source | states |
|---|---|---|
| `LanguageContext.CatalogueComplete` | src/components/LanguageContext.tsx:31-278 | every catalogue key carries a non-empty string in each of the three languages |
| `LanguageContext.Resolve` | src/components/LanguageContext.tsx:281 | the requested language's string when non-empty, the English string otherwise; English always yields the English string |
| `LanguageContext.GetTranslation` | src/components/LanguageContext.tsx:280-282 | total over catalogue keys; on the shipped catalogue the result is the requested language's non-empty entry, so the fallback is never taken |
| `LanguageContext.LanguageProvider.constructor` | src/components/LanguageContext.tsx:12-13 | the provider starts in English |
| `LanguageContext.LanguageProvider.SetLanguage` | src/components/LanguageContext.tsx:13-16 | replaces the language, and every later lookup translates into the new one |
| `LanguageContext.LanguageProvider.Translate` | src/components/LanguageContext.tsx:280-282 | a lookup under the current language gives that language's non-empty catalogue entry |
| `SymptomChecker.Symptoms` | src/components/SymptomChecker.tsx:24-79 | nine entries, every symptom id exactly once, "others" last, each name the catalogue translation of its key and each category as declared |
| `SymptomChecker.RespiratoryIdsAreTheRespiratoryCategory` | src/components/SymptomChecker.tsx:121 | the ids tested as "respiratory" are exactly the catalogue's respiratory-category symptoms |
| `SymptomChecker.Classify` | src/components/SymptomChecker.tsx:119-169 | high iff chest pain or breathlessness is selected; cold/flu iff not high and fever and cough; multiple-symptoms iff neither and at least three ids (including "others"); low otherwise; advice matches the condition, texts are in the given language, red iff high and green iff low; the urgent rung iff high and the mild rung iff low |
| `SymptomChecker.LanguageOnlySelectsText` | src/components/SymptomChecker.tsx:119-169 | severity, condition, advice key and colour are the same in every language |
| `SymptomChecker.ClassifyIsFirstMatch` | src/components/SymptomChecker.tsx:125-169 | the nested conditionals equal a first-match scan of the ordered rule table, and severity follows from the rung |
| `SymptomChecker.MoreSymptomsNeverLowerSeverity` | src/components/SymptomChecker.tsx:119-169 | a selection that contains another duplicate-free selection never gets a lower tier |
| `SymptomChecker.Examples` | src/components/SymptomChecker.tsx:119-169 | fever+cough is cold/flu, chest pain is high, fever+headache+fatigue is multiple-symptoms, headache alone and the empty list are low |
| `SymptomChecker.ToggleSelection` | src/components/SymptomChecker.tsx:93-97 | the toggled id is selected afterwards iff it was not before, every other id keeps its membership, duplicate-freedom is kept, and the length grows or shrinks by one |
| `SymptomChecker.ToggleTwiceFromAbsent` | src/components/SymptomChecker.tsx:93-97 | toggling an unselected id twice restores the exact list |
| `SymptomChecker.ToggleTwiceFromPresent` | src/components/SymptomChecker.tsx:93-97 | toggling a selected id twice keeps the same ids but moves that id to the end |
| `SymptomChecker.ToggleTwiceReorders` | src/components/SymptomChecker.tsx:93-97 | fever, cough with fever toggled twice becomes cough, fever |
| `Prelude.Remove` | src/components/SymptomChecker.tsx:86 | filtering out an id removes every occurrence of it and keeps every other element as often as before and in order, keeps duplicate-freedom, and is the identity when the id is absent |
| `SymptomChecker.TriageSession.constructor` | src/components/SymptomChecker.tsx:19-22 | empty selection, no results, no custom text, others box hidden; the session invariant (no duplicates, "others" selected iff its box is shown, no hidden text, results only for a non-empty selection) holds |
| `SymptomChecker.TriageSession.Toggle` | src/components/SymptomChecker.tsx:81-99 | offered only while results are hidden; an ordinary id is toggled in the list; "others" flips the text box, removing "others" and clearing the text when hiding and adding "others" once when showing; "others" is selected iff its box is shown, before and after |
| `SymptomChecker.TriageSession.SetCustomSymptoms` | src/components/SymptomChecker.tsx:252-264 | offered only while the box is shown and results are hidden; editing the free text changes only the text, never the verdict |
| `SymptomChecker.TriageSession.Analyze` | src/components/SymptomChecker.tsx:101-110 | an empty selection gets the prompt, exactly when the analyze button is disabled (line 271), and results stay hidden; otherwise results are shown; nothing else changes; the session invariant is kept |
| `SymptomChecker.TriageSession.Results` | src/components/SymptomChecker.tsx:172 | a verdict exactly while results are shown, the ladder's verdict for the current selection, and in a valid session never for an empty selection |
| `SymptomChecker.TriageSession.Reset` | src/components/SymptomChecker.tsx:112-117 | selection emptied, text cleared, results and others box hidden |
| `SymptomChecker.TriageSession.EmergencyShown` | src/components/SymptomChecker.tsx:341 | the emergency card shows exactly when results are shown and chest pain or breathlessness is selected, that is, for a high verdict |
| `SymptomChecker.OthersOnThenOff` | src/components/SymptomChecker.tsx:81-91 | showing "others", typing text and hiding it again restores the selection and leaves no text |
| `MedicineAvailability.ToLower` | src/components/MedicineAvailability.tsx:71 | same length; each ASCII capital becomes the matching small letter, every other character is kept, so no capital is left |
| `MedicineAvailability.NameCaseIgnored` | src/components/MedicineAvailability.tsx:71-74 | two names that differ only in letter case contain exactly the same search terms |
| `MedicineAvailability.Matches` | src/components/MedicineAvailability.tsx:71-74 | the pharmacy name or some medicine name contains the term, ignoring case; the empty term matches every pharmacy |
| `MedicineAvailability.Includes` | src/components/MedicineAvailability.tsx:71 | true iff the term occurs at some position of the text |
| `MedicineAvailability.FilterPharmacies` | src/components/MedicineAvailability.tsx:70-75 | a pharmacy is kept iff its name or some medicine's name contains the term, ignoring case; each kept pharmacy occurs as often as in the input and a dropped one not at all; the result is an order-preserving subsequence of the list |
| `MedicineAvailability.EmptyTermKeepsAll` | src/components/MedicineAvailability.tsx:70-75 | an empty search term shows every pharmacy |
| `MedicineAvailability.SearchIgnoresCase` | src/components/MedicineAvailability.tsx:70-75 | a term and its lower-cased form select the same pharmacies |
| `MedicineAvailability.MatchIgnoresAvailability` | src/components/MedicineAvailability.tsx:72-74 | pharmacies with the same names match alike whatever their stock |
| `MedicineAvailability.DisplayedMedicines` | src/components/MedicineAvailability.tsx:162 | at most the first three medicines are shown, all of them when there are fewer |
| `MedicineAvailability.HiddenMedicineStillMatches` | src/components/MedicineAvailability.tsx:70-75 | a medicine past the third, though not shown, still makes its pharmacy match |
| `MedicineAvailability.StockLabel` | src/components/MedicineAvailability.tsx:171 | an available medicine shows its price, an unavailable one the translated out-of-stock label |
| `MedicineAvailability.EmptyStateShown` | src/components/MedicineAvailability.tsx:211 | the "no results" message shows exactly when no pharmacy matches |
| `RegisterScreen.WithField` | src/components/RegisterScreen.tsx:112-114 | the named field gets the value and the other four are unchanged |
| `RegisterScreen.RegisterForm.constructor` | src/components/RegisterScreen.tsx:25-31 | the form starts with five empty fields |
| `RegisterScreen.RegisterForm.UpdateField` | src/components/RegisterScreen.tsx:112-114 | replaces one field of the form state and keeps the others |
| `RegisterScreen.IsFormValid` | src/components/RegisterScreen.tsx:116-118 | every one of the five fields is non-empty and the password equals its confirmation |
| `RegisterScreen.Submit` | src/components/RegisterScreen.tsx:95-110 | the mismatch alert iff the passwords differ; registration iff the form is valid, carrying name, email, phone and password and never the confirmation |
| `RegisterScreen.RegisterForm.HandleSubmit` | src/components/RegisterScreen.tsx:95-110 | submitting the current form registers exactly when `isFormValid` holds |
| `RegisterScreen.SubmitDisabled` | src/components/RegisterScreen.tsx:275 | disabled while loading; with the button enabled, `handleSubmit` registers; when not loading, a disabled button means the form would not register |
| `App.RenderAuthScreen` | src/App.tsx:126-163 | each sign-in screen value renders that screen; any other value renders the welcome screen |
| `App.RenderAppScreen` | src/App.tsx:165-214 | each app screen value renders that screen; any other value renders the home screen |
| `App.EmailPrefix` | src/App.tsx:76 | the name is the prefix of the email before the first `@`, the whole email when it has none |
| `App.EmailPrefixOfAddress` | src/App.tsx:76 | for an address local@domain with no `@` in the local part the name is the local part |
| `App.EmailPrefixWithoutAt` | src/App.tsx:76 | an email without `@` is its own name |
| `App.AppState.constructor` | src/App.tsx:22-27 | not authenticated, no user, not loading, welcome and home screens |
| `App.AppState.BeginAuth` | src/App.tsx:68 | a sign-in starts by setting the loading flag and changes nothing else |
| `App.AppState.CompleteAuth` | src/App.tsx:81-85 | a sign-in ends with the profile set, authenticated and loading cleared |
| `App.AppState.HandleLogin` | src/App.tsx:67-86 | any credentials sign in; the user is the email's prefix, the email and the fixed phone; loading ends |
| `App.AppState.HandleRegister` | src/App.tsx:88-101 | signs in with the registration's name, email and phone, never its password |
| `App.AppState.HandleGoogleLogin` | src/App.tsx:103-116 | signs in with the fixed Google profile |
| `App.AppState.HandleLogout` | src/App.tsx:118-124 | no user, not authenticated, app screen back to home and sign-in screen back to welcome |
| `App.AppState.ShowAuthScreen` | src/App.tsx:126-163 | the sign-in screens' links store the chosen screen and nothing else, keeping the signed-in invariant |
| `App.AppState.Navigate` | src/App.tsx:165-214 | `onNavigate` stores the chosen app screen and nothing else, keeping the signed-in invariant |
| `App.AppState.Render` | src/App.tsx:126-220 | when authenticated, the view of the current app screen (home for an unknown value); otherwise the view of the current sign-in screen (welcome for an unknown value); an app screen is only rendered with a user present |

## Left out

- Layout, styling, icons and the bold English styling: presentation only.
- The priority badge of the symptom verdict (src/components/SymptomChecker.tsx:313-317): a label chosen by severity, presentation only.
- The literal strings of the per-screen inline tables. They are abstract `LocalText` keys. The central catalogue is modelled with all its strings.
- Alert dialogs. The analyze prompt and the password-mismatch message are returned as values. The pharmacy "calling" alert (src/components/MedicineAvailability.tsx:77-82) and the emergency-call alert are not modelled.
- Timer delays in the sign-in handlers. Each handler is split into its first step (`BeginAuth`) and its completion (`CompleteAuth`), and the delay between them is not modelled.
- localStorage persistence and the saved-user restore at start-up (src/App.tsx:46-58): browser storage is I/O.
- The online/offline listener and the `isOffline` flag (src/App.tsx:25, 30-43): browser events. So are the offline notes shown by the screens.
- The `dummyUsers` list (src/App.tsx:61-65): it is declared and never consulted, since login accepts any credentials.
- React context machinery, including `useLanguage` failing outside a provider (src/components/LanguageContext.tsx:22-28). The language is a class field or a parameter.
- The hard-coded sample pharmacies and their per-language names (src/components/MedicineAvailability.tsx:20-68). The filter is modelled over any list.
- The search box's own state cell. The search term is a parameter.
- MedicineAvailability.FilterPharmacies: only ASCII letters are lower-cased, because Unicode `toLowerCase` is a library table. The contract is the same shape as the source's but over that narrower case mapping.
- RegisterScreen.SubmitDisabled: the browser's own validation of the registration form is not modelled: the inputs are marked `required` and the email input has type `email` (src/components/RegisterScreen.tsx:157-255), so the browser may stop a submit, for instance for a malformed email, before `handleSubmit` runs. The model describes what `handleSubmit` does once it runs; `SubmitDisabled` promises registration only in that sense.
- The password visibility toggles of the registration form (src/components/RegisterScreen.tsx:32-33): presentation only.
- SymptomChecker.TriageSession.Toggle: ids are the closed `SymptomId` type, because the screen only passes catalogue ids; an arbitrary string id is not modelled.
- The other screens (health records, video consultation, home, welcome, login, language selector, offline indicator). They show fixed data and hold no decision logic beyond one-line gates.
