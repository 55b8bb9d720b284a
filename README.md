# CEC Events: a verified model of the component logic

The CEC Events site is a single-page React application with no server. Its
behaviour lives in a handful of components that keep state in the browser's
`localStorage`:

- the **admin dashboard** seeds, adds, edits and deletes events in the shared
  `'events'` slot. After every change it writes the whole list back and
  broadcasts it as an `'eventsUpdated'` window event;
- the **event list** seeds the same slot with its own defaults, follows the
  broadcasts and opens a registration dialog; it has a handler that would
  raise a participant count, but the dialog never calls it;
- the **registration dialog** and the **contact form** validate required
  fields and clear themselves;
- the **header** keeps a `'users'` slot with a seeded administrator, logs users
  in, signs students up and gates the dashboard to administrators;
- the **chat assistant** answers from an ordered keyword table and five
  general rules;
- the **page** keeps the dark/light preference in a `'theme'` slot.

This project models each of these in Dafny. Each component is a class whose
fields are the component's state and whose methods are its handlers. A
`Storage` object stands for the shared storage slot. The list transforms,
validators and matchers are pure functions. Lemmas state what the code
promises about them.

Modules and files:

| file | module | component |
|---|---|---|
| `common.dfy` | `Common` | `Option`, ordered search (`Array.prototype.find`) |
| `text.dfy` | `Text` | `toLowerCase`, `includes`, `trim`, `parseInt`, `String(n)` |
| `catalog.dfy` | `Catalog` | `Event` record, `'events'` slot, default catalogs, list transforms |
| `registration.dfy` | `Registration` | registration dialog |
| `events_list.dfy` | `EventsList` | public event list |
| `admin.dfy` | `Admin` | admin dashboard |
| `accounts.dfy` | `Accounts` | header: users, login, signup, logout |
| `chat.dfy` | `Chat` | chat assistant |
| `contact.dfy` | `Contact` | contact form |
| `theme.dfy` | `Theme` | page theme |

The code has no capacity check on registration, no rejection of a capacity
below the current count, no serialised registrations and no rollback on a
failed storage write; this model follows the code. The registration dialog
never calls the list's success handler (`EventsList.EventsSection.SubmitRegistration`),
so `Catalog.IncrementOverbooks` and `Admin.StaleDashboardWriteLosesRegistration`
describe that handler as written, which no user action reaches;
`Admin.NegativeCapacityAccepted` describes the add form, which is reachable.
Guarded variants are stated only where they are labelled as such
(`Catalog.GuardedIncrementKeepsCapacity`).

## Model

| member | source | states |
|---|---|---|
| Common.FindFirst | src/components/Header.tsx:50 | `find` returns the first element, in order, satisfying the predicate; none exactly when no element does |
| Text.Lower | src/components/Chatbot.tsx:90 | lower-casing keeps the length, turns each upper-case ASCII letter into its lower-case letter (code point plus 32), leaves no upper-case letter and keeps every other character |
| Text.LowerIdempotent | src/components/Chatbot.tsx:97 | lower-casing an already lower-cased message changes nothing |
| Text.ContainsIff | src/components/Chatbot.tsx:92 | the left-to-right `includes` scan holds exactly when the substring occurs at some position |
| Text.TrimStart | src/components/Chatbot.tsx:141 | the start of `trim`: what is cut off is all white space and what remains is a suffix that starts with a character that is not white space (or is empty) |
| Text.TrimEnd | src/components/Chatbot.tsx:141 | the end of `trim`: what is cut off is all white space and what remains is a prefix that ends with a character that is not white space (or is empty) |
| Text.TrimEmptyIff | src/components/Chatbot.tsx:141 | `!input.trim()` holds exactly when every character is white space, including for the empty input |
| Text.ParseIntString | src/components/AdminDashboard.tsx:350 | `parseInt` of the decimal rendering of any integer, negative ones included, gives the integer back |
| Catalog.Storage.constructor | src/components/AdminDashboard.tsx:48-49 | the `'events'` slot starts with whatever the browser holds, possibly nothing |
| Catalog.RegisterButtonLabel | src/components/EventsSection.tsx:269-276 | the button reads 'Event Full' exactly when the count has reached the limit, and 'Register Now' otherwise |
| Catalog.CategoryColor | src/components/EventsSection.tsx:159-167 | the four known categories get their colour; any other category gets the workshop colour |
| Catalog.LoadAfterLoad | src/components/EventsSection.tsx:37-122 | a stored catalog is used as it is, so once one component has seeded the slot every later load sees that catalog, whatever its own defaults |
| Catalog.CountId | src/components/AdminDashboard.tsx:188-191 | the number of records with an id is zero exactly when no record has it |
| Catalog.ReplaceById | src/components/AdminDashboard.tsx:180-183 | save-edit keeps length, order and ids, replaces every record with the edited id by the copy and leaves the others alone |
| Catalog.ReplaceIdempotent | src/components/AdminDashboard.tsx:180-183 | saving the same copy twice equals saving it once |
| Catalog.ReplaceAbsent | src/components/AdminDashboard.tsx:180-183 | saving a copy whose id is absent leaves the list unchanged |
| Catalog.RemoveById | src/components/AdminDashboard.tsx:188-191 | delete removes exactly the records with the id: the length drops by their number, none remains, and every other record is kept |
| Catalog.RemoveConcat | src/components/AdminDashboard.tsx:188-191 | delete works record by record and keeps the relative order of the rest |
| Catalog.RemoveAbsent | src/components/AdminDashboard.tsx:188-191 | deleting an absent id leaves the list unchanged |
| Catalog.RemoveIdempotent | src/components/AdminDashboard.tsx:188-191 | deleting twice equals deleting once |
| Catalog.IncrementById | src/components/EventsSection.tsx:145-155 | a registration adds exactly 1 to the count of each record with the id; length, order and every other field are unchanged |
| Catalog.IncrementTotal | src/components/AdminDashboard.tsx:569 | the total over the list grows by the number of records that carry the id |
| Catalog.IncrementOverbooks | src/components/EventsSection.tsx:145-149 | the success handler as written, which the dialog never calls, would push a full record's count above its limit |
| Catalog.GuardedIncrementKeepsCapacity | src/components/EventsSection.tsx:269 | guarded variant: a registration issued only when the event is not full keeps every count within its limit |
| Catalog.IncrementTimes | src/components/EventsSection.tsx:145-149 | after n registrations every record with the id has gained exactly n, whatever its limit, and nothing else about any record has changed |
| Catalog.AdminDefaultsShape | src/components/AdminDashboard.tsx:53-133 | the dashboard seeds six records with ids '1' to '6', all within capacity |
| Catalog.ListDefaultsShape | src/components/EventsSection.tsx:43-119 | the list seeds five records with ids '1' to '5', all within capacity |
| Catalog.DefaultsDisagreeOnId4 | src/components/AdminDashboard.tsx:95-96 | id '4' is Robotics Challenge in the dashboard's defaults and Photography Workshop in the list's, and whichever seeds first decides |
| Registration.WithField | src/components/EventRegistration.tsx:67-72 | an input change sets the field it names and leaves the other five unchanged |
| Registration.RequiredFilledIff | src/components/EventRegistration.tsx:49-52 | the form is valid exactly when name, email, phone and student id are non-empty; year and department are optional |
| Registration.EventRegistration.constructor | src/components/EventRegistration.tsx:37-44 | the dialog starts with all six fields empty |
| Registration.EventRegistration.HandleInputChange | src/components/EventRegistration.tsx:67-72 | only the named field of the form changes |
| Registration.EventRegistration.HandleSubmit | src/components/EventRegistration.tsx:46-65 | an invalid form is rejected and left unchanged; a valid one is cleared and the dialog closes |
| Registration.RegistrationCategoryColor | src/components/EventRegistration.tsx:74-82 | capitalised categories get their colour and any other category gets gray |
| Registration.StoredCategoriesShowGray | src/components/EventRegistration.tsx:74-82 | every lower-case category that the rest of the site stores is shown gray in the dialog |
| Registration.SpotsRemaining | src/components/EventRegistration.tsx:151 | spots remaining is `spots - registered`, and NaN when either field is missing |
| Registration.SpotsIgnoreRegistrations | src/components/EventRegistration.tsx:151 | spots remaining does not move when a registration raises the count |
| Registration.DefaultSpotsRemaining | src/components/EventsSection.tsx:86-87 | the list's defaults show 20 spots remaining; the dashboard's records show NaN |
| EventsList.EventsSection.constructor | src/components/EventsSection.tsx:31-33 | the list starts empty, with no selection, the dialog closed and no listener |
| EventsList.EventsSection.Mount | src/components/EventsSection.tsx:37-132 | a stored catalog is used as it is; otherwise the five defaults become the list and are written; then the listener is registered |
| EventsList.EventsSection.Unmount | src/components/EventsSection.tsx:134-136 | the listener is removed and nothing else changes |
| EventsList.EventsSection.OnEventsUpdated | src/components/EventsSection.tsx:128-130 | a broadcast replaces the local list with the published list |
| EventsList.EventsSection.HandleRegister | src/components/EventsSection.tsx:139-142 | the event is selected and the dialog opens; the list is unchanged |
| EventsList.EventsSection.CloseRegistration | src/components/EventsSection.tsx:300-303 | the dialog closes and the selection is cleared |
| EventsList.EventsSection.HandleRegistrationSuccess | src/components/EventsSection.tsx:144-157 | the list becomes the incremented list and storage receives the same list; nothing is broadcast |
| EventsList.EventsSection.SubmitRegistration | src/components/EventRegistration.tsx:36 | a dialog submission never changes a count or the stored catalog, because the dialog never calls `onSuccess` |
| Admin.WithDraftField | src/components/AdminDashboard.tsx:268-376 | an add-form input sets its field and leaves the other fields and the capacity unchanged |
| Admin.CapacityFromInput | src/components/AdminDashboard.tsx:350 | the capacity is the parsed number, and 50 when it parses to 0 or NaN; it is never 0 |
| Admin.CapacityInputRoundTrip | src/components/AdminDashboard.tsx:350 | typing the rendering of a capacity gives that capacity back, except that 0 becomes 50 |
| Admin.NegativeCapacityAccepted | src/components/AdminDashboard.tsx:350 | a negative capacity such as -5 is accepted |
| Admin.NewEvent | src/components/AdminDashboard.tsx:152-156 | an added record carries the draft's fields, the given id and a count of 0 |
| Admin.NewEventCapacity | src/components/AdminDashboard.tsx:152-156 | an added record is within capacity exactly when the draft's capacity is not negative |
| Admin.WithEditedField | src/components/AdminDashboard.tsx:407-464 | an edit input sets its field; id, capacity, count, image and the list-only fields never change |
| Admin.EditsKeepFixedFields | src/components/AdminDashboard.tsx:175 | no sequence of edit inputs changes the copy's id, capacity, count or image |
| Admin.SaveEditKeepsCapacity | src/components/AdminDashboard.tsx:178-186 | saving an edit keeps every record within capacity when the list was |
| Admin.StaleDashboardWriteLosesRegistration | src/components/AdminDashboard.tsx:140-144 | were the unreached success handler to store an increment, a dashboard write from its old list would put back the count from before it |
| Admin.AdminDashboard.constructor | src/components/AdminDashboard.tsx:32-45 | the dashboard shares the page's slot, starts with an empty list, no edit, the add form closed and the default draft |
| Admin.AdminDashboard.Publish | src/components/AdminDashboard.tsx:140-144 | the slot holds exactly the list, and a mounted event list receives that same list |
| Admin.AdminDashboard.Mount | src/components/AdminDashboard.tsx:47-144 | a stored catalog is used as it is; otherwise the six defaults become the list and are written; then the list is published |
| Admin.AdminDashboard.OpenAddForm | src/components/AdminDashboard.tsx:230 | the add form opens; nothing else changes |
| Admin.AdminDashboard.CloseAddForm | src/components/AdminDashboard.tsx:251 | the add form closes and the draft is kept |
| Admin.AdminDashboard.ChangeDraftField | src/components/AdminDashboard.tsx:268-376 | only the named draft field changes |
| Admin.AdminDashboard.ChangeDraftCapacity | src/components/AdminDashboard.tsx:350 | the draft's capacity becomes the parsed input, or 50 |
| Admin.AdminDashboard.HandleAddEvent | src/components/AdminDashboard.tsx:146-172 | with an empty title, date, time or location nothing changes; otherwise exactly one record with count 0 is appended, the draft is reset to its defaults, the form closes and the list is published |
| Admin.AdminDashboard.HandleEditEvent | src/components/AdminDashboard.tsx:174-176 | editing starts on a copy of the record |
| Admin.AdminDashboard.ChangeEditField | src/components/AdminDashboard.tsx:407-464 | only the named field of the copy changes |
| Admin.AdminDashboard.CancelEdit | src/components/AdminDashboard.tsx:470 | the edit is abandoned and the list is unchanged |
| Admin.AdminDashboard.HandleSaveEdit | src/components/AdminDashboard.tsx:178-186 | with no edit in progress nothing changes; otherwise the list is the replaced list, the edit ends and the list is published |
| Admin.AdminDashboard.HandleDeleteEvent | src/components/AdminDashboard.tsx:188-191 | the list is the filtered list and is published |
| Accounts.UsersOf | src/components/Header.tsx:31-41 | a stored list is returned as it is, even an empty one; an empty slot gives the single default administrator |
| Accounts.GetUsersStable | src/components/Header.tsx:31-41 | a second `getUsers` with no write in between returns the same list |
| Accounts.FindLogin | src/components/Header.tsx:50 | login finds a user exactly when some stored user matches both email and password, and it is the first such user |
| Accounts.EmailTakenIff | src/components/Header.tsx:78 | the duplicate test holds exactly when some stored user has the email |
| Accounts.SignupDecision | src/components/Header.tsx:62-98 | a mismatch is reported before the length; a password shorter than 5 is rejected; a taken email is rejected; otherwise a student with the form's details is created |
| Accounts.SignupKeepsEmailsDistinct | src/components/Header.tsx:78-92 | signup keeps the stored emails distinct |
| Accounts.SignupThenLogin | src/components/Header.tsx:47-92 | an account that signup created can log in with its email and password, and login finds that same account |
| Accounts.DefaultAdminLogsIn | src/components/Header.tsx:36-38 | the seeded administrator logs in with adi@gmail.com / 12345 |
| Accounts.Header.constructor | src/components/Header.tsx:23-28 | no current user, every dialog closed, both forms empty |
| Accounts.Header.GetUsers | src/components/Header.tsx:31-41 | returns the stored list or the seeded administrator, and the slot then holds what it returned |
| Accounts.Header.SaveUsers | src/components/Header.tsx:43-45 | the slot holds the list |
| Accounts.Header.HandleLogin | src/components/Header.tsx:47-60 | on a match the first matching user becomes current, the dialog closes and the form clears; on failure the user, the dialog and the form are unchanged |
| Accounts.Header.HandleSignup | src/components/Header.tsx:62-98 | the outcome is the signup decision; rejected passwords leave the slot untouched; a success appends exactly the new student, saves it and makes it current, so the gate stays closed |
| Accounts.Header.HandleLogout | src/components/Header.tsx:100-104 | no current user and the dashboard dialog is closed |
| Accounts.Header.OpenAdminDashboard | src/components/Header.tsx:191-209 | the dashboard can be opened only while the current user is an administrator |
| Chat.MentionsIff | src/components/Chatbot.tsx:116 | a rule fires exactly when one of its words occurs in the lower-cased message |
| Chat.FindEventByKeywords | src/components/Chatbot.tsx:89-94 | the result is the first table row, in table order, with a keyword in the lower-cased query, and nothing when no row has one |
| Chat.GenerateBotResponse | src/components/Chatbot.tsx:96-138 | a matching row's details win over everything; otherwise exactly one rule fires, in the order greeting, help, events, registration, price, then the fallback |
| Chat.ResponseCaseInsensitive | src/components/Chatbot.tsx:90 | the answer depends only on the lower-cased message |
| Chat.FirstRowAnswers | src/components/Chatbot.tsx:91-92 | a keyword of the first row in the message decides the answer, whatever later rows match |
| Chat.CareerFairAnsweredByAiWorkshop | src/components/Chatbot.tsx:33-34 | "career fair" matches the career fair row but contains "ai", so the AI workshop answers it |
| Chat.PhotographyWorkshopAnsweredByAiWorkshop | src/components/Chatbot.tsx:33-34 | "photography workshop" matches the photography row but the AI workshop answers it |
| Chat.DetailsNameTheEvent | src/components/Chatbot.tsx:101 | the details answer names the event's title after its opening marker |
| Chat.Chatbot.constructor | src/components/Chatbot.tsx:20-29 | the chat starts closed, with the welcome message as id 1 and an empty input |
| Chat.Chatbot.Toggle | src/components/Chatbot.tsx:185 | the chat window opens or closes |
| Chat.Chatbot.SetInput | src/components/Chatbot.tsx:270 | the input holds what was typed |
| Chat.Chatbot.SendEnabled | src/components/Chatbot.tsx:281 | the send button is enabled exactly when the input has a character that is not white space |
| Chat.Chatbot.SendMessage | src/components/Chatbot.tsx:140-164 | a message is sent exactly when the send button is enabled (the input is not all white space); then exactly one user message with the input is appended, its answer is scheduled and the input clears; otherwise nothing changes |
| Chat.Chatbot.KeyPress | src/components/Chatbot.tsx:166-170 | Enter behaves exactly like send; other keys change nothing |
| Chat.Chatbot.DeliverReply | src/components/Chatbot.tsx:153-161 | when the timer fires, the answer to the input captured at send time is appended as a bot message with id now + 1 |
| Contact.WithField | src/components/ContactSection.tsx:36-41 | an input change sets the field it names and leaves the other three unchanged |
| Contact.RequiredFilledIff | src/components/ContactSection.tsx:26-29 | the form is valid exactly when every field but the subject is non-empty |
| Contact.SubjectIrrelevant | src/components/ContactSection.tsx:26-29 | typing a subject never changes whether the form can be sent |
| Contact.ContactSection.constructor | src/components/ContactSection.tsx:15-20 | the form starts empty |
| Contact.ContactSection.HandleInputChange | src/components/ContactSection.tsx:36-41 | only the named field changes |
| Contact.ContactSection.HandleSubmit | src/components/ContactSection.tsx:22-34 | an invalid form is rejected and left unchanged; a valid one is cleared |
| Theme.LoadTheme | src/pages/index.tsx:17-25 | 'dark' gives dark mode, 'light' gives light mode, and anything else gives the system preference |
| Theme.SaveTheme | src/pages/index.tsx:30 | 'dark' is written exactly for dark mode and 'light' otherwise |
| Theme.ThemeRoundTrip | src/pages/index.tsx:18-21 | loading what was saved gives the same mode back, whatever the system preference |
| Theme.SaveAfterLoad | src/pages/index.tsx:30 | saving what was loaded from a value the page wrote writes that value again |
| Theme.Page.constructor | src/pages/index.tsx:13 | the page starts in light mode |
| Theme.Page.Persist | src/pages/index.tsx:29-36 | the slot holds the mode's name and the document has the dark class exactly in dark mode |
| Theme.Page.Mount | src/pages/index.tsx:16-36 | the loaded mode is chosen and then recorded |
| Theme.Page.Toggle | src/pages/index.tsx:38-40 | toggling negates the mode, so toggling twice is the identity; the slot and the document class follow |

## Left out

- Rendering, Tailwind classes other than the colour lookups, dialogs' visual state, toasts, icons and scrolling are not modelled. The same goes for the Hero animation, the Footer, the About section and the menubar wrappers.
- `localStorage` and `JSON.parse`/`JSON.stringify`: each slot is a field holding the decoded value. A slot holding malformed JSON, which the code does not handle, has no counterpart. A stored empty list counts as present, as the non-empty string `"[]"` does in the code.
- Window events and React effect scheduling: a broadcast is a direct call to the list's handler, made only while it is subscribed. On mount each component's persist effect first runs once with the initial empty list (`[]`, or light mode for the page) before its loaded state is written. That intermediate write is not modelled; the model's mount ends in the same final state.
- Ids from `Date.now()` and the chat's timer are parameters (`id`, `now`). Unique ids are not guaranteed, and the lemmas about `RemoveById`, `ReplaceById` and `IncrementById` cover duplicate ids too. Message timestamps are not modelled.
- Chat.Chatbot.DeliverReply: bot messages record which answer they carry, and `Chat.ReplyText` gives the answer's text. Messages do not store the text itself.
- The dashboard's average fill rate uses float division and `Math.round`, so it is not modelled. Date and time formatting with `toLocaleDateString`/`toLocaleTimeString` is not modelled either.
- Text.Lower: only ASCII letters are lower-cased; `toLowerCase` also maps other Unicode letters.
- Text.ParseInt: decimal input only. The `0x` prefix that `parseInt` reads as hexadecimal is not modelled, nor are values beyond the safe-integer range.
- Accounts.SignupDecision: the password length is counted in characters. JavaScript counts UTF-16 code units, so the two differ for characters outside the Basic Multilingual Plane.
- Catalog.CategoryColor and Registration.RegistrationCategoryColor: a category naming an inherited object property (for example `"constructor"`) would read that property in the code. The model uses only the four table entries.
- The browser's own checks on the forms (`required`, `type="email"`, `type="number"`) are not modelled, only the handlers' checks.
- Plain `onChange` assignments of the login and signup forms are not modelled; `HandleLogin` and `HandleSignup` read whatever the forms hold.
- Capacity checks at registration, rejection of a capacity below the count, serialised registrations and rollback on a failed storage write: the code has none of these, so there is nothing to model. `Admin.NegativeCapacityAccepted` states the missing capacity guard on the add form; `Catalog.IncrementOverbooks` and `Admin.StaleDashboardWriteLosesRegistration` state what the list's success handler would do, but the dialog never calls it.
