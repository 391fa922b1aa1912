# Crowd-sourced delivery platform — a verified model of its dispatch core

The platform connects merchants, riders and customers. A merchant publishes
a delivery order from a dialog. The server stores it as `pending` and
broadcasts it. Riders see it in their task hall and grab it, which
broadcasts the updated order again. Participants of an order chat on a
per-order channel. An Express server keeps the tables in SQLite and relays
events over socket.io. React clients sign users in, register riders, and
keep local order and message lists up to date from those events.

This project models that core in Dafny:

- `types.dfy`: the records of `src/types.ts` and the string forms of their enumerations.
- `strings.dfy`, `lists.dfy`: helpers.
  - JavaScript's `${n}` for integers and `String.prototype.trim`.
  - `Array.prototype.filter`.
- `server_schema.dfy`: the zod validators for register and login.
- `tables.dfy`: the server's SQL as functions on table contents.
  - the user and order lookups;
  - the `order:accept` update;
  - the hall query (status filter, inner join on the merchant, newest first);
  - the price configuration;
  - the login reply.
- `server.dfy`: the server as a class.
  - Its fields are the tables, the AUTOINCREMENT counters and an outbox of emitted events.
  - Its methods are the handlers that write: register, create order, accept, chat send and save price configuration.
- `rider_dashboard.dfy`: the rider's workbench.
  - the list reducers for `order:new` and `order:updated`;
  - the hall and "my deliveries" views;
  - the grab button;
  - the `m:ss` formatter and the clamped countdown.
- `order_publish.dfy`: the publish dialog.
  - the form and its field setters;
  - the submit guard, the client-side price and the request body;
  - the callbacks run on the reply.
- `rider_registration.dfy`: the three-step sign-up wizard, with its step guards, photo flags and register request.
- `chat_window.dfy`: the chat window, with the send guard and payload, message append, and own-message test.
- `login.dfy`: the sign-in screen: the default role, the decision on the reply, and the rider sign-up entry.
- `merchant_dashboard.dfy`: the merchant page: the balance default, the status label, and the list prepend on publish.
- `scenarios.dfy`: client and server together.
  - a published order reaching the riders' hall;
  - an accept broadcast on several dashboards;
  - the wizard's checks against the register schema;
  - what a sign-in rests on;
  - a chat round trip;
  - the publish reply on the merchant page.

Modelling conventions:

- Time is an integer parameter in milliseconds (`now`).
- Ids are `nat`.
- Money, distances, weights and coordinates are `real`.
- A table is a sequence of rows in insertion order.
- A JavaScript `undefined` or SQL `NULL` is `Option.None`.
- Each `io.emit(channel, payload)` appends an `Event` to the server's outbox.
- `bcrypt.compareSync` is a predicate parameter. `bcrypt.hashSync` is a string parameter.

What the code does, and what the model therefore proves about it:

- **Accept is unconditional.** The `order:accept` handler updates the row whatever its status, and the last accept wins. `Tables.SecondAcceptOverwritesFirst` and `Server.AcceptTwiceScenario` prove this.
  - The handler sends no reply to the rider who lost.
  - It writes a transfer deadline three minutes ahead (the comment at server.ts:333, the `transfer_deadline` column), and `src/types.ts` has a `transferring` status. Yet nothing reads the deadline, and no handler changes status after `accepted`.
- **Accept may record no rider.** An accept with no rider id stores `accepted` with no rider.
- **Foreign keys are enforced.** The server opens its database with better-sqlite3, whose bundled SQLite checks `REFERENCES` clauses by default. `Server.Store.Valid` includes them.
  - An order whose merchant id is not a user is refused, and nothing is stored or broadcast.
  - An accept naming a rider who is not a user is refused in the same way.
  - So is a chat message for an order id that is not stored.
  - NULL passes every foreign key.
- **An unknown order id crashes the rider dashboards.** Accepting an unknown id changes no row but broadcasts a missing row. The dashboard's update handler reads that row's id for each listed order, so on any non-empty list it throws during rendering. There is no error boundary, and the whole application unmounts. `RiderDashboard.Dashboard.OnOrderUpdated` sets `crashed` in that case, and `Scenarios.UnknownAcceptCrashesDashboard` connects it to `Server.Store.Accept`.
- **The client ignores the stored price configuration.** The publish dialog prices orders with fixed rates 5/2/1 (`OrderPublish.EstimateIsSubmittedPrice`), and the server stores whatever price the client sends.
- **Sign-in is judged on the press.** The reply to a sign-in is checked against the role and username captured when the button was pressed (`Login.LoginScreen.SubmitLogin`, `Login.RoleChangeWhileWaiting`).

## Model

| member | source | states |
|---|---|---|
| Types.ParseRole | src/types.ts:1 | exactly the four role names are read as roles, each back to its own name |
| Types.ParseStatus | src/types.ts:32 | exactly the six status names are read as statuses, each back to its own name |
| Types.ParseOrderType | src/types.ts:33 | exactly "instant" and "scheduled" are order types |
| Types.ParseChatKind | src/types.ts:50 | exactly "text", "voice", "photo", "video" are chat message types |
| Types.ParseReportStatus | src/types.ts:64 | exactly "pending", "approved", "rejected" are report statuses |
| Types.NamesRoundTrip | src/types.ts:1-66 | every enumeration value is stored as a string that reads back as itself |
| Strings.NatToString | server.ts:356 | the decimal rendering of a number is a non-empty run of digits, one digit exactly below 10 |
| Strings.NatToStringRoundTrip | server.ts:356 | reading the rendering of `n` back as digits gives `n` |
| Strings.NatToStringInjective | server.ts:356 | two numbers render alike iff they are equal |
| Strings.IntToString | src/components/rider/RiderDashboard.tsx:84 | a negative integer renders as a minus sign followed by its magnitude's digits |
| Strings.TrimStart | src/components/common/ChatWindow.tsx:47 | the result is a suffix of the input, the dropped prefix is whitespace, and it does not start with whitespace |
| Strings.TrimEnd | src/components/common/ChatWindow.tsx:47 | the result is a prefix of the input, the dropped suffix is whitespace, and it does not end with whitespace |
| Strings.TrimIsSlice | src/components/common/ChatWindow.tsx:47 | `trim()` is a contiguous slice of the input with only whitespace dropped on either side |
| Strings.TrimEdges | src/components/common/ChatWindow.tsx:47 | a non-empty `trim()` neither starts nor ends with whitespace |
| Strings.TrimEmptyIffBlank | src/components/common/ChatWindow.tsx:47 | the trimmed text is empty iff the input is all whitespace |
| Lists.Filter | src/components/rider/RiderDashboard.tsx:221 | the filtered list is no longer than the input, holds only kept elements of it, and holds every kept element |
| ServerSchema.ValidateRegister | server.ts:190-196 | a body passes iff username has 3..20 chars, password at least 6, the role is one of the four and the phone matches `^1[3-9]\d{9}$`; otherwise the first failing field is reported; a passing body keeps its fields |
| ServerSchema.RegisteredCredentialsPassLoginSchema | server.ts:185-196 | credentials the register schema accepts also pass the login schema |
| ServerSchema.PhonePatternExamples | server.ts:195 | "13800138000" matches the phone pattern; a second digit 2 or a 10-digit number does not |
| Tables.FindUser | server.ts:277 | the lookup finds a row with that id, or no row has it |
| Tables.FindUserByName | server.ts:249 | the lookup finds a row with that username, or no row has it |
| Tables.FindOrder | server.ts:336 | the lookup finds a row with that id, or no row has it |
| Tables.FindOrderAt | server.ts:336 | with unique ids, looking up a row's id returns that very row |
| Tables.FindUserAfterInsert | server.ts:228 | a user the lookup finds is still found after more users are inserted |
| Tables.FindOrderKept | server.ts:335-336 | an order the lookup finds is still found in a table that keeps every row's id in place |
| Tables.AcceptRows | server.ts:335 | the update keeps the table's length, rewrites every row with the id to accepted by the rider with accept time and a deadline three minutes later, and leaves all other rows alone |
| Tables.AcceptIgnoresStatus | server.ts:332-336 | after an accept, the re-read row is accepted by that rider whatever its previous status |
| Tables.AcceptUnknownIdChangesNothing | server.ts:335 | an accept for an absent id leaves the table unchanged |
| Tables.SecondAcceptOverwritesFirst | server.ts:335 | two accepts of one order leave the table as if only the second had happened |
| Tables.AcceptKeepsKeys | server.ts:335 | an accept keeps every row's id and order number |
| Tables.HallRows | server.ts:275-278 | the join holds every pending or transferring order whose merchant is a user, with that merchant's name and address, and nothing else |
| Tables.InsertNewestFirst | server.ts:279 | inserting into a newest-first list keeps it newest first and adds exactly that row |
| Tables.SortNewestFirst | server.ts:279 | the sort is newest first and a permutation of its input |
| Tables.HallContents | server.ts:272-280 | the hall is newest first, a permutation of the join, contains every qualifying order joined with its merchant, and only such rows |
| Tables.HallDropsOrphans | server.ts:277-278 | no hall row lacks an existing merchant or has a status outside pending/transferring |
| Tables.ReadPriceConfig | server.ts:305-308 | the reply is the defaults 5/2/1 iff the table is empty, and otherwise its first row |
| Tables.LoginReply | server.ts:243-257 | 400 iff the body fails the login schema; success iff the username exists and the password matches its hash, and then the user is that row without its password |
| Server.ChatChannelsDistinct | server.ts:356 | chat channels of different orders differ, and none is an order channel |
| Server.AcceptKeepsOrdersWellFormed | server.ts:335 | an accept keeps ids increasing, below the counter, and order numbers unique |
| Server.AcceptBroadcastMissingIffUnknown | server.ts:335-338 | the accept broadcast is missing exactly when the id names no stored order |
| Server.ReferencesSurviveNewUser | server.ts:79-119 | inserting a user keeps every foreign key satisfied |
| Server.ReferencesSurviveNewOrder | server.ts:106-107 | inserting an order whose merchant and rider pass their foreign keys keeps every foreign key satisfied |
| Server.OrdersWellFormedAppend | server.ts:289-292 | inserting a row under the next id with a fresh order number keeps ids increasing and order numbers unique |
| Server.ReferencesSurviveAccept | server.ts:106-107 | an accept whose rider passes the foreign key keeps every foreign key satisfied |
| Server.Store.constructor | server.ts:56-120 | the tables start empty with every id sequence at 1 |
| Server.Store.Register | server.ts:220-237 | an invalid body is refused with the schema's first issue, a taken username is refused, and otherwise one active user with balance 0 is appended under the next id, which is returned |
| Server.Store.CreateOrder | server.ts:287-297 | a duplicate order number, and then a merchant id that is not a user, is refused and changes nothing; otherwise one pending, riderless row with a fresh larger id is appended, emitted on "order:new" and returned |
| Server.Store.Accept | server.ts:332-339 | a stored order with a rider id that is not a user changes nothing and emits nothing; otherwise the table becomes the accept update and the re-read row (missing for an unknown id) is emitted on "order:updated" |
| Server.Store.ChatSend | server.ts:351-357 | nothing is stored or emitted iff the order id names no stored order; otherwise one chat row with the next id is appended and emitted on `chat:<orderId>` |
| Server.Store.SavePriceConfig | server.ts:313-318 | the table holds exactly the posted fares, which a later read returns |
| Server.StoreWithMerchant | server.ts:220-237 | in fresh tables the first sign-up is stored under id 1 and nothing else is stored or emitted |
| Server.StoreWithOneOrder | server.ts:287-297 | a merchant signs up in fresh tables under id 1, and an order naming that merchant is stored under id 1 and broadcast once |
| Server.SignUp | server.ts:220-237 | a valid sign-up with a free username adds one user with an id above all others, and every user found before is still found |
| Server.SignUpTwo | server.ts:220-237 | two sign-ups with fresh, different usernames both pass the rider foreign key, the second with the larger id |
| Server.AcceptOnlyOrder | server.ts:332-339 | a registered rider's accept of the only order stores that rider and the broadcast reports them |
| Server.StoreWithTwoRiders | server.ts:220-237 | after a merchant and two riders sign up and an order is created, both riders pass the rider foreign key and have distinct ids |
| Server.AcceptTwiceScenario | server.ts:332-339 | two registered riders accepting the same order: the order ends with the second, and each broadcast names the rider of its accept |
| RiderDashboard.ReplaceById | src/components/rider/RiderDashboard.tsx:170 | the updated list keeps its length and each position becomes the update iff its id matches |
| RiderDashboard.ReplaceByIdNoMatch | src/components/rider/RiderDashboard.tsx:170 | an update whose id is absent leaves the list unchanged |
| RiderDashboard.ReplaceByIdKeepsIds | src/components/rider/RiderDashboard.tsx:170 | ids stay at their positions, and the update is in the list when its id was |
| RiderDashboard.ReplaceByIdIdempotent | src/components/rider/RiderDashboard.tsx:170 | the same update applied twice equals applying it once |
| RiderDashboard.HallViewExactly | src/components/rider/RiderDashboard.tsx:221 | an order is in the hall view iff it is in the list with status pending or transferring |
| RiderDashboard.PendingCountVersusHall | src/components/rider/RiderDashboard.tsx:218-221 | the header count is at most the number of hall cards, and equal iff no listed order is transferring |
| RiderDashboard.MyDeliveriesExactly | src/components/rider/RiderDashboard.tsx:262 | an order is in "my deliveries" iff it is listed, the user is signed in, its rider is the user, and it is not delivered |
| RiderDashboard.EmptyStateIffNoneMine | src/components/rider/RiderDashboard.tsx:285 | the empty-state shows iff no listed order is one of the user's undelivered orders |
| RiderDashboard.NewOrderTopsHall | src/components/rider/RiderDashboard.tsx:167 | a new order heads the hall view when open for grabbing, and otherwise the hall view is unchanged |
| RiderDashboard.UpdateOutOfPoolLeavesHall | src/components/rider/RiderDashboard.tsx:169-171 | after an update to a status outside the pool, no hall card has that id |
| RiderDashboard.UpdateToMeShowsInMyDeliveries | src/components/rider/RiderDashboard.tsx:169-171 | an update giving a listed order to the user puts it in "my deliveries" |
| RiderDashboard.UpdateToOtherLeavesMyDeliveries | src/components/rider/RiderDashboard.tsx:169-171 | an update giving an order to another rider removes it from the user's deliveries |
| RiderDashboard.AfterTicksClamped | src/components/rider/RiderDashboard.tsx:77 | from t ≥ 0, n ticks leave max(t − n, 0) |
| RiderDashboard.UrgentExactlyAfter | src/components/rider/RiderDashboard.tsx:101 | from 1800 the countdown is below 300 (red) iff more than 1500 ticks have passed, and never negative |
| RiderDashboard.SecondsField | src/components/rider/RiderDashboard.tsx:84 | the padded seconds field is two digits whose value is the seconds |
| RiderDashboard.FormatTimeReadsBack | src/components/rider/RiderDashboard.tsx:81-85 | for s ≥ 0 the text is digits, a colon and two digits below 60, and minutes·60 + seconds read back gives s |
| RiderDashboard.Countdown.constructor | src/components/rider/RiderDashboard.tsx:74 | the countdown starts at 1800 seconds |
| RiderDashboard.Countdown.OnTick | src/components/rider/RiderDashboard.tsx:77 | one tick subtracts one while positive and otherwise sets 0 |
| RiderDashboard.Dashboard.constructor | src/components/rider/RiderDashboard.tsx:155-156 | the dashboard opens on the hall tab with an empty list and nothing sent |
| RiderDashboard.Dashboard.OnHallLoaded | src/components/rider/RiderDashboard.tsx:163 | the fetched hall rows replace the list |
| RiderDashboard.Dashboard.OnOrderNew | src/components/rider/RiderDashboard.tsx:167 | the new order goes first with the previous list after it, and the hall view changes accordingly |
| RiderDashboard.Dashboard.OnOrderUpdated | src/components/rider/RiderDashboard.tsx:169-171 | the list becomes the replace-by-id of the update and keeps its length; a missing payload crashes the application exactly when the list is non-empty, and the list is not updated |
| RiderDashboard.Dashboard.AcceptOrder | src/components/rider/RiderDashboard.tsx:182-186 | `order:accept` with the order and user id is sent when a socket exists, and the tab switches to "my deliveries" unconditionally |
| RiderDashboard.Dashboard.SelectTab | src/components/rider/RiderDashboard.tsx:297-305 | a bottom-bar button opens its tab |
| OrderPublish.DefaultOrderNumbersDistinct | src/components/merchant/OrderPublishModal.tsx:21 | dialogs opened at different milliseconds propose different order numbers |
| OrderPublish.SubmittedPriceMonotone | src/components/merchant/OrderPublishModal.tsx:41 | a longer or heavier delivery is never priced lower |
| OrderPublish.EstimateIsSubmittedPrice | src/components/merchant/OrderPublishModal.tsx:41 | the button's estimate equals the submitted price, which is the default fares 5 + 2·km + 1·kg |
| OrderPublish.Submit | src/components/merchant/OrderPublishModal.tsx:34-53 | nothing is sent iff recipient name or address is empty; a sent body carries the form, the merchant id, coordinates 39.9/116.4 and the default-fare price |
| OrderPublish.ResponseCallbacks | src/components/merchant/OrderPublishModal.tsx:56-60 | callbacks run iff the reply is ok, and then onSuccess with the order followed by onClose |
| OrderPublish.PublishModal.constructor | src/components/merchant/OrderPublishModal.tsx:20-29 | the form starts with "ORD-" + open time, empty texts, weight 1, distance 2.5, type instant |
| OrderPublish.PublishModal.SetCustomerName | src/components/merchant/OrderPublishModal.tsx:87 | only the recipient name changes |
| OrderPublish.PublishModal.SetCustomerPhone | src/components/merchant/OrderPublishModal.tsx:93 | only the recipient phone changes |
| OrderPublish.PublishModal.SetDestinationAddress | src/components/merchant/OrderPublishModal.tsx:104 | only the address changes |
| OrderPublish.PublishModal.SetWeight | src/components/merchant/OrderPublishModal.tsx:117 | only the weight changes |
| OrderPublish.PublishModal.SetDistance | src/components/merchant/OrderPublishModal.tsx:126 | only the distance changes |
| OrderPublish.PublishModal.SetRemarks | src/components/merchant/OrderPublishModal.tsx:138 | only the remarks change |
| OrderPublish.PublishModal.HandleSubmit | src/components/merchant/OrderPublishModal.tsx:34-53 | the submit's request, if any, is recorded, and every order the dialog sends is an instant one |
| OrderPublish.PublishModal.HandleResponse | src/components/merchant/OrderPublishModal.tsx:56-60 | the reply's callbacks are run |
| RiderRegistration.RegisterRequest | src/components/rider/RiderRegistration.tsx:52 | the body is the form's account fields with role "rider", which parses as the rider role |
| RiderRegistration.Wizard.constructor | src/components/rider/RiderRegistration.tsx:17-26 | the wizard starts at step 1, both photo flags false, empty fields, age 25 |
| RiderRegistration.Wizard.SetUsername | src/components/rider/RiderRegistration.tsx:96 | only the username changes, on step 1 |
| RiderRegistration.Wizard.SetPassword | src/components/rider/RiderRegistration.tsx:103 | only the password changes, on step 1 |
| RiderRegistration.Wizard.SetName | src/components/rider/RiderRegistration.tsx:144 | only the name changes, on step 2 |
| RiderRegistration.Wizard.SetPhone | src/components/rider/RiderRegistration.tsx:150 | only the phone changes, on step 2 |
| RiderRegistration.Wizard.NextFromAccount | src/components/rider/RiderRegistration.tsx:106-108 | step 2 is reached iff username and password are non-empty; otherwise the wizard stays at step 1 |
| RiderRegistration.Wizard.NextFromIdentity | src/components/rider/RiderRegistration.tsx:153-155 | step 3 is reached iff name and phone are non-empty; otherwise the wizard stays at step 2 |
| RiderRegistration.Wizard.PhotoConfirmed | src/components/rider/RiderRegistration.tsx:31-37 | the captured kind's flag becomes true and the other flag is unchanged |
| RiderRegistration.Wizard.Register | src/components/rider/RiderRegistration.tsx:42-53 | a request is made iff both photos are confirmed, and it carries the non-empty filled-in fields with role "rider" |
| RiderRegistration.Wizard.OnRegisterResponse | src/components/rider/RiderRegistration.tsx:55-57 | the wizard is left on an ok reply only |
| RiderRegistration.Wizard.Back | src/components/rider/RiderRegistration.tsx:71 | the back arrow leaves the wizard from any step |
| ChatWindow.Window.constructor | src/components/common/ChatWindow.tsx:22-23 | the window starts with no messages and an empty input |
| ChatWindow.Window.SetInput | src/components/common/ChatWindow.tsx:117 | typing sets the input |
| ChatWindow.Window.SendMessage | src/components/common/ChatWindow.tsx:46-55 | a blank input sends nothing and is kept; otherwise the untrimmed text is sent as a text message from the user for the order, and the input is cleared |
| ChatWindow.Window.Receive | src/components/common/ChatWindow.tsx:29-31 | a message on `chat:<orderId>` is appended at the end; other channels change nothing |
| ChatWindow.SendDisabledIffBlank | src/components/common/ChatWindow.tsx:124 | the send button is disabled iff the input is all whitespace |
| ChatWindow.OwnMessages | src/components/common/ChatWindow.tsx:91 | a message sent as the user is drawn as the user's own iff the user is signed in |
| Login.LoginDecision | src/components/auth/Login.tsx:36-46 | signed in iff the reply is ok and the role matches the selected one or the username is "test"; a non-ok or failed request never signs in |
| Login.LoginScreen.constructor | src/components/auth/Login.tsx:16-19 | the selected role starts as customer, with empty credentials and no wizard |
| Login.LoginScreen.SetUsername | src/components/auth/Login.tsx:74 | typing sets the username |
| Login.LoginScreen.SetPassword | src/components/auth/Login.tsx:86 | typing sets the password |
| Login.LoginScreen.SelectRole | src/components/auth/Login.tsx:97 | a role button selects its role |
| Login.LoginScreen.OpenRegister | src/components/auth/Login.tsx:115-117 | the sign-up wizard opens, only while the rider role is selected |
| Login.LoginScreen.CloseRegister | src/components/auth/Login.tsx:22 | the wizard's back closes it |
| Login.LoginScreen.SubmitLogin | src/components/auth/Login.tsx:28-34 | the request posts the credentials as typed, and the press captures them with the selected role |
| Login.LoginScreen.HandleResponse | src/components/auth/Login.tsx:28-51 | the user is signed in exactly when the decision on the captured role and username says so, and otherwise nothing changes |
| Login.RoleChangeWhileWaiting | src/components/auth/Login.tsx:39 | picking another role after pressing sign-in does not change how the reply is judged |
| Login.SignedInHasSelectedRole | src/components/auth/Login.tsx:39-43 | unless the username is "test", a signed-in user has the selected role |
| MerchantDashboard.DisplayBalance | src/components/merchant/MerchantDashboard.tsx:26 | the badge shows the user's balance, or 0 without a user |
| MerchantDashboard.StatusLabelIffPending | src/components/merchant/MerchantDashboard.tsx:121 | the badge reads "等待接单" iff the order is pending and "配送中" for every other status |
| MerchantDashboard.Dashboard.constructor | src/components/merchant/MerchantDashboard.tsx:26-28 | the page starts with the display balance, no dialog and no orders |
| MerchantDashboard.Dashboard.OpenPublish | src/components/merchant/MerchantDashboard.tsx:62 | the publish button opens the dialog |
| MerchantDashboard.Dashboard.ClosePublish | src/components/merchant/MerchantDashboard.tsx:133 | the dialog's close hides it |
| MerchantDashboard.Dashboard.OnPublishSuccess | src/components/merchant/MerchantDashboard.tsx:134 | the created order goes first, the earlier ones follow in order, and the placeholder is gone |
| Scenarios.PublishedOrderTopsRiderHall | server.ts:287-296 | a published order is stored pending at the default-fare price for the merchant, and its broadcast heads the riders' hall and adds one to the pending count |
| Scenarios.AcceptBroadcastOnDashboards | src/components/rider/RiderDashboard.tsx:169-171 | an accept broadcast removes the order from the hall, adds it to the accepting rider's deliveries and removes it from every other rider's |
| Scenarios.WizardChecksAreWeakerThanSchema | src/components/rider/RiderRegistration.tsx:108 | a form passing every wizard step can still be refused by the register schema (two-letter username) |
| Scenarios.WizardAccountsAreRiders | src/components/rider/RiderRegistration.tsx:52 | an account the wizard creates always has the rider role |
| Scenarios.SignInRestsOnServer | src/components/auth/Login.tsx:36-43 | a refused login never signs in; a sign-in means a stored user with that username and a matching password, of the selected role unless the username is "test" |
| Scenarios.ChatRoundTrip | src/components/common/ChatWindow.tsx:46-55 | in a store holding a merchant's order, a typed non-blank message is stored, broadcast and arrives once in that order's window, as typed and drawn as the user's own |
| Scenarios.UnknownAcceptCrashesDashboard | src/components/rider/RiderDashboard.tsx:169-171 | an accept for an unknown order id changes no order and crashes every dashboard listing an order |
| Scenarios.RunCallback | src/components/merchant/MerchantDashboard.tsx:133-134 | onSuccess prepends the order and onClose hides the dialog |
| Scenarios.PublishReply | src/components/merchant/OrderPublishModal.tsx:56-60 | an ok reply prepends the order and closes the dialog; any other reply changes nothing |

## Left out

- Socket.io transport is not modelled. The outbox stands in for every broadcast. That covers rooms and `join`, connection handling, and listener set-up and tear-down. It also covers delivery order between clients and a client missing an event.
- The location relay `location:update` is left out. It passes coordinates through unchanged.
- Express plumbing is left out: routing, helmet, the rate limiter, multer uploads, static files and error logging. The login's 500 reply for a database failure is not modelled.
- Seed users and `check_db.ts` are left out.
- The Android app, `MapView`, the admin and customer dashboards, and the report dialog are left out. They are OS wrappers or markup with no behaviour.
- bcrypt is not modelled. Hashing is a string parameter and comparison is a predicate parameter.
- Timestamps are integers supplied by the caller. SQLite's `CURRENT_TIMESTAMP` has one-second resolution and differs in format from the ISO deadline text. Rows created in the same second are left in any order by the hall sort. `SortNewestFirst` allows any order among ties.
- Text columns (role, status, type) hold only the enumeration values here. Values outside them, which SQLite's untyped TEXT columns would accept, are not modelled.
- A NULL order number, which SQLite's UNIQUE constraint lets repeat, is not modelled.
- An order with no merchant (NULL) is stored, and the hall's join leaves it out (`Tables.HallDropsOrphans`). SQLite errors other than the UNIQUE and foreign-key constraints are not modelled.
- JSON bodies with missing or non-string fields are not modelled. The same goes for `Number(...)` on form input, `NaN`, and `toFixed(2)` display rounding. Numbers are exact reals.
- zod counts string lengths in UTF-16 code units. The model counts characters. They differ for characters outside the Basic Multilingual Plane.
- The order detail page's selection (`selectedOrder`) is not modelled. Neither are the alerts or the "refresh" button, which has no handler.
- The race between the hall fetch and earlier socket events is not modelled. The fetch result simply replaces the list.
- Voice and photo chat messages are left out. The window's camera and microphone buttons have no handlers, so the client only sends text.
- Server.Store.Accept: the stored rider id is the one the client sent. Whether an undefined rider id binds as NULL is a property of the SQLite driver. The model takes it as `None`.
- RiderDashboard.Dashboard: once `crashed` is set, the application is unmounted and its socket listeners are removed. The model does not forbid later handler calls; it only records the crash.
