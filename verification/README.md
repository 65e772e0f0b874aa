# Whalink dashboard core in Dafny

Whalink is a browser dashboard for managing WhatsApp Business accounts. Users log in, pair accounts,
read chats, configure n8n/Zapier webhooks and quick-reply templates, and browse pricing and blog
pages. Its data layer is `MockApiService`, an in-memory mock back end with fixtures, a hard-coded
demo login and a "current user" slot kept in `localStorage`. A handful of pages add small
decision helpers on top of it.

This project models the following, as pure functions over immutable datatypes:

- the service;
- those helpers:
  - the translation lookup `t` with its English and path fallbacks;
  - the persisted language and the EN/TR switcher;
  - the pricing conversion;
  - the sidebar highlight rule and logout;
  - the toast list;
  - the chat composer;
  - the accounts page toggle and badges;
  - the automation forms;
- the enumerations and records of `types.ts`.

Each service call is one atomic step on a `Store`, in one of three shapes:

- a call that writes and returns a value (`login`, `register`, `addAccount`, `addWebhook`,
  `addTemplate`) gives `Step(result, store)`;
- a call that writes and returns nothing (`logout`, `updateUserProfile`, `deleteAccount`,
  `disconnectAccount`, `reconnectAccount`, `deleteWebhook`, `deleteTemplate`) gives the new `Store`;
- a read (`getCurrentUser`, the `get...` calls) is a function from the store to its result.

`generatePairingCode` and the chat subscription (`subscribeToChat` and its timer) do not touch the
store and are functions of their arguments.

The `Store` holds:

- the three mutable collections;
- the static chats, messages and blog posts;
- the persisted user, as an `Option<User>`.

Clock readings (`Date.now()`, `toISOString`, `toLocaleTimeString`), `Math.random()` draws and
`confirm()` answers are parameters of the operations that use them.

Modules follow the source files, plus three shared modules (`Wrappers`, `Seqs` and
`MockApiProperties`):

- `Wrappers` (Option/Result);
- `Seqs` (the key-based `filter`/`findIndex`/`find` the source uses throughout);
- `Types`;
- `MockData` (the fixtures);
- `MockApi`;
- `MockApiProperties` (cross-operation lemmas and a reachability invariant);
- `LanguageContext`, `LanguageSwitcher`, `Pricing`, `Layout`, `ToastContext`;
- `MessagesPage`, `AccountsPage`, `AutomationsPage`.

## Model

| member | source | states |
|---|---|---|
| Seqs.FilterByKey | services/mockApi.ts:302-305 | `filter` on a key: the result holds exactly the elements whose key test agrees with `keep`; it is never longer; when every element passes it is the input itself |
| Seqs.FilterByKeyConcat | services/mockApi.ts:358-361 | filtering distributes over concatenation, so surviving elements keep their relative order |
| Seqs.FilterByKeySplit | services/mockApi.ts:358-361 | filtering a list around one element gives the survivors before it, the element exactly when it passes, then the survivors after it |
| Seqs.FilterByKeyIdempotent | contexts/ToastContext.tsx:18-25 | filtering twice by the same id is filtering once |
| Seqs.IndexOfKey | services/mockApi.ts:307-317 | `findIndex` on a key: a found index holds the key and no earlier element does; none is found exactly when no element has the key |
| Seqs.FindByKey | services/mockApi.ts:386-389 | `find` on a key: a result is a member with the key, at the first such index; none exactly when no member has the key |
| MockApi.InitialStore | services/mockApi.ts:30-47 | the service starts with wa1 CONNECTED (active now) and wa2 DISCONNECTED (active an hour ago), the one n8n webhook on message.upsert, the /address and /bank templates, three chats, three articles, and whatever user was persisted |
| Types.AccountStatuses | types.ts:2-7 | exactly four statuses, every status is listed, the wire names are distinct |
| Types.ParseAccountStatus | types.ts:2-7 | a wire name parses to the status carrying it; parsing fails exactly for strings that name no status |
| Types.AccountStatusRoundTrip | types.ts:2-7 | parsing a status's wire name gives that status back |
| Types.PlanNames | types.ts:10 | exactly the three plan names Starter, Growth, Enterprise, distinct |
| Types.ParsePlanName | types.ts:10 | parsing succeeds exactly on the three plan names |
| Types.PlanNameRoundTrip | types.ts:10 | a plan name parses back to itself |
| Types.SubscriptionStatuses | types.ts:11 | exactly the three statuses active, past_due, canceled, distinct |
| Types.ParseSubscriptionStatus | types.ts:11 | parsing succeeds exactly on the three status strings |
| Types.SubscriptionStatusRoundTrip | types.ts:11 | a subscription status parses back to itself |
| Types.MessageTypes | types.ts:44 | exactly nine message types, all listed, with distinct names |
| Types.ParseMessageType | types.ts:44 | parsing succeeds exactly on the nine type names |
| Types.MessageTypeRoundTrip | types.ts:44 | a message type parses back to itself |
| Types.Senders | types.ts:53 | the sender is exactly 'me' or 'them' |
| Types.ParseSender | types.ts:53 | parsing succeeds exactly on 'me' and 'them' |
| Types.SenderRoundTrip | types.ts:53 | a sender parses back to itself |
| Types.DeliveryStatuses | types.ts:54 | exactly the four delivery states pending/sent/delivered/read |
| Types.ParseDeliveryStatus | types.ts:54 | parsing succeeds exactly on the four delivery-state names |
| Types.DeliveryStatusRoundTrip | types.ts:54 | a delivery state parses back to itself |
| Types.ButtonKinds | types.ts:72 | a button is exactly of kind 'reply' or 'url' |
| Types.ParseButtonKind | types.ts:72 | parsing succeeds exactly on 'reply' and 'url' |
| Types.ButtonKindRoundTrip | types.ts:72 | a button kind parses back to itself |
| Types.ChatPresences | types.ts:93 | a present chat status is one of online, "typing...", "recording audio..." or "", distinct |
| Types.ParseChatPresence | types.ts:93 | parsing succeeds exactly on those four strings, the empty string included |
| Types.ChatPresenceRoundTrip | types.ts:93 | a chat presence parses back to itself |
| Types.WebhookEvents | types.ts:107 | webhook events are exactly message.upsert, message.update and connection.update |
| Types.ParseWebhookEvent | types.ts:107 | parsing succeeds exactly on the three event names |
| Types.WebhookEventRoundTrip | types.ts:107 | a webhook event parses back to itself |
| Types.ToastTypes | types.ts:137 | a toast is exactly of type success, error or info |
| Types.ParseToastType | types.ts:137 | parsing succeeds exactly on the three toast type names |
| Types.ToastTypeRoundTrip | types.ts:137 | a toast type parses back to itself |
| MockApi.Login | services/mockApi.ts:232-238 | succeeds iff the pair is demo@example.com / password; success returns and persists the demo user; failure carries the credentials error and leaves the store unchanged |
| MockApi.Register | services/mockApi.ts:241-261 | always succeeds: given name and email, the demo user's id, plan renamed to Starter with the rest of the subscription kept; billing from the three inputs (defaults false, "", "") with the other four fields empty; accounts emptied, the new user persisted, nothing else changed |
| MockApi.Logout | services/mockApi.ts:264-266 | clears the persisted user and changes nothing else |
| MockApi.GetCurrentUser | services/mockApi.ts:268-271 | there is a current user exactly when one is persisted, and it is that user |
| MockApi.MergeBilling | services/mockApi.ts:278 | each billing field is the supplied value when present, the previous one otherwise |
| MockApi.ApplyPatch | services/mockApi.ts:278 | top-level fields are overwritten when supplied; billingInfo is merged field by field, an absent billing patch changing nothing |
| MockApi.UpdateUserProfile | services/mockApi.ts:273-281 | no-op without a persisted user; otherwise only the persisted user changes, to the patched record |
| MockApi.GetAccounts | services/mockApi.ts:283-286 | a copy of the stored accounts: same length, same accounts in the same order |
| MockApi.AddAccount | services/mockApi.ts:288-300 | exactly one account appended at the end, CONNECTED, with the given phone and name, id "wa"+stamp and the picsum avatar; prior accounts and every other collection unchanged |
| MockApi.DeleteAccount | services/mockApi.ts:302-305 | the remaining accounts are exactly those with another id; an absent id is a no-op; nothing but the accounts changes |
| MockApi.SetFirstStatus | services/mockApi.ts:307-317 | only the first account with the id has its status replaced; without such an account the list is unchanged |
| MockApi.DisconnectAccount | services/mockApi.ts:307-311 | the first account with the id becomes DISCONNECTED; nothing outside the account list changes |
| MockApi.ReconnectAccount | services/mockApi.ts:313-317 | the first account with the id becomes CONNECTED; nothing outside the account list changes |
| MockApi.GeneratePairingCode | services/mockApi.ts:319-322 | the code is the fixed "ABC-123-XYZ" whatever the phone number |
| MockApi.GetChats | services/mockApi.ts:324-330 | a non-empty account id selects exactly the chats of that account; no id or the empty id returns every chat |
| MockApi.GetMessages | services/mockApi.ts:332-335 | the history registered for the chat, or the empty list for an unknown chat |
| MockApi.SubscribeToChat | services/mockApi.ts:394-395 | a new subscription is active on the given chat |
| MockApi.Unsubscribe | services/mockApi.ts:410-412 | the returned cleanup deactivates the subscription |
| MockApi.Tick | services/mockApi.ts:395-408 | a tick delivers a message iff the subscription is active and the draw exceeds 0.8; the message is the fixed incoming text, from 'them', read, of type text, with id "inc_"+stamp |
| MockApi.AddWebhook | services/mockApi.ts:344-356 | exactly one webhook appended at the end, active, with events exactly [message.upsert], id "wh"+stamp; all else unchanged |
| MockApi.GetWebhooks | services/mockApi.ts:339-342 | a copy of the stored webhooks, element by element |
| MockApi.DeleteWebhook | services/mockApi.ts:358-361 | the remaining webhooks are exactly those with another id; absent id is a no-op; nothing else changes |
| MockApi.GetTemplates | services/mockApi.ts:363-366 | a copy of the stored templates, element by element |
| MockApi.AddTemplate | services/mockApi.ts:368-373 | exactly one template appended at the end, with the given shortcut and content and id "t"+stamp; all else unchanged |
| MockApi.DeleteTemplate | services/mockApi.ts:375-378 | the remaining templates are exactly those with another id; absent id is a no-op; nothing else changes |
| MockApi.GetBlogPosts | services/mockApi.ts:381-384 | a copy of the fixture articles, element by element |
| MockApi.GetBlogPost | services/mockApi.ts:386-389 | the first post with the slug; none exactly when no post has it |
| MockApiProperties.CurrentUserAfterLogin | services/mockApi.ts:232-238 | after a login, the current user is the demo user on success and the previous one on failure |
| MockApiProperties.CurrentUserAfterRegister | services/mockApi.ts:241-271 | after registering, the current user is the user returned, no accounts remain, and the company name defaults to empty |
| MockApiProperties.CurrentUserAfterLogout | services/mockApi.ts:264-271 | after logout there is no current user; logging out twice is logging out once |
| MockApiProperties.MergeBillingNoChange | services/mockApi.ts:278 | merging a billing patch with no fields leaves billing unchanged |
| MockApiProperties.MergeBillingIdempotent | services/mockApi.ts:278 | applying the same billing patch twice is applying it once |
| MockApiProperties.MergeBillingComplete | services/mockApi.ts:278 | a billing patch that supplies every field replaces the billing record by the supplied one |
| MockApiProperties.EmptyUpdateIsNoOp | services/mockApi.ts:273-281 | an update that supplies nothing leaves the store unchanged |
| MockApiProperties.ProfilePageUpdate | services/mockApi.ts:273-281 | the profile page's update (name plus full billing) yields the user with that name and billing and everything else kept |
| MockApiProperties.DeleteAccountKeepsOrder | services/mockApi.ts:302-305 | deleting an id drops exactly its entries and keeps the others in their order |
| MockApiProperties.DeleteWebhookKeepsOrder | services/mockApi.ts:358-361 | webhook deletion keeps each webhook with another id in place between the survivors before and after it, duplicates included, and drops exactly those with the id |
| MockApiProperties.DeleteTemplateKeepsOrder | services/mockApi.ts:375-378 | template deletion keeps each template with another id in place between the survivors before and after it, duplicates included, and drops exactly those with the id |
| MockApiProperties.DeleteAccountIdempotent | services/mockApi.ts:302-305 | deleting the same id twice is deleting it once |
| MockApiProperties.SetFirstStatusKeepsIndex | services/mockApi.ts:307-317 | a status flip never moves the first index of any id |
| MockApiProperties.StatusFlipsIdempotent | services/mockApi.ts:307-317 | disconnecting twice is disconnecting once; likewise reconnecting |
| MockApiProperties.ReconnectUndoesDisconnect | services/mockApi.ts:307-317 | reconnecting a CONNECTED account after disconnecting it restores the store exactly |
| MockApiProperties.GetChatsKeepsOrder | services/mockApi.ts:324-330 | for every store and non-empty account id, the selected chats are the account's chats in their stored order: each chat appears between the selections before and after it exactly when it belongs to the account |
| MockApiProperties.ReadsSeeWrites | services/mockApi.ts:232-389 | for any store and any arguments, each read returns what the last write left: an added webhook, template or account is read back last, after the earlier ones unchanged; a deleted account id is no longer read; after the demo login the current user is the demo user |
| MockApiProperties.InitialStatusesBinary | services/mockApi.ts:30-47 | the initial accounts are all CONNECTED or DISCONNECTED |
| MockApiProperties.ApplyKeepsStatusesBinary | services/mockApi.ts:232-389 | every service operation keeps every stored account CONNECTED or DISCONNECTED |
| MockApiProperties.ReachableStatusesBinary | services/mockApi.ts:226-389 | in every store reachable from construction, no account is CONNECTING or QR_READY |
| MockApiProperties.ApplyAllKeepsStatusesBinary | services/mockApi.ts:232-389 | the status invariant holds along any sequence of operations |
| MockApiProperties.ApplyKeepsStaticData | services/mockApi.ts:324-389 | no operation changes the chats, the messages or the blog posts |
| MockApiProperties.AddAccountScenario | services/mockApi.ts:288-300 | a concrete add appends one CONNECTED account with the given phone and name |
| MockApiProperties.FixtureChats | services/mockApi.ts:49-53 | on the fixtures, wa1's chats are c1 then c3, in that order, and no id gives every chat |
| MockApiProperties.FixtureMessages | services/mockApi.ts:55-139 | on the fixtures, c3 has no registered history and reads as the empty list |
| MockApiProperties.FixtureBlogPosts | services/mockApi.ts:150-224 | an unknown slug has no post and a known slug finds its post |
| MockApiProperties.SubscriptionScenario | services/mockApi.ts:394-413 | an active subscription drawing 0.9 delivers the incoming message; a cancelled one never delivers |
| LanguageContext.ParseLang | contexts/LanguageContext.tsx:15-19 | a stored value parses to the language with that code; parsing fails exactly on values that are no language code |
| LanguageContext.Split | contexts/LanguageContext.tsx:28 | `split('.')` gives at least one segment, none containing a dot |
| LanguageContext.JoinSplit | contexts/LanguageContext.tsx:28 | joining the segments of a path with dots gives the path back |
| LanguageContext.SplitJoin | contexts/LanguageContext.tsx:28 | splitting a dot-join of dot-free segments gives the segments back |
| LanguageContext.FallbackWalk | contexts/LanguageContext.tsx:33-34 | the optional-chaining walk is undefined from undefined, and otherwise resolves the full path |
| LanguageContext.Fallback | contexts/LanguageContext.tsx:31-39 | once a segment is missing: the English value at the full path when it exists and is truthy, otherwise the path itself |
| LanguageContext.Walk | contexts/LanguageContext.tsx:29-43 | the loop returns the resolved value when every remaining segment is defined, otherwise the fallback answer |
| LanguageContext.T | contexts/LanguageContext.tsx:27-44 | the value at the path in the current table when it resolves; else the English value when present and truthy; else the path itself |
| LanguageContext.TierCardLookup | pages/Pricing.tsx:25-26 | `pricing.tiers.<id>` returns the whole tier sub-table |
| LanguageContext.Mount | contexts/LanguageContext.tsx:15-20 | the language is the stored one when whalink_lang holds 'en' or 'tr', and 'en' when the key is absent, empty or holds anything else |
| LanguageContext.SetLanguage | contexts/LanguageContext.tsx:22-25 | switches the language and stores its code under whalink_lang, every other key unchanged |
| LanguageContext.SetLanguageSurvivesReload | contexts/LanguageContext.tsx:15-25 | mounting on the storage a language change left behind restores that language |
| LanguageSwitcher.Toggle | components/LanguageSwitcher.tsx:8-10 | 'tr' goes to 'en' and 'en' to 'tr' |
| LanguageSwitcher.Label | components/LanguageSwitcher.tsx:17-27 | the label is "TR" iff the language is 'tr', otherwise "EN" |
| LanguageSwitcher.ToggleInvolution | components/LanguageSwitcher.tsx:8-10 | toggling twice is the identity, and a toggle always changes the language |
| LanguageSwitcher.Click | components/LanguageSwitcher.tsx:8-10 | a click switches to the other language and persists it |
| LanguageSwitcher.ClickTwice | components/LanguageSwitcher.tsx:8-10 | two clicks restore the language and persist it again |
| Pricing.GetPrice | pages/Pricing.tsx:19-23 | monthly: the base price; yearly: the integer nearest to 10*base/12, halves rounding up |
| Pricing.TierId | pages/Pricing.tsx:118-121 | each card id is a single non-empty key segment (no dot) |
| Pricing.TierIdInjective | pages/Pricing.tsx:118-121 | the four cards use four distinct ids |
| Pricing.TierCardReadsItsTable | pages/Pricing.tsx:25-26 | each card's lookup `pricing.tiers.<id>` returns its tier's whole sub-table |
| Pricing.BasePrice | pages/Pricing.tsx:12-17 | the monthly base prices 12, 35, 89 and 249 for starter, professional, business and corporate |
| Pricing.YearlyBilledTotal | pages/Pricing.tsx:54-58 | the yearly bill is twelve months' price less two free months |
| Pricing.YearlyNeverExceedsMonthly | pages/Pricing.tsx:19-23 | for a non-negative base the yearly effective monthly price never exceeds the monthly price |
| Pricing.YearlyPriceMatchesTotal | pages/Pricing.tsx:19-23 | twelve times the shown yearly price is within 6 of the billed yearly total |
| Pricing.YearlyTable | pages/Pricing.tsx:12-22 | the table 12/35/89/249 shows 10/29/74/208 yearly; 249 sits exactly on a half |
| Layout.MenuItems | components/Layout.tsx:21-27 | five entries, the first is the dashboard, every path begins with /dashboard, paths are distinct |
| Layout.IsActive | components/Layout.tsx:30-32 | the dashboard entry is active iff the pathname is exactly /dashboard; any other entry iff its path is a string prefix of the pathname |
| Layout.AccountsPageHighlight | components/Layout.tsx:21-32 | on /dashboard/accounts only the accounts entry is active, the dashboard entry is not |
| Layout.PrefixIsNotSegmentwise | components/Layout.tsx:32 | /dashboard/accounts-archive still highlights the accounts entry |
| Layout.AtMostOneActive | components/Layout.tsx:21-32 | no pathname highlights two entries |
| Layout.HandleLogout | components/Layout.tsx:16-19 | the stored user is cleared, nothing else changes, and the route is /login |
| ToastContext.ShowToast | contexts/ToastContext.tsx:15-17 | exactly one toast appended at the end with the given id, message and type; earlier toasts unchanged |
| ToastContext.RemoveToast | contexts/ToastContext.tsx:23-25 | the remaining toasts are exactly those with another id; an absent id is a no-op |
| ToastContext.RemoveToastKeepsOrder | contexts/ToastContext.tsx:23-25 | removal keeps each toast with another id in place between the survivors before and after it, duplicates included |
| ToastContext.ShowToastDefaultsToInfo | contexts/ToastContext.tsx:15 | omitting the type gives an info toast |
| ToastContext.DismissUndoesShow | contexts/ToastContext.tsx:15-20 | the timed dismissal of a freshly shown toast restores the previous list |
| ToastContext.RemoveToastIdempotent | contexts/ToastContext.tsx:18-25 | removing an already removed toast is a no-op |
| MessagesPage.TrimStart | pages/Messages.tsx:86 | the result is a suffix of the draft, the part cut off is blank, and the result does not start with whitespace |
| MessagesPage.TrimEnd | pages/Messages.tsx:86 | the result is a prefix of the draft, the part cut off is blank, and the result does not end with whitespace |
| MessagesPage.Trim | pages/Messages.tsx:86 | `!draft.trim()` holds exactly for empty or whitespace-only drafts; a non-empty result neither starts nor ends with whitespace |
| MessagesPage.SelectAccount | pages/Messages.tsx:40-52 | choosing a different non-empty account clears the open chat and loads that account's chats; an unchanged or empty id reloads nothing |
| MessagesPage.LoadAccounts | pages/Messages.tsx:28-37 | the accounts are loaded; when there is one, the view is exactly the view after selecting the first account (its chats loaded, the open chat closed when the id changes); with none nothing else changes; messages and draft are kept |
| MessagesPage.FirstLoadSelectsFirstAccount | pages/Messages.tsx:15-37 | from the page's initial state, loading a non-empty account list selects the first account, shows its chats, opens no chat and leaves messages and draft empty |
| MessagesPage.OpenChat | pages/Messages.tsx:55-68 | clicking a different chat opens it and loads its history; only the open chat and the messages change |
| MessagesPage.SwitchingAccountClosesChat | pages/Messages.tsx:40-52 | whichever chat is open, switching to another non-empty account closes it and shows that account's chats |
| MessagesPage.SelectionIdempotent | pages/Messages.tsx:40-68 | selecting the same account again, or clicking the open chat again, changes nothing |
| MessagesPage.CloseChat | pages/Messages.tsx:324 | the back button closes the chat and changes nothing else |
| MessagesPage.ReceiveIncoming | pages/Messages.tsx:60-62 | an incoming message is appended at the end, existing messages kept in order |
| MessagesPage.HandleSend | pages/Messages.tsx:84-102 | a blank draft changes nothing; otherwise exactly one message is appended (the untrimmed draft, from 'me', sent, text) and the draft is cleared |
| MessagesPage.HandleKeyDown | pages/Messages.tsx:104-109 | Enter without Shift is exactly a send: for a non-blank draft the draft is appended as a sent text message from 'me' and cleared; every other key, Shift+Enter included, changes nothing |
| MessagesPage.MessageStatusIcon | pages/Messages.tsx:116-121 | read, delivered and sent map to their own ticks, and pending alone to the clock |
| MessagesPage.StatusIconInjective | pages/Messages.tsx:116-121 | distinct delivery states show distinct icons |
| AccountsPage.Refresh | pages/Accounts.tsx:12-19 | the page shows exactly the service's account list |
| AccountsPage.HandleToggleConnection | pages/Accounts.tsx:32-39 | a CONNECTED card disconnects, a card in any other state reconnects; the list is then re-read |
| AccountsPage.HandleAccountAdded | pages/Accounts.tsx:41-44 | after the modal adds an account the page shows the service's list |
| AccountsPage.AddedAccountShownLast | pages/Accounts.tsx:41-44 | the newly added account is the last card shown, after the earlier accounts in their order |
| AccountsPage.HandleDelete | pages/Accounts.tsx:25-30 | only a true confirmation deletes: the cards shown are then exactly the accounts with another id; otherwise nothing changes |
| AccountsPage.HandleDeleteIdempotent | pages/Accounts.tsx:25-30 | confirming the same delete twice is confirming it once; declining afterwards changes nothing |
| AccountsPage.HandleDeleteKeepsOrder | pages/Accounts.tsx:25-30 | after a confirmed delete the remaining cards keep their order |
| AccountsPage.ToggleFromNonConnected | pages/Accounts.tsx:32-39 | a toggle on a card that is not CONNECTED leaves that account CONNECTED |
| AccountsPage.ToggleTwiceFromConnected | pages/Accounts.tsx:32-39 | two toggles starting from CONNECTED restore the store, so the account is CONNECTED again |
| AccountsPage.StatusColour | pages/Accounts.tsx:46-53 | CONNECTED green, DISCONNECTED red, CONNECTING yellow, and exactly the remaining status grey |
| AccountsPage.GetStatusColor | pages/Accounts.tsx:46-53 | the green, red and yellow class strings for CONNECTED, DISCONNECTED and CONNECTING; the grey default for QR_READY |
| AccountsPage.ToggleLabel | pages/Accounts.tsx:100-105 | "Disconnect" iff CONNECTED, "Connect" otherwise |
| AutomationsPage.Mount | pages/Automations.tsx:8-32 | first render: webhooks tab, both forms closed and empty, both lists loaded |
| AutomationsPage.LoadData | pages/Automations.tsx:22-28 | both lists are re-read from the service and nothing else changes |
| AutomationsPage.HandleAddWebhook | pages/Automations.tsx:34-41 | nothing happens unless url and name are both non-empty; then the webhook is added, the fields reset to "", the form hidden and the lists re-read |
| AutomationsPage.HandleAddTemplate | pages/Automations.tsx:43-50 | nothing happens unless shortcut and content are both non-empty; then the template is added as typed, the fields reset, the form hidden and the lists re-read |
| AutomationsPage.HandleDeleteWebhook | pages/Automations.tsx:52-57 | only a true confirmation deletes: the list shown is then exactly the webhooks with another id, and the form, the templates and the tab are untouched; otherwise nothing changes |
| AutomationsPage.HandleDeleteTemplate | pages/Automations.tsx:59-64 | only a true confirmation deletes: the list shown is then exactly the templates with another id, and the form, the webhooks and the tab are untouched; otherwise nothing changes |
| AutomationsPage.ShortcutWithoutSlashAccepted | pages/Automations.tsx:44 | every non-empty shortcut that does not start with "/" is accepted and stored exactly as typed |
| AutomationsPage.DeleteUndoesAddWebhook | pages/Automations.tsx:34-57 | confirming the deletion of a webhook just added with a fresh id restores the service state |
| AutomationsPage.DeleteUndoesAddTemplate | pages/Automations.tsx:43-64 | confirming the deletion of a template just added with a fresh id restores the service state |

## Left out

- Latency: the `delay` calls and the page timers are not modelled, so interleavings of pending calls are not either. Every call is one atomic step.
- The `subscribeToChat` timer: the `setInterval` schedule itself is not modelled. The `Math.random()` draw is a parameter in [0, 1); its distribution is not modelled.
- `localStorage` and JSON:
  - the persisted user is an `Option<User>` field, and the language storage is a string map;
  - JSON round-tripping is taken to be the identity on these records.
- Clocks: `Date.now()` ids and timestamps are string parameters. Their uniqueness is not guaranteed by the source, so deletes keep "remove every match" and status flips keep "first match" semantics.
- `confirm()` dialogs are a boolean parameter.
- Property lookup on plain objects: keys that name `Object.prototype` members (`RICH_MESSAGES["constructor"]`, a translation segment "toString") are not modelled. Neither is indexing into a string leaf of the translation table.
- LanguageContext.Mount: a stored value other than 'en' or 'tr' keeps English. The source adopts any non-empty stored string as the language, after which lookups read an undefined table.
- LanguageContext.T: the `console.warn` on a missing translation is not modelled.
- MockApi.ApplyPatch: two update shapes are not modelled.
  - A `Partial<BillingInfo>` passed at the top level copies its stray keys into the user object; the model only takes `Partial<User>`.
  - A property set explicitly to `undefined` overwrites in a JS spread; the model treats it as absent.
- MockApi.GetChats: its contract states which chats are selected. Their order is stated for all inputs by MockApiProperties.GetChatsKeepsOrder, not by the contract itself.
- MockApi.Register: the password is accepted and ignored, as in the source.
- `AuthState` (types.ts:96-99) is not used by the service and is not modelled.
- The blog post bodies (HTML strings) are left empty in the fixtures; only ids, slugs and metadata matter to `getBlogPost`.
- Real values: latitude/longitude are `real`. The price base is an integer, as in every tier of the table.
- `AddAccountModal`: only forwards to `addAccount`/`generatePairingCode` from timers, which are modelled.
- Rendering and form plumbing are not modelled: CSS classes beyond the status badges, icons, the attach menu, textarea resizing, scrolling, routing and the public pages.
- MessagesPage.ReceiveIncoming: the view does not record which chat is subscribed. The model therefore allows an incoming message to be appended while no chat is open, which the source rules out: it only subscribes while a chat is open and unsubscribes on change.
- MessagesPage.HandleSend: `setMessages([...messages, msg])` reads the render-time `messages`. An incoming message delivered between render and send would be lost; the model applies events in order.

Notes on the code's behaviour:

- `subscribeToChat`'s comment says 10%, but the test `Math.random() > 0.8` fires with probability 20%. `MockApi.Tick` models the test.
- `register` renames the plan to Starter but keeps the demo subscription's Growth price and feature list. `MockApi.Register` states exactly that.
- `getChats` without an id returns the fixture array itself rather than a copy; the model's values are immutable, so this cannot be observed.
