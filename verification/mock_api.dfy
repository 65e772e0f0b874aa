/** The simulated data-access service. Its state is one explicit `Store` value, and every
    asynchronous operation is one atomic transition from a store to a result and a new store;
    the artificial latency before each operation resolves is not modelled. */
module MockApi {
  import opened Wrappers
  import opened Seqs
  import opened Types
  import opened MockData

  /** The service's three mutable collections, its read-only data, and the user record
      persisted in local storage under the key "wa_auth" (`None` when the key is absent). */
  datatype Store = Store(
    accounts: seq<WhatsAppAccount>,
    webhooks: seq<Webhook>,
    templates: seq<QuickReplyTemplate>,
    chats: seq<ChatSession>,
    messages: map<string, seq<Message>>,
    blogPosts: seq<BlogPost>,
    authUser: Option<User>)

  /** What an operation resolves to, together with the store after it. */
  datatype Step<T> = Step(result: T, store: Store)

  const DemoEmail: string := "demo@example.com"
  const DemoPassword: string := "password"
  const InvalidCredentials: string := "Invalid credentials (try demo@example.com / password)"
  const DemoPairingCode: string := "ABC-123-XYZ"
  const AvatarBase: string := "https://picsum.photos/200?random="
  const IncomingText: string := "This is a real-time message via SSE! \U{1F680}"

  function AccountId(a: WhatsAppAccount): string { a.id }
  function WebhookId(w: Webhook): string { w.id }
  function TemplateId(t: QuickReplyTemplate): string { t.id }
  function ChatAccountId(c: ChatSession): string { c.whatsappAccountId }
  function PostSlug(p: BlogPost): string { p.slug }

  /** The service as constructed at page load: `now` and `hourAgo` are the clock readings used
      for the fixture accounts, `persisted` is whatever a previous visit left in local storage. */
  function InitialStore(now: string, hourAgo: string, persisted: Option<User>): (r: Store)
    ensures |r.accounts| == 2
    ensures r.accounts[0].id == "wa1" && r.accounts[0].status == Connected && r.accounts[0].lastActive == now
    ensures r.accounts[1].id == "wa2" && r.accounts[1].status == Disconnected && r.accounts[1].lastActive == hourAgo
    ensures |r.webhooks| == 1 && r.webhooks[0].id == "wh1" && r.webhooks[0].events == [MessageUpsert]
    ensures |r.templates| == 2 && r.templates[0].shortcut == "/address" && r.templates[1].shortcut == "/bank"
    ensures |r.chats| == 3 && |r.blogPosts| == 3
    ensures r.authUser == persisted
  {
    Store(InitialAccounts(now, hourAgo), MockWebhooks, MockTemplates, MockChats, RichMessages, MockBlogPosts, persisted)
  }

  // ---------------------------------------------------------------- authentication

  /** The hard-coded credential check. */
  function Login(st: Store, email: string, password: string): (r: Step<Result<User>>)
    ensures r.result.Ok? <==> email == DemoEmail && password == DemoPassword
    ensures r.result.Ok? ==> r.result.value == MockUser && r.store == st.(authUser := Some(MockUser))
    ensures r.result.Err? ==> r.result.error == InvalidCredentials && r.store == st
  {
    if email == DemoEmail && password == DemoPassword then Step(Ok(MockUser), st.(authUser := Some(MockUser)))
    else Step(Err(InvalidCredentials), st)
  }

  /** Registration never fails; the password is accepted and ignored. The new user is the demo
      user with the given name and e-mail, the plan renamed to the entry tier, and billing details
      taken from the form; the account list is emptied so that the dashboard shows onboarding. */
  function Register(st: Store, name: string, email: string, password: string,
                    isCorporate: bool := false, companyName: string := "", taxId: string := ""): (r: Step<User>)
    ensures r.result.name == name && r.result.email == email && r.result.id == MockUser.id
    ensures r.result.subscription.planName == Starter
    ensures r.result.subscription.(planName := MockUser.subscription.planName) == MockUser.subscription
    ensures r.result.billingInfo == BillingInfo(isCorporate, companyName, taxId, "", "", "", "")
    ensures r.store.accounts == [] && r.store.authUser == Some(r.result)
    ensures r.store.(accounts := st.accounts, authUser := st.authUser) == st
  {
    var user := MockUser.(
      name := name,
      email := email,
      subscription := MockUser.subscription.(planName := Starter),
      billingInfo := BillingInfo(isCorporate, companyName, taxId, "", "", "", ""));
    Step(user, st.(accounts := [], authUser := Some(user)))
  }

  /** Removes the persisted user; nothing else changes. */
  function Logout(st: Store): (r: Store)
    ensures r.authUser == None
    ensures r.(authUser := st.authUser) == st
  {
    st.(authUser := None)
  }

  /** The synchronous read of the persisted user. A stored record reads back as itself: every
      property of `User` survives the JSON round trip. */
  function GetCurrentUser(st: Store): (r: Option<User>)
    ensures r.None? <==> st.authUser.None?
    ensures r.Some? ==> st.authUser == Some(r.value)
  {
    st.authUser
  }

  // ---------------------------------------------------------------- profile updates

  /** The billing properties present in an update; `None` is a property left out of the object. */
  datatype BillingPatch = BillingPatch(
    isCorporate: Option<bool>,
    companyName: Option<string>,
    taxId: Option<string>,
    taxOffice: Option<string>,
    address: Option<string>,
    city: Option<string>,
    country: Option<string>)

  /** The top-level properties present in an update. */
  datatype UserPatch = UserPatch(
    id: Option<string>,
    email: Option<string>,
    name: Option<string>,
    subscription: Option<Subscription>,
    billingInfo: Option<BillingPatch>)

  const NoBillingChange: BillingPatch := BillingPatch(None, None, None, None, None, None, None)

  /** Object spread `{ ...old, ...patch }` on one property: a supplied value wins, otherwise the old one stays. */
  ghost predicate Overrides<T>(supplied: Option<T>, previous: T, merged: T) {
    if supplied.Some? then merged == supplied.value else merged == previous
  }

  /** The billing sub-record merged property by property. */
  function MergeBilling(b: BillingInfo, p: BillingPatch): (r: BillingInfo)
    ensures Overrides(p.isCorporate, b.isCorporate, r.isCorporate)
    ensures Overrides(p.companyName, b.companyName, r.companyName)
    ensures Overrides(p.taxId, b.taxId, r.taxId)
    ensures Overrides(p.taxOffice, b.taxOffice, r.taxOffice)
    ensures Overrides(p.address, b.address, r.address)
    ensures Overrides(p.city, b.city, r.city)
    ensures Overrides(p.country, b.country, r.country)
  {
    BillingInfo(
      p.isCorporate.GetOr(b.isCorporate), p.companyName.GetOr(b.companyName), p.taxId.GetOr(b.taxId),
      p.taxOffice.GetOr(b.taxOffice), p.address.GetOr(b.address), p.city.GetOr(b.city), p.country.GetOr(b.country))
  }

  /** The user record after an update: top-level properties are overwritten, `subscription` as a
      whole, and `billingInfo` is merged (an update without billing keeps it). */
  function ApplyPatch(u: User, p: UserPatch): (r: User)
    ensures Overrides(p.id, u.id, r.id)
    ensures Overrides(p.email, u.email, r.email)
    ensures Overrides(p.name, u.name, r.name)
    ensures Overrides(p.subscription, u.subscription, r.subscription)
    ensures r.billingInfo == MergeBilling(u.billingInfo, p.billingInfo.GetOr(NoBillingChange))
  {
    User(p.id.GetOr(u.id), p.email.GetOr(u.email), p.name.GetOr(u.name), p.subscription.GetOr(u.subscription),
         MergeBilling(u.billingInfo, p.billingInfo.GetOr(NoBillingChange)))
  }

  /** Merges an update into the persisted user; without a persisted user nothing happens. */
  function UpdateUserProfile(st: Store, patch: UserPatch): (r: Store)
    ensures st.authUser.None? ==> r == st
    ensures st.authUser.Some? ==> r == st.(authUser := Some(ApplyPatch(st.authUser.value, patch)))
  {
    match st.authUser
    case None => st
    case Some(u) => st.(authUser := Some(ApplyPatch(u, patch)))
  }

  // ---------------------------------------------------------------- accounts

  /** A copy of the account list. */
  function GetAccounts(st: Store): (r: seq<WhatsAppAccount>)
    ensures |r| == |st.accounts| && forall i :: 0 <= i < |r| ==> r[i] == st.accounts[i]
  {
    st.accounts
  }

  /** Appends a freshly paired account. `stamp` and `avatarStamp` are the two `Date.now()` readings
      used in its id and avatar address, `now` the ISO clock reading for `lastActive`. */
  function AddAccount(st: Store, phoneNumber: string, name: string, stamp: string, avatarStamp: string, now: string): (r: Step<WhatsAppAccount>)
    ensures r.result.id == "wa" + stamp && r.result.status == Connected
    ensures r.result.phoneNumber == phoneNumber && r.result.name == name && r.result.lastActive == now
    ensures r.result.avatarUrl == Some(AvatarBase + avatarStamp)
    ensures |r.store.accounts| == |st.accounts| + 1
    ensures r.store.accounts[..|st.accounts|] == st.accounts && r.store.accounts[|st.accounts|] == r.result
    ensures r.store.(accounts := st.accounts) == st
  {
    var account := WhatsAppAccount("wa" + stamp, phoneNumber, name, Connected, now, Some(AvatarBase + avatarStamp));
    Step(account, st.(accounts := st.accounts + [account]))
  }

  /** Removes every account with the given id. */
  function DeleteAccount(st: Store, id: string): (r: Store)
    ensures forall a :: a in r.accounts <==> a in st.accounts && a.id != id
    ensures (forall i :: 0 <= i < |st.accounts| ==> st.accounts[i].id != id) ==> r == st
    ensures r.(accounts := st.accounts) == st
  {
    st.(accounts := FilterByKey(st.accounts, AccountId, id, false))
  }

  /** Sets the status of the first account with the given id; the rest of the list is untouched. */
  function SetFirstStatus(accounts: seq<WhatsAppAccount>, id: string, status: AccountStatus): (r: seq<WhatsAppAccount>)
    ensures IndexOfKey(accounts, AccountId, id).None? ==> r == accounts
    ensures IndexOfKey(accounts, AccountId, id).Some? ==>
      var k := IndexOfKey(accounts, AccountId, id).value;
      r == accounts[k := accounts[k].(status := status)]
  {
    if accounts == [] then []
    else if accounts[0].id == id then [accounts[0].(status := status)] + accounts[1..]
    else [accounts[0]] + SetFirstStatus(accounts[1..], id, status)
  }

  /** Marks the first account with the given id as DISCONNECTED. */
  function DisconnectAccount(st: Store, id: string): (r: Store)
    ensures r.accounts == SetFirstStatus(st.accounts, id, Disconnected)
    ensures r.(accounts := st.accounts) == st
  {
    st.(accounts := SetFirstStatus(st.accounts, id, Disconnected))
  }

  /** Marks the first account with the given id as CONNECTED. */
  function ReconnectAccount(st: Store, id: string): (r: Store)
    ensures r.accounts == SetFirstStatus(st.accounts, id, Connected)
    ensures r.(accounts := st.accounts) == st
  {
    st.(accounts := SetFirstStatus(st.accounts, id, Connected))
  }

  /** The fixed demo pairing code; it does not depend on the phone number. */
  function GeneratePairingCode(phoneNumber: string): (r: string)
    ensures r == DemoPairingCode
  {
    DemoPairingCode
  }

  // ---------------------------------------------------------------- chats and messages

  /** The chats of one account, or every chat when no (or an empty, hence falsy) account id is given. */
  function GetChats(st: Store, accountId: Option<string>): (r: seq<ChatSession>)
    ensures accountId.None? || accountId == Some("") ==> r == st.chats
    ensures accountId.Some? && accountId.value != "" ==>
      forall c :: c in r <==> c in st.chats && c.whatsappAccountId == accountId.value
  {
    if accountId.Some? && accountId.value != "" then FilterByKey(st.chats, ChatAccountId, accountId.value, true)
    else st.chats
  }

  /** The history registered for a chat id, or the empty list. */
  function GetMessages(st: Store, chatId: string): (r: seq<Message>)
    ensures chatId in st.messages ==> r == st.messages[chatId]
    ensures chatId !in st.messages ==> r == []
  {
    if chatId in st.messages then st.messages[chatId] else []
  }

  /** A live subscription to one chat's simulated event stream. */
  datatype ChatSubscription = ChatSubscription(chatId: string, active: bool)

  function SubscribeToChat(chatId: string): (r: ChatSubscription)
    ensures r.chatId == chatId && r.active
  {
    ChatSubscription(chatId, true)
  }

  /** The function returned by `subscribeToChat`: it clears the interval. */
  function Unsubscribe(sub: ChatSubscription): (r: ChatSubscription)
    ensures !r.active && r.chatId == sub.chatId
  {
    sub.(active := false)
  }

  /** One tick of the five-second interval. `roll` is the `Math.random()` draw, `stamp` and `time`
      the clock readings for the id and the displayed time. A message is delivered exactly when
      the subscription is live and the draw exceeds 0.8. */
  function Tick(sub: ChatSubscription, roll: real, stamp: string, time: string): (r: Option<Message>)
    requires 0.0 <= roll < 1.0
    ensures r.Some? <==> sub.active && roll > 0.8
    ensures r.Some? ==> r.value == BasicMessage("inc_" + stamp, IncomingText, Text, time, Them, Read)
  {
    if sub.active && roll > 0.8 then Some(BasicMessage("inc_" + stamp, IncomingText, Text, time, Them, Read))
    else None
  }

  // ---------------------------------------------------------------- automations

  /** A copy of the webhook list. */
  function GetWebhooks(st: Store): (r: seq<Webhook>)
    ensures |r| == |st.webhooks| && forall i :: 0 <= i < |r| ==> r[i] == st.webhooks[i]
  {
    st.webhooks
  }

  /** Appends a webhook that is active and subscribed to `message.upsert` only. */
  function AddWebhook(st: Store, url: string, name: string, stamp: string, now: string): (r: Step<Webhook>)
    ensures r.result.id == "wh" + stamp && r.result.url == url && r.result.name == name
    ensures r.result.events == [MessageUpsert] && r.result.isActive && r.result.createdAt == now
    ensures |r.store.webhooks| == |st.webhooks| + 1
    ensures r.store.webhooks[..|st.webhooks|] == st.webhooks && r.store.webhooks[|st.webhooks|] == r.result
    ensures r.store.(webhooks := st.webhooks) == st
  {
    var hook := Webhook("wh" + stamp, url, name, [MessageUpsert], true, now);
    Step(hook, st.(webhooks := st.webhooks + [hook]))
  }

  /** Removes every webhook with the given id. */
  function DeleteWebhook(st: Store, id: string): (r: Store)
    ensures forall w :: w in r.webhooks <==> w in st.webhooks && w.id != id
    ensures (forall i :: 0 <= i < |st.webhooks| ==> st.webhooks[i].id != id) ==> r == st
    ensures r.(webhooks := st.webhooks) == st
  {
    st.(webhooks := FilterByKey(st.webhooks, WebhookId, id, false))
  }

  /** A copy of the template list. */
  function GetTemplates(st: Store): (r: seq<QuickReplyTemplate>)
    ensures |r| == |st.templates| && forall i :: 0 <= i < |r| ==> r[i] == st.templates[i]
  {
    st.templates
  }

  /** Appends a quick-reply template; the shortcut is stored as given. */
  function AddTemplate(st: Store, shortcut: string, content: string, stamp: string): (r: Step<QuickReplyTemplate>)
    ensures r.result == QuickReplyTemplate("t" + stamp, shortcut, content)
    ensures |r.store.templates| == |st.templates| + 1
    ensures r.store.templates[..|st.templates|] == st.templates && r.store.templates[|st.templates|] == r.result
    ensures r.store.(templates := st.templates) == st
  {
    var template := QuickReplyTemplate("t" + stamp, shortcut, content);
    Step(template, st.(templates := st.templates + [template]))
  }

  /** Removes every template with the given id. */
  function DeleteTemplate(st: Store, id: string): (r: Store)
    ensures forall t :: t in r.templates <==> t in st.templates && t.id != id
    ensures (forall i :: 0 <= i < |st.templates| ==> st.templates[i].id != id) ==> r == st
    ensures r.(templates := st.templates) == st
  {
    st.(templates := FilterByKey(st.templates, TemplateId, id, false))
  }

  // ---------------------------------------------------------------- blog

  /** A copy of the article list. */
  function GetBlogPosts(st: Store): (r: seq<BlogPost>)
    ensures |r| == |st.blogPosts| && forall i :: 0 <= i < |r| ==> r[i] == st.blogPosts[i]
  {
    st.blogPosts
  }

  /** The first article with the given slug; an unknown slug is an absence, not an error. */
  function GetBlogPost(st: Store, slug: string): (r: Option<BlogPost>)
    ensures r.None? <==> forall p :: p in st.blogPosts ==> p.slug != slug
    ensures r.Some? ==> r.value in st.blogPosts && r.value.slug == slug
    ensures r.Some? ==>
      exists k :: 0 <= k < |st.blogPosts| && st.blogPosts[k] == r.value && forall j :: 0 <= j < k ==> st.blogPosts[j].slug != slug
  {
    FindByKey(st.blogPosts, PostSlug, slug)
  }
}
