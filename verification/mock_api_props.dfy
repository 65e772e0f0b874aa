/** Properties of the simulated service that relate several operations, and its behaviour on
    the fixture data. */
module MockApiProperties {
  import opened Wrappers
  import opened Seqs
  import opened Types
  import opened MockData
  import opened MockApi

  // ---------------------------------------------------------------- the persisted user

  /** The persisted user is the one the last successful login stored; a failed login keeps the old one. */
  lemma CurrentUserAfterLogin(st: Store, email: string, password: string)
    ensures GetCurrentUser(Login(st, email, password).store) ==
      if email == DemoEmail && password == DemoPassword then Some(MockUser) else GetCurrentUser(st)
  {
  }

  /** After registering, the current user is the registered one and no accounts are left. */
  lemma CurrentUserAfterRegister(st: Store, name: string, email: string, password: string)
    ensures var r := Register(st, name, email, password);
      GetCurrentUser(r.store) == Some(r.result) && GetAccounts(r.store) == [] && r.result.billingInfo.companyName == ""
  {
  }

  /** Logging out clears the current user, and logging out twice is logging out once. */
  lemma CurrentUserAfterLogout(st: Store)
    ensures GetCurrentUser(Logout(st)) == None
    ensures Logout(Logout(st)) == Logout(st)
  {
  }

  // ---------------------------------------------------------------- profile merge

  /** An update without billing properties leaves the billing record as it was. */
  lemma MergeBillingNoChange(b: BillingInfo)
    ensures MergeBilling(b, NoBillingChange) == b
  {
  }

  /** Applying the same billing update twice is applying it once. */
  lemma MergeBillingIdempotent(b: BillingInfo, p: BillingPatch)
    ensures MergeBilling(MergeBilling(b, p), p) == MergeBilling(b, p)
  {
  }

  /** An update that names every billing property replaces the billing record by exactly those values. */
  lemma MergeBillingComplete(b: BillingInfo, c: BillingInfo)
    ensures MergeBilling(b, BillingPatch(Some(c.isCorporate), Some(c.companyName), Some(c.taxId),
      Some(c.taxOffice), Some(c.address), Some(c.city), Some(c.country))) == c
  {
  }

  /** The empty update is a no-op, whether or not a user is stored. */
  lemma EmptyUpdateIsNoOp(st: Store)
    ensures UpdateUserProfile(st, UserPatch(None, None, None, None, None)) == st
  {
    if st.authUser.Some? {
      MergeBillingNoChange(st.authUser.value.billingInfo);
    }
  }

  /** The profile page's update (new name, full billing record) changes exactly those two parts. */
  lemma ProfilePageUpdate(st: Store, u: User, name: string, c: BillingInfo)
    requires st.authUser == Some(u)
    ensures var p := BillingPatch(Some(c.isCorporate), Some(c.companyName), Some(c.taxId),
      Some(c.taxOffice), Some(c.address), Some(c.city), Some(c.country));
      GetCurrentUser(UpdateUserProfile(st, UserPatch(None, None, Some(name), None, Some(p)))) ==
        Some(u.(name := name, billingInfo := c))
  {
    MergeBillingComplete(u.billingInfo, c);
  }

  // ---------------------------------------------------------------- accounts

  /** Deleting keeps the surviving accounts in their order: an account that survives sits between
      the survivors of the accounts before it and the survivors of the accounts after it. */
  lemma DeleteAccountKeepsOrder(st: Store, id: string, before: seq<WhatsAppAccount>, a: WhatsAppAccount, after: seq<WhatsAppAccount>)
    requires st.accounts == before + [a] + after
    requires a.id != id
    ensures DeleteAccount(st, id).accounts ==
      DeleteAccount(st.(accounts := before), id).accounts + [a] + DeleteAccount(st.(accounts := after), id).accounts
  {
    assert st.accounts == (before + [a]) + after;
    FilterByKeyConcat(before + [a], after, AccountId, id, false);
    FilterByKeyConcat(before, [a], AccountId, id, false);
    assert FilterByKey([a], AccountId, id, false) == [a];
  }

  /** Webhook deletion is the same order-keeping filter: each webhook stays, between the survivors
      before and after it, exactly when its id differs. */
  lemma DeleteWebhookKeepsOrder(st: Store, id: string, before: seq<Webhook>, w: Webhook, after: seq<Webhook>)
    requires st.webhooks == before + [w] + after
    ensures DeleteWebhook(st, id).webhooks ==
      DeleteWebhook(st.(webhooks := before), id).webhooks + (if w.id != id then [w] else []) +
      DeleteWebhook(st.(webhooks := after), id).webhooks
  {
    FilterByKeySplit(before, w, after, WebhookId, id, false);
  }

  /** Template deletion is the same order-keeping filter. */
  lemma DeleteTemplateKeepsOrder(st: Store, id: string, before: seq<QuickReplyTemplate>, t: QuickReplyTemplate, after: seq<QuickReplyTemplate>)
    requires st.templates == before + [t] + after
    ensures DeleteTemplate(st, id).templates ==
      DeleteTemplate(st.(templates := before), id).templates + (if t.id != id then [t] else []) +
      DeleteTemplate(st.(templates := after), id).templates
  {
    FilterByKeySplit(before, t, after, TemplateId, id, false);
  }

  /** Deleting an id twice is deleting it once. */
  lemma DeleteAccountIdempotent(st: Store, id: string)
    ensures DeleteAccount(DeleteAccount(st, id), id) == DeleteAccount(st, id)
  {
    FilterByKeyIdempotent(st.accounts, AccountId, id, false);
  }

  // ---------------------------------------------------------------- chats

  /** The chats of an account keep the fixture order: each chat appears, between the selected
      chats before and after it, exactly when it belongs to the account. */
  lemma GetChatsKeepsOrder(st: Store, id: string, before: seq<ChatSession>, c: ChatSession, after: seq<ChatSession>)
    requires id != ""
    requires st.chats == before + [c] + after
    ensures GetChats(st, Some(id)) ==
      GetChats(st.(chats := before), Some(id)) + (if c.whatsappAccountId == id then [c] else []) +
      GetChats(st.(chats := after), Some(id))
  {
    FilterByKeySplit(before, c, after, ChatAccountId, id, true);
  }

  // ---------------------------------------------------------------- reads see writes

  /** Every read returns what the last write left: an added record is the last one read back, a
      login's user is the current user, and a deleted id is no longer read. */
  lemma ReadsSeeWrites(st: Store, id: string, url: string, name: string, shortcut: string, content: string,
                       phoneNumber: string, stamp: string, avatarStamp: string, now: string)
    ensures var added := AddWebhook(st, url, name, stamp, now);
      GetWebhooks(added.store) == GetWebhooks(st) + [added.result]
    ensures var added := AddTemplate(st, shortcut, content, stamp);
      GetTemplates(added.store) == GetTemplates(st) + [added.result]
    ensures var added := AddAccount(st, phoneNumber, name, stamp, avatarStamp, now);
      GetAccounts(added.store) == GetAccounts(st) + [added.result]
    ensures forall a :: a in GetAccounts(DeleteAccount(st, id)) ==> a.id != id
    ensures GetCurrentUser(Login(st, DemoEmail, DemoPassword).store) == Some(MockUser)
  {
    var w := AddWebhook(st, url, name, stamp, now);
    assert w.store.webhooks == st.webhooks + [w.result];
    var t := AddTemplate(st, shortcut, content, stamp);
    assert t.store.templates == st.templates + [t.result];
    var a := AddAccount(st, phoneNumber, name, stamp, avatarStamp, now);
    assert a.store.accounts == st.accounts + [a.result];
  }

  /** Setting a status keeps every id in place, so the first account with an id stays the first. */
  lemma {:induction false} SetFirstStatusKeepsIndex(accounts: seq<WhatsAppAccount>, id: string, x: string, status: AccountStatus)
    ensures IndexOfKey(SetFirstStatus(accounts, id, status), AccountId, x) == IndexOfKey(accounts, AccountId, x)
  {
    var r := SetFirstStatus(accounts, id, status);
    assert |r| == |accounts|;
    assert forall i :: 0 <= i < |r| ==> r[i].id == accounts[i].id;
    IndexOfKeyDependsOnKeysOnly(r, accounts, x);
  }

  lemma {:induction false} IndexOfKeyDependsOnKeysOnly(s: seq<WhatsAppAccount>, t: seq<WhatsAppAccount>, x: string)
    requires |s| == |t|
    requires forall i :: 0 <= i < |s| ==> s[i].id == t[i].id
    ensures IndexOfKey(s, AccountId, x) == IndexOfKey(t, AccountId, x)
  {
    if s != [] {
      IndexOfKeyDependsOnKeysOnly(s[1..], t[1..], x);
    }
  }

  /** Disconnecting twice is disconnecting once; likewise for reconnecting. */
  lemma StatusFlipsIdempotent(st: Store, id: string)
    ensures DisconnectAccount(DisconnectAccount(st, id), id) == DisconnectAccount(st, id)
    ensures ReconnectAccount(ReconnectAccount(st, id), id) == ReconnectAccount(st, id)
  {
    SetFirstStatusKeepsIndex(st.accounts, id, id, Disconnected);
    SetFirstStatusKeepsIndex(st.accounts, id, id, Connected);
  }

  /** After disconnecting, the first account with the id is DISCONNECTED; reconnecting it brings
      the store back to where it was when that account had been CONNECTED. */
  lemma ReconnectUndoesDisconnect(st: Store, id: string, k: nat)
    requires IndexOfKey(st.accounts, AccountId, id) == Some(k)
    requires st.accounts[k].status == Connected
    ensures DisconnectAccount(st, id).accounts[k].status == Disconnected
    ensures ReconnectAccount(DisconnectAccount(st, id), id) == st
  {
    SetFirstStatusKeepsIndex(st.accounts, id, id, Disconnected);
    var d := DisconnectAccount(st, id);
    assert d.accounts[k := d.accounts[k].(status := Connected)] == st.accounts;
  }

  // ---------------------------------------------------------------- the status state machine

  /** The service operations, each with its inputs (clock readings and ids included). */
  datatype Op =
    | LoginOp(email: string, password: string)
    | RegisterOp(name: string, email: string, password: string, isCorporate: bool, companyName: string, taxId: string)
    | LogoutOp
    | UpdateProfileOp(patch: UserPatch)
    | AddAccountOp(phoneNumber: string, accountName: string, stamp: string, avatarStamp: string, now: string)
    | DeleteAccountOp(id: string)
    | DisconnectOp(id: string)
    | ReconnectOp(id: string)
    | AddWebhookOp(url: string, hookName: string, stamp: string, now: string)
    | DeleteWebhookOp(id: string)
    | AddTemplateOp(shortcut: string, content: string, stamp: string)
    | DeleteTemplateOp(id: string)

  function Apply(st: Store, op: Op): Store {
    match op
    case LoginOp(e, p) => Login(st, e, p).store
    case RegisterOp(n, e, p, c, cn, t) => Register(st, n, e, p, c, cn, t).store
    case LogoutOp => Logout(st)
    case UpdateProfileOp(p) => UpdateUserProfile(st, p)
    case AddAccountOp(ph, n, s, a, now) => AddAccount(st, ph, n, s, a, now).store
    case DeleteAccountOp(id) => DeleteAccount(st, id)
    case DisconnectOp(id) => DisconnectAccount(st, id)
    case ReconnectOp(id) => ReconnectAccount(st, id)
    case AddWebhookOp(u, n, s, now) => AddWebhook(st, u, n, s, now).store
    case DeleteWebhookOp(id) => DeleteWebhook(st, id)
    case AddTemplateOp(sc, c, s) => AddTemplate(st, sc, c, s).store
    case DeleteTemplateOp(id) => DeleteTemplate(st, id)
  }

  function ApplyAll(st: Store, ops: seq<Op>): Store
    decreases |ops|
  {
    if ops == [] then st else ApplyAll(Apply(st, ops[0]), ops[1..])
  }

  /** Every account is CONNECTED or DISCONNECTED. */
  ghost predicate BinaryStatuses(st: Store) {
    forall i :: 0 <= i < |st.accounts| ==> st.accounts[i].status == Connected || st.accounts[i].status == Disconnected
  }

  lemma InitialStatusesBinary(now: string, hourAgo: string, persisted: Option<User>)
    ensures BinaryStatuses(InitialStore(now, hourAgo, persisted))
  {
  }

  /** No operation produces CONNECTING or QR_READY: both states are declared but unreachable. */
  lemma ApplyKeepsStatusesBinary(st: Store, op: Op)
    requires BinaryStatuses(st)
    ensures BinaryStatuses(Apply(st, op))
  {
    match op
    case DeleteAccountOp(id) =>
      var r := DeleteAccount(st, id);
      forall i | 0 <= i < |r.accounts|
        ensures r.accounts[i].status == Connected || r.accounts[i].status == Disconnected
      {
        assert r.accounts[i] in st.accounts;
      }
    case _ =>
  }

  lemma {:induction false} ReachableStatusesBinary(now: string, hourAgo: string, persisted: Option<User>, ops: seq<Op>)
    ensures BinaryStatuses(ApplyAll(InitialStore(now, hourAgo, persisted), ops))
  {
    InitialStatusesBinary(now, hourAgo, persisted);
    ApplyAllKeepsStatusesBinary(InitialStore(now, hourAgo, persisted), ops);
  }

  lemma {:induction false} ApplyAllKeepsStatusesBinary(st: Store, ops: seq<Op>)
    requires BinaryStatuses(st)
    ensures BinaryStatuses(ApplyAll(st, ops))
    decreases |ops|
  {
    if ops != [] {
      ApplyKeepsStatusesBinary(st, ops[0]);
      ApplyAllKeepsStatusesBinary(Apply(st, ops[0]), ops[1..]);
    }
  }

  /** No operation touches the chats, message histories or articles. */
  lemma ApplyKeepsStaticData(st: Store, op: Op)
    ensures Apply(st, op).chats == st.chats
    ensures Apply(st, op).messages == st.messages
    ensures Apply(st, op).blogPosts == st.blogPosts
  {
  }

  // ---------------------------------------------------------------- fixture scenarios

  /** Adding "+1 555 000 0000" / "Test" leaves exactly one new CONNECTED entry with those details at the end. */
  lemma AddAccountScenario(st: Store, stamp: string, avatarStamp: string, now: string)
    ensures var r := AddAccount(st, "+1 555 000 0000", "Test", stamp, avatarStamp, now);
      var accounts := GetAccounts(r.store);
      |accounts| == |st.accounts| + 1 &&
      accounts[|accounts| - 1].phoneNumber == "+1 555 000 0000" &&
      accounts[|accounts| - 1].name == "Test" &&
      accounts[|accounts| - 1].status == Connected
  {
  }

  /** On the fixture data, account "wa1" owns chats c1 and c3, in that order; no id means every chat. */
  lemma FixtureChats(now: string, hourAgo: string, persisted: Option<User>)
    ensures GetChats(InitialStore(now, hourAgo, persisted), Some("wa1")) == [MockChats[0], MockChats[2]]
    ensures GetChats(InitialStore(now, hourAgo, persisted), None) == MockChats
  {
    var chats := InitialStore(now, hourAgo, persisted).chats;
    assert chats == [MockChats[0]] + [MockChats[1]] + [MockChats[2]];
    FilterByKeyConcat([MockChats[0]] + [MockChats[1]], [MockChats[2]], ChatAccountId, "wa1", true);
    FilterByKeyConcat([MockChats[0]], [MockChats[1]], ChatAccountId, "wa1", true);
  }

  /** "c3" has no registered history, so its chat opens empty. */
  lemma FixtureMessages(now: string, hourAgo: string, persisted: Option<User>)
    ensures GetMessages(InitialStore(now, hourAgo, persisted), "c3") == []
  {
    assert "c3" !in RichMessages;
  }

  /** An unknown slug has no article; a known one finds its article. */
  lemma FixtureBlogPosts(now: string, hourAgo: string, persisted: Option<User>)
    ensures GetBlogPost(InitialStore(now, hourAgo, persisted), "nonexistent-slug") == None
    ensures GetBlogPost(InitialStore(now, hourAgo, persisted), "stop-wasting-money-sms") == Some(MockBlogPosts[1])
  {
    assert MockBlogPosts[1].slug == "stop-wasting-money-sms";
  }

  /** A forced draw delivers one text message from the contact; after unsubscribing no draw delivers. */
  lemma SubscriptionScenario(chatId: string, roll: real, stamp: string, time: string)
    requires 0.0 <= roll < 1.0
    ensures var m := Tick(SubscribeToChat(chatId), 0.9, stamp, time);
      m.Some? && m.value.sender == Them && m.value.kind == Text
    ensures Tick(Unsubscribe(SubscribeToChat(chatId)), roll, stamp, time).None?
  {
  }
}
