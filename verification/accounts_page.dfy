/** The accounts manager: connect/disconnect toggle, confirm-gated delete, status colours and labels. */
module AccountsPage {
  import opened Wrappers
  import opened Seqs
  import opened Types
  import opened MockApi
  import MockApiProperties

  /** The service state and the list the page currently shows. */
  datatype Screen = Screen(store: Store, shown: seq<WhatsAppAccount>)

  /** `fetchAccounts`: the page re-reads the account list. */
  function Refresh(st: Store): (r: Screen)
    ensures r.store == st && r.shown == GetAccounts(st)
  {
    Screen(st, GetAccounts(st))
  }

  /** The toggle button, acting on the card's (possibly stale) copy of the account: a CONNECTED
      account is disconnected, an account in any other state is reconnected; the list is then re-read. */
  function HandleToggleConnection(sc: Screen, account: WhatsAppAccount): (r: Screen)
    ensures account.status == Connected ==> r.store == DisconnectAccount(sc.store, account.id)
    ensures account.status != Connected ==> r.store == ReconnectAccount(sc.store, account.id)
    ensures r.shown == GetAccounts(r.store)
  {
    if account.status == Connected then Refresh(DisconnectAccount(sc.store, account.id))
    else Refresh(ReconnectAccount(sc.store, account.id))
  }

  /** `handleAccountAdded`: once the pairing modal has added an account, the list is re-read and
      the new account is shown last. */
  function HandleAccountAdded(added: Step<WhatsAppAccount>): (r: Screen)
    ensures r.store == added.store && r.shown == added.store.accounts
  {
    Refresh(added.store)
  }

  /** An account added through the service appears as the last card after the refresh. */
  lemma AddedAccountShownLast(st: Store, phoneNumber: string, name: string, stamp: string, avatarStamp: string, now: string)
    ensures var added := AddAccount(st, phoneNumber, name, stamp, avatarStamp, now);
      var r := HandleAccountAdded(added);
      |r.shown| == |st.accounts| + 1 && r.shown[|st.accounts|] == added.result && r.shown[..|st.accounts|] == st.accounts
  {
  }

  /** The delete button: the account is removed only when the confirmation dialog returns true. */
  function HandleDelete(sc: Screen, id: string, confirmed: bool): (r: Screen)
    ensures confirmed ==> r.store == DeleteAccount(sc.store, id) && r.shown == r.store.accounts
    ensures confirmed ==> forall a :: a in r.shown <==> a in sc.store.accounts && a.id != id
    ensures !confirmed ==> r == sc
  {
    if confirmed then Refresh(DeleteAccount(sc.store, id)) else sc
  }

  /** Confirming the same delete twice is confirming it once, and a declined dialog changes nothing. */
  lemma HandleDeleteIdempotent(sc: Screen, id: string)
    ensures HandleDelete(HandleDelete(sc, id, true), id, true) == HandleDelete(sc, id, true)
    ensures HandleDelete(HandleDelete(sc, id, true), id, false) == HandleDelete(sc, id, true)
  {
    MockApiProperties.DeleteAccountIdempotent(sc.store, id);
  }

  /** After a confirmed delete the remaining cards keep their order: a card with another id stays
      between the survivors before it and those after it. */
  lemma HandleDeleteKeepsOrder(sc: Screen, id: string, before: seq<WhatsAppAccount>, a: WhatsAppAccount, after: seq<WhatsAppAccount>)
    requires sc.store.accounts == before + [a] + after
    requires a.id != id
    ensures HandleDelete(sc, id, true).shown ==
      DeleteAccount(sc.store.(accounts := before), id).accounts + [a] + DeleteAccount(sc.store.(accounts := after), id).accounts
  {
    MockApiProperties.DeleteAccountKeepsOrder(sc.store, id, before, a, after);
  }

  /** A toggle on a card showing any state other than CONNECTED leaves that account CONNECTED. */
  lemma ToggleFromNonConnected(sc: Screen, k: nat)
    requires k < |sc.store.accounts| && IndexOfKey(sc.store.accounts, AccountId, sc.store.accounts[k].id) == Some(k)
    requires sc.store.accounts[k].status != Connected
    ensures HandleToggleConnection(sc, sc.store.accounts[k]).shown[k].status == Connected
  {
  }

  /** Two toggles from CONNECTED, each on the freshly re-read card, restore the store exactly. */
  lemma ToggleTwiceFromConnected(sc: Screen, k: nat)
    requires k < |sc.store.accounts| && IndexOfKey(sc.store.accounts, AccountId, sc.store.accounts[k].id) == Some(k)
    requires sc.store.accounts[k].status == Connected
    ensures var once := HandleToggleConnection(sc, sc.store.accounts[k]);
      k < |once.shown| && HandleToggleConnection(once, once.shown[k]).store == sc.store
  {
    var id := sc.store.accounts[k].id;
    MockApiProperties.SetFirstStatusKeepsIndex(sc.store.accounts, id, id, Disconnected);
    MockApiProperties.ReconnectUndoesDisconnect(sc.store, id, k);
  }

  /** The colour family of a status badge. */
  datatype Colour = Green | Red | Yellow | Grey

  /** The badge colour: green, red and yellow for the three named states, grey for everything else
      (which is QR_READY). */
  function StatusColour(s: AccountStatus): (r: Colour)
    ensures r == Green <==> s == Connected
    ensures r == Red <==> s == Disconnected
    ensures r == Yellow <==> s == Connecting
    ensures r == Grey <==> s == QrReady
  {
    match s
    case Connected => Green
    case Disconnected => Red
    case Connecting => Yellow
    case _ => Grey
  }

  /** The Tailwind classes of a badge colour. */
  function ColourClasses(c: Colour): string {
    match c
    case Green => "text-green-500 bg-green-50 border-green-200"
    case Red => "text-red-500 bg-red-50 border-red-200"
    case Yellow => "text-yellow-500 bg-yellow-50 border-yellow-200"
    case Grey => "text-gray-500 bg-gray-50 border-gray-200"
  }

  /** `getStatusColor`: the badge classes of every status. */
  function GetStatusColor(s: AccountStatus): (r: string)
    ensures s == Connected ==> r == "text-green-500 bg-green-50 border-green-200"
    ensures s == Disconnected ==> r == "text-red-500 bg-red-50 border-red-200"
    ensures s == Connecting ==> r == "text-yellow-500 bg-yellow-50 border-yellow-200"
    ensures s == QrReady ==> r == "text-gray-500 bg-gray-50 border-gray-200"
  {
    ColourClasses(StatusColour(s))
  }

  /** The toggle button caption. */
  function ToggleLabel(s: AccountStatus): (r: string)
    ensures r == "Disconnect" <==> s == Connected
    ensures r == "Connect" <==> s != Connected
  {
    if s == Connected then "Disconnect" else "Connect"
  }
}
