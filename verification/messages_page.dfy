/** The chat screen: account and chat selection, the composer and its send guard, incoming
    messages, and the delivery-status icons. */
module MessagesPage {
  import opened Wrappers
  import opened Types
  import opened MockApi

  /** The screen's state. */
  datatype ChatView = ChatView(
    accounts: seq<WhatsAppAccount>,
    selectedAccountId: string,
    chats: seq<ChatSession>,
    activeChat: Option<string>,
    messages: seq<Message>,
    draft: string)

  const InitialView: ChatView := ChatView([], "", [], None, [], "")

  // ---------------------------------------------------------------- whitespace

  /** ECMAScript WhiteSpace and LineTerminator code points: what `String.prototype.trim` strips. */
  predicate IsJsWhitespace(c: char) {
    c == '\t' || c == '\n' || c == '\U{000B}' || c == '\U{000C}' || c == '\r' || c == ' ' ||
    c == '\U{00A0}' || c == '\U{1680}' || ('\U{2000}' <= c <= '\U{200A}') || c == '\U{2028}' || c == '\U{2029}' ||
    c == '\U{202F}' || c == '\U{205F}' || c == '\U{3000}' || c == '\U{FEFF}'
  }

  /** The string is empty or consists of whitespace only. */
  predicate Blank(s: string) {
    forall i :: 0 <= i < |s| ==> IsJsWhitespace(s[i])
  }

  /** Strips leading whitespace: the result is a suffix of `s`, what was cut off is blank, and the
      result does not start with whitespace. */
  function TrimStart(s: string): (r: string)
    ensures |r| <= |s| && r == s[|s| - |r|..]
    ensures Blank(s[..|s| - |r|])
    ensures r == [] || !IsJsWhitespace(r[0])
    decreases |s|
  {
    if s != [] && IsJsWhitespace(s[0]) then
      var r := TrimStart(s[1..]);
      var n := |s| - |r|;
      assert s[1..][n - 1..] == s[n..];
      assert Blank(s[..n]) by {
        forall i | 0 <= i < n ensures IsJsWhitespace(s[..n][i]) {
          if i > 0 { assert s[..n][i] == s[1..][..n - 1][i - 1]; }
        }
      }
      r
    else s
  }

  /** Strips trailing whitespace: the result is a prefix of `s`, what was cut off is blank, and the
      result does not end with whitespace. */
  function TrimEnd(s: string): (r: string)
    ensures r <= s
    ensures Blank(s[|r|..])
    ensures r == [] || !IsJsWhitespace(r[|r| - 1])
    decreases |s|
  {
    if s != [] && IsJsWhitespace(s[|s| - 1]) then
      var r := TrimEnd(s[..|s| - 1]);
      assert forall i :: |r| <= i < |s| - 1 ==> s[i] == s[..|s| - 1][|r|..][i - |r|];
      r
    else s
  }

  /** `s.trim()`: the composer's guard `!draft.trim()` holds exactly for blank drafts. */
  function Trim(s: string): (r: string)
    ensures r == [] <==> Blank(s)
    ensures r == [] || (!IsJsWhitespace(r[0]) && !IsJsWhitespace(r[|r| - 1]))
  {
    TrimEnd(TrimStart(s))
  }

  // ---------------------------------------------------------------- selection

  /** Choosing an account (on load or from the picker). The chat effect runs only when the id
      changes and is non-empty: it clears the open chat and loads that account's chats. */
  function SelectAccount(v: ChatView, st: Store, id: string): (r: ChatView)
    ensures r.selectedAccountId == id
    ensures id != v.selectedAccountId && id != "" ==> r.activeChat == None && r.chats == GetChats(st, Some(id))
    ensures id == v.selectedAccountId || id == "" ==> r.activeChat == v.activeChat && r.chats == v.chats
    ensures r.messages == v.messages && r.draft == v.draft && r.accounts == v.accounts
  {
    if id == v.selectedAccountId then v
    else if id == "" then v.(selectedAccountId := id)
    else v.(selectedAccountId := id, activeChat := None, chats := GetChats(st, Some(id)))
  }

  /** The mount effect: loads the accounts and selects the first one, if any. */
  function LoadAccounts(v: ChatView, st: Store): (r: ChatView)
    ensures r.accounts == GetAccounts(st)
    ensures |GetAccounts(st)| > 0 ==> r.selectedAccountId == GetAccounts(st)[0].id
    ensures |GetAccounts(st)| > 0 ==> r == SelectAccount(v.(accounts := GetAccounts(st)), st, GetAccounts(st)[0].id)
    ensures |GetAccounts(st)| == 0 ==> r == v.(accounts := GetAccounts(st))
    ensures r.messages == v.messages && r.draft == v.draft
  {
    var accounts := GetAccounts(st);
    var v' := v.(accounts := accounts);
    if |accounts| > 0 then SelectAccount(v', st, accounts[0].id) else v'
  }

  /** On first load with at least one account, the first account is selected, its chats are shown
      and no chat is open. */
  lemma FirstLoadSelectsFirstAccount(st: Store)
    requires |st.accounts| > 0 && st.accounts[0].id != ""
    ensures var r := LoadAccounts(InitialView, st);
      r.selectedAccountId == st.accounts[0].id && r.chats == GetChats(st, Some(st.accounts[0].id)) &&
      r.activeChat == None && r.messages == [] && r.draft == ""
  {
  }

  /** Clicking a chat. When the open chat changes to a non-empty id, its history is loaded
      (and a subscription to it is started, replacing the previous one). */
  function OpenChat(v: ChatView, st: Store, chatId: string): (r: ChatView)
    ensures r.activeChat == Some(chatId)
    ensures v.activeChat != Some(chatId) && chatId != "" ==> r.messages == GetMessages(st, chatId)
    ensures v.activeChat == Some(chatId) || chatId == "" ==> r.messages == v.messages
    ensures r.(activeChat := v.activeChat, messages := v.messages) == v
  {
    if v.activeChat == Some(chatId) then v
    else if chatId == "" then v.(activeChat := Some(chatId))
    else v.(activeChat := Some(chatId), messages := GetMessages(st, chatId))
  }

  /** The back button on narrow screens. */
  function CloseChat(v: ChatView): (r: ChatView)
    ensures r.activeChat == None && r.(activeChat := v.activeChat) == v
  {
    v.(activeChat := None)
  }

  /** Switching to a different account always closes the open chat, whichever chat was open. */
  lemma SwitchingAccountClosesChat(v: ChatView, st: Store, chatId: string, id: string)
    requires id != "" && id != v.selectedAccountId
    ensures SelectAccount(OpenChat(v, st, chatId), st, id).activeChat == None
    ensures SelectAccount(OpenChat(v, st, chatId), st, id).chats == GetChats(st, Some(id))
  {
  }

  /** Selecting the same account again, or opening the same chat again, changes nothing. */
  lemma SelectionIdempotent(v: ChatView, st: Store, id: string, chatId: string)
    ensures SelectAccount(SelectAccount(v, st, id), st, id) == SelectAccount(v, st, id)
    ensures OpenChat(OpenChat(v, st, chatId), st, chatId) == OpenChat(v, st, chatId)
  {
  }

  // ---------------------------------------------------------------- composing and receiving

  /** The subscription callback: an incoming message goes to the end of the list. */
  function ReceiveIncoming(v: ChatView, msg: Message): (r: ChatView)
    ensures |r.messages| == |v.messages| + 1
    ensures r.messages[..|v.messages|] == v.messages && r.messages[|v.messages|] == msg
    ensures r.(messages := v.messages) == v
  {
    v.(messages := v.messages + [msg])
  }

  /** `handleSend`: a blank draft changes nothing; otherwise the untrimmed draft is appended as a
      sent text message from this account and the draft is cleared. `stamp` and `time` are the
      clock readings for the id and the displayed time. */
  function HandleSend(v: ChatView, stamp: string, time: string): (r: ChatView)
    ensures Blank(v.draft) ==> r == v
    ensures !Blank(v.draft) ==>
      |r.messages| == |v.messages| + 1 && r.messages[..|v.messages|] == v.messages &&
      r.messages[|v.messages|] == BasicMessage(stamp, v.draft, Text, time, Me, Sent)
    ensures !Blank(v.draft) ==> r.draft == "" && r.(messages := v.messages, draft := v.draft) == v
  {
    if Trim(v.draft) == [] then v
    else v.(messages := v.messages + [BasicMessage(stamp, v.draft, Text, time, Me, Sent)], draft := "")
  }

  /** Enter without Shift sends; any other key (Shift+Enter included) leaves the state to the textarea. */
  function HandleKeyDown(v: ChatView, key: string, shiftKey: bool, stamp: string, time: string): (r: ChatView)
    ensures key == "Enter" && !shiftKey ==> r == HandleSend(v, stamp, time)
    ensures key == "Enter" && !shiftKey && !Blank(v.draft) ==>
      r.draft == "" && r.messages == v.messages + [BasicMessage(stamp, v.draft, Text, time, Me, Sent)]
    ensures !(key == "Enter" && !shiftKey) || Blank(v.draft) ==> r == v
  {
    if key == "Enter" && !shiftKey then HandleSend(v, stamp, time) else v
  }

  // ---------------------------------------------------------------- status icons

  /** The tick icons: blue double tick, grey double tick, grey single tick, and the clock. */
  datatype StatusIcon = BlueDoubleCheck | GreyDoubleCheck | GreyCheck | GreyClock

  function MessageStatusIcon(s: DeliveryStatus): (r: StatusIcon)
    ensures r == BlueDoubleCheck <==> s == Read
    ensures r == GreyDoubleCheck <==> s == Delivered
    ensures r == GreyCheck <==> s == Sent
    ensures r == GreyClock <==> s == Pending
  {
    match s
    case Read => BlueDoubleCheck
    case Delivered => GreyDoubleCheck
    case Sent => GreyCheck
    case _ => GreyClock
  }

  /** Distinct delivery states show distinct icons. */
  lemma StatusIconInjective(s: DeliveryStatus, t: DeliveryStatus)
    requires s != t
    ensures MessageStatusIcon(s) != MessageStatusIcon(t)
  {
  }
}
