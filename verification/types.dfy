/** The records and string-literal unions of the application's type definitions.

    Every TypeScript string-literal union becomes a datatype with one constructor
    per literal, a `...Name` function giving the literal, an enumeration of all
    values, and a `Parse...` function reading a literal back. */
module Types {
  import opened Wrappers
  import opened Seqs

  /** Connection state of a linked WhatsApp session; the names are the enum's string values. */
  datatype AccountStatus = Connected | Disconnected | Connecting | QrReady

  function AccountStatusName(x: AccountStatus): string {
    match x
    case Connected => "CONNECTED"
    case Disconnected => "DISCONNECTED"
    case Connecting => "CONNECTING"
    case QrReady => "QR_READY"
  }

  /** Every AccountStatus value, each exactly once. */
  function AccountStatuses(): (r: seq<AccountStatus>)
    ensures |r| == 4
    ensures forall x: AccountStatus :: x in r
    ensures Injective(r, AccountStatusName)
  {
    var r := [Connected, Disconnected, Connecting, QrReady];
    assert forall x :: x in r by {
      forall x ensures x in r {
        if x.Connected? {
          assert r[0] == x;
        } else if x.Disconnected? {
          assert r[1] == x;
        } else if x.Connecting? {
          assert r[2] == x;
        } else {
          assert r[3] == x;
        }
      }
    }
    r
  }

  /** Reads a string literal back as an AccountStatus; fails exactly on strings outside the union. */
  function ParseAccountStatus(s: string): (r: Option<AccountStatus>)
    ensures r.Some? ==> AccountStatusName(r.value) == s
    ensures r.None? <==> forall x: AccountStatus :: AccountStatusName(x) != s
  {
    FindByKey(AccountStatuses(), AccountStatusName, s)
  }

  lemma AccountStatusRoundTrip(x: AccountStatus)
    ensures ParseAccountStatus(AccountStatusName(x)) == Some(x)
  {
    FindOwnKey(AccountStatuses(), AccountStatusName, x);
  }

  /** Subscription tier names. */
  datatype PlanName = Starter | Growth | Enterprise

  function PlanNameName(x: PlanName): string {
    match x
    case Starter => "Starter"
    case Growth => "Growth"
    case Enterprise => "Enterprise"
  }

  /** Every PlanName value, each exactly once. */
  function PlanNames(): (r: seq<PlanName>)
    ensures |r| == 3
    ensures forall x: PlanName :: x in r
    ensures Injective(r, PlanNameName)
  {
    var r := [Starter, Growth, Enterprise];
    assert forall x :: x in r by {
      forall x ensures x in r {
        if x.Starter? {
          assert r[0] == x;
        } else if x.Growth? {
          assert r[1] == x;
        } else {
          assert r[2] == x;
        }
      }
    }
    r
  }

  /** Reads a string literal back as a PlanName; fails exactly on strings outside the union. */
  function ParsePlanName(s: string): (r: Option<PlanName>)
    ensures r.Some? ==> PlanNameName(r.value) == s
    ensures r.None? <==> forall x: PlanName :: PlanNameName(x) != s
  {
    FindByKey(PlanNames(), PlanNameName, s)
  }

  lemma PlanNameRoundTrip(x: PlanName)
    ensures ParsePlanName(PlanNameName(x)) == Some(x)
  {
    FindOwnKey(PlanNames(), PlanNameName, x);
  }

  /** Billing state of a subscription. */
  datatype SubscriptionStatus = Active | PastDue | Canceled

  function SubscriptionStatusName(x: SubscriptionStatus): string {
    match x
    case Active => "active"
    case PastDue => "past_due"
    case Canceled => "canceled"
  }

  /** Every SubscriptionStatus value, each exactly once. */
  function SubscriptionStatuses(): (r: seq<SubscriptionStatus>)
    ensures |r| == 3
    ensures forall x: SubscriptionStatus :: x in r
    ensures Injective(r, SubscriptionStatusName)
  {
    var r := [Active, PastDue, Canceled];
    assert forall x :: x in r by {
      forall x ensures x in r {
        if x.Active? {
          assert r[0] == x;
        } else if x.PastDue? {
          assert r[1] == x;
        } else {
          assert r[2] == x;
        }
      }
    }
    r
  }

  /** Reads a string literal back as a SubscriptionStatus; fails exactly on strings outside the union. */
  function ParseSubscriptionStatus(s: string): (r: Option<SubscriptionStatus>)
    ensures r.Some? ==> SubscriptionStatusName(r.value) == s
    ensures r.None? <==> forall x: SubscriptionStatus :: SubscriptionStatusName(x) != s
  {
    FindByKey(SubscriptionStatuses(), SubscriptionStatusName, s)
  }

  lemma SubscriptionStatusRoundTrip(x: SubscriptionStatus)
    ensures ParseSubscriptionStatus(SubscriptionStatusName(x)) == Some(x)
  {
    FindOwnKey(SubscriptionStatuses(), SubscriptionStatusName, x);
  }

  /** The tagged kind of a chat message. */
  datatype MessageType = Text | Image | Video | Audio | Document | Sticker | Location | Template | System

  function MessageTypeName(x: MessageType): string {
    match x
    case Text => "text"
    case Image => "image"
    case Video => "video"
    case Audio => "audio"
    case Document => "document"
    case Sticker => "sticker"
    case Location => "location"
    case Template => "template"
    case System => "system"
  }

  /** Every MessageType value, each exactly once. */
  function MessageTypes(): (r: seq<MessageType>)
    ensures |r| == 9
    ensures forall x: MessageType :: x in r
    ensures Injective(r, MessageTypeName)
  {
    var r := [Text, Image, Video, Audio, Document, Sticker, Location, Template, System];
    assert forall x :: x in r by {
      forall x ensures x in r {
        if x.Text? {
          assert r[0] == x;
        } else if x.Image? {
          assert r[1] == x;
        } else if x.Video? {
          assert r[2] == x;
        } else if x.Audio? {
          assert r[3] == x;
        } else if x.Document? {
          assert r[4] == x;
        } else if x.Sticker? {
          assert r[5] == x;
        } else if x.Location? {
          assert r[6] == x;
        } else if x.Template? {
          assert r[7] == x;
        } else {
          assert r[8] == x;
        }
      }
    }
    r
  }

  /** Reads a string literal back as a MessageType; fails exactly on strings outside the union. */
  function ParseMessageType(s: string): (r: Option<MessageType>)
    ensures r.Some? ==> MessageTypeName(r.value) == s
    ensures r.None? <==> forall x: MessageType :: MessageTypeName(x) != s
  {
    FindByKey(MessageTypes(), MessageTypeName, s)
  }

  lemma MessageTypeRoundTrip(x: MessageType)
    ensures ParseMessageType(MessageTypeName(x)) == Some(x)
  {
    FindOwnKey(MessageTypes(), MessageTypeName, x);
  }

  /** Who wrote a message: this account or the contact. */
  datatype Sender = Me | Them

  function SenderName(x: Sender): string {
    match x
    case Me => "me"
    case Them => "them"
  }

  /** Every Sender value, each exactly once. */
  function Senders(): (r: seq<Sender>)
    ensures |r| == 2
    ensures forall x: Sender :: x in r
    ensures Injective(r, SenderName)
  {
    var r := [Me, Them];
    assert forall x :: x in r by {
      forall x ensures x in r {
        if x.Me? {
          assert r[0] == x;
        } else {
          assert r[1] == x;
        }
      }
    }
    r
  }

  /** Reads a string literal back as a Sender; fails exactly on strings outside the union. */
  function ParseSender(s: string): (r: Option<Sender>)
    ensures r.Some? ==> SenderName(r.value) == s
    ensures r.None? <==> forall x: Sender :: SenderName(x) != s
  {
    FindByKey(Senders(), SenderName, s)
  }

  lemma SenderRoundTrip(x: Sender)
    ensures ParseSender(SenderName(x)) == Some(x)
  {
    FindOwnKey(Senders(), SenderName, x);
  }

  /** Delivery progress of a message. */
  datatype DeliveryStatus = Pending | Sent | Delivered | Read

  function DeliveryStatusName(x: DeliveryStatus): string {
    match x
    case Pending => "pending"
    case Sent => "sent"
    case Delivered => "delivered"
    case Read => "read"
  }

  /** Every DeliveryStatus value, each exactly once. */
  function DeliveryStatuses(): (r: seq<DeliveryStatus>)
    ensures |r| == 4
    ensures forall x: DeliveryStatus :: x in r
    ensures Injective(r, DeliveryStatusName)
  {
    var r := [Pending, Sent, Delivered, Read];
    assert forall x :: x in r by {
      forall x ensures x in r {
        if x.Pending? {
          assert r[0] == x;
        } else if x.Sent? {
          assert r[1] == x;
        } else if x.Delivered? {
          assert r[2] == x;
        } else {
          assert r[3] == x;
        }
      }
    }
    r
  }

  /** Reads a string literal back as a DeliveryStatus; fails exactly on strings outside the union. */
  function ParseDeliveryStatus(s: string): (r: Option<DeliveryStatus>)
    ensures r.Some? ==> DeliveryStatusName(r.value) == s
    ensures r.None? <==> forall x: DeliveryStatus :: DeliveryStatusName(x) != s
  {
    FindByKey(DeliveryStatuses(), DeliveryStatusName, s)
  }

  lemma DeliveryStatusRoundTrip(x: DeliveryStatus)
    ensures ParseDeliveryStatus(DeliveryStatusName(x)) == Some(x)
  {
    FindOwnKey(DeliveryStatuses(), DeliveryStatusName, x);
  }

  /** What an interactive message button does. */
  datatype ButtonKind = Reply | Url

  function ButtonKindName(x: ButtonKind): string {
    match x
    case Reply => "reply"
    case Url => "url"
  }

  /** Every ButtonKind value, each exactly once. */
  function ButtonKinds(): (r: seq<ButtonKind>)
    ensures |r| == 2
    ensures forall x: ButtonKind :: x in r
    ensures Injective(r, ButtonKindName)
  {
    var r := [Reply, Url];
    assert forall x :: x in r by {
      forall x ensures x in r {
        if x.Reply? {
          assert r[0] == x;
        } else {
          assert r[1] == x;
        }
      }
    }
    r
  }

  /** Reads a string literal back as a ButtonKind; fails exactly on strings outside the union. */
  function ParseButtonKind(s: string): (r: Option<ButtonKind>)
    ensures r.Some? ==> ButtonKindName(r.value) == s
    ensures r.None? <==> forall x: ButtonKind :: ButtonKindName(x) != s
  {
    FindByKey(ButtonKinds(), ButtonKindName, s)
  }

  lemma ButtonKindRoundTrip(x: ButtonKind)
    ensures ParseButtonKind(ButtonKindName(x)) == Some(x)
  {
    FindOwnKey(ButtonKinds(), ButtonKindName, x);
  }

  /** The optional presence line of a chat session; `Blank` is the empty string value. */
  datatype ChatPresence = Online | Typing | RecordingAudio | Blank

  function ChatPresenceName(x: ChatPresence): string {
    match x
    case Online => "online"
    case Typing => "typing..."
    case RecordingAudio => "recording audio..."
    case Blank => ""
  }

  /** Every ChatPresence value, each exactly once. */
  function ChatPresences(): (r: seq<ChatPresence>)
    ensures |r| == 4
    ensures forall x: ChatPresence :: x in r
    ensures Injective(r, ChatPresenceName)
  {
    var r := [Online, Typing, RecordingAudio, Blank];
    assert forall x :: x in r by {
      forall x ensures x in r {
        if x.Online? {
          assert r[0] == x;
        } else if x.Typing? {
          assert r[1] == x;
        } else if x.RecordingAudio? {
          assert r[2] == x;
        } else {
          assert r[3] == x;
        }
      }
    }
    r
  }

  /** Reads a string literal back as a ChatPresence; fails exactly on strings outside the union. */
  function ParseChatPresence(s: string): (r: Option<ChatPresence>)
    ensures r.Some? ==> ChatPresenceName(r.value) == s
    ensures r.None? <==> forall x: ChatPresence :: ChatPresenceName(x) != s
  {
    FindByKey(ChatPresences(), ChatPresenceName, s)
  }

  lemma ChatPresenceRoundTrip(x: ChatPresence)
    ensures ParseChatPresence(ChatPresenceName(x)) == Some(x)
  {
    FindOwnKey(ChatPresences(), ChatPresenceName, x);
  }

  /** Event types a webhook may subscribe to. */
  datatype WebhookEvent = MessageUpsert | MessageUpdate | ConnectionUpdate

  function WebhookEventName(x: WebhookEvent): string {
    match x
    case MessageUpsert => "message.upsert"
    case MessageUpdate => "message.update"
    case ConnectionUpdate => "connection.update"
  }

  /** Every WebhookEvent value, each exactly once. */
  function WebhookEvents(): (r: seq<WebhookEvent>)
    ensures |r| == 3
    ensures forall x: WebhookEvent :: x in r
    ensures Injective(r, WebhookEventName)
  {
    var r := [MessageUpsert, MessageUpdate, ConnectionUpdate];
    assert forall x :: x in r by {
      forall x ensures x in r {
        if x.MessageUpsert? {
          assert r[0] == x;
        } else if x.MessageUpdate? {
          assert r[1] == x;
        } else {
          assert r[2] == x;
        }
      }
    }
    r
  }

  /** Reads a string literal back as a WebhookEvent; fails exactly on strings outside the union. */
  function ParseWebhookEvent(s: string): (r: Option<WebhookEvent>)
    ensures r.Some? ==> WebhookEventName(r.value) == s
    ensures r.None? <==> forall x: WebhookEvent :: WebhookEventName(x) != s
  {
    FindByKey(WebhookEvents(), WebhookEventName, s)
  }

  lemma WebhookEventRoundTrip(x: WebhookEvent)
    ensures ParseWebhookEvent(WebhookEventName(x)) == Some(x)
  {
    FindOwnKey(WebhookEvents(), WebhookEventName, x);
  }

  /** Severity of a toast notification. */
  datatype ToastType = Success | Error | Info

  function ToastTypeName(x: ToastType): string {
    match x
    case Success => "success"
    case Error => "error"
    case Info => "info"
  }

  /** Every ToastType value, each exactly once. */
  function ToastTypes(): (r: seq<ToastType>)
    ensures |r| == 3
    ensures forall x: ToastType :: x in r
    ensures Injective(r, ToastTypeName)
  {
    var r := [Success, Error, Info];
    assert forall x :: x in r by {
      forall x ensures x in r {
        if x.Success? {
          assert r[0] == x;
        } else if x.Error? {
          assert r[1] == x;
        } else {
          assert r[2] == x;
        }
      }
    }
    r
  }

  /** Reads a string literal back as a ToastType; fails exactly on strings outside the union. */
  function ParseToastType(s: string): (r: Option<ToastType>)
    ensures r.Some? ==> ToastTypeName(r.value) == s
    ensures r.None? <==> forall x: ToastType :: ToastTypeName(x) != s
  {
    FindByKey(ToastTypes(), ToastTypeName, s)
  }

  lemma ToastTypeRoundTrip(x: ToastType)
    ensures ParseToastType(ToastTypeName(x)) == Some(x)
  {
    FindOwnKey(ToastTypes(), ToastTypeName, x);
  }
  datatype Subscription = Subscription(
    planName: PlanName,
    status: SubscriptionStatus,
    nextBillingDate: string,
    price: string,
    features: seq<string>)

  datatype BillingInfo = BillingInfo(
    isCorporate: bool,
    companyName: string,
    taxId: string,
    taxOffice: string,
    address: string,
    city: string,
    country: string)

  datatype User = User(
    id: string,
    email: string,
    name: string,
    subscription: Subscription,
    billingInfo: BillingInfo)

  /** A linked WhatsApp device session. */
  datatype WhatsAppAccount = WhatsAppAccount(
    id: string,
    phoneNumber: string,
    name: string,
    status: AccountStatus,
    lastActive: string,
    avatarUrl: Option<string>)

  /** The denormalised copy of a quoted message. */
  datatype QuotedMessage = QuotedMessage(id: string, text: string, sender: Sender, kind: MessageType)

  datatype Button = Button(id: string, text: string, kind: ButtonKind)

  /** A shared location; JavaScript numbers are modelled as reals. */
  datatype GeoLocation = GeoLocation(lat: real, lng: real, name: Option<string>, address: Option<string>)

  /** A chat message; every optional property of the record is an `Option`. */
  datatype Message = Message(
    id: string,
    whatsappAccountId: Option<string>,
    chatId: Option<string>,
    text: string,
    kind: MessageType,
    timestamp: string,
    sender: Sender,
    status: DeliveryStatus,
    mediaUrl: Option<string>,
    fileName: Option<string>,
    fileSize: Option<string>,
    duration: Option<string>,
    mimeType: Option<string>,
    replyTo: Option<QuotedMessage>,
    buttons: Option<seq<Button>>,
    location: Option<GeoLocation>)

  /** A message with only the required properties set. */
  function BasicMessage(id: string, text: string, kind: MessageType, timestamp: string, sender: Sender, status: DeliveryStatus): Message {
    Message(id, None, None, text, kind, timestamp, sender, status, None, None, None, None, None, None, None, None)
  }

  /** A conversation; `whatsappAccountId` refers to the account it belongs to. */
  datatype ChatSession = ChatSession(
    id: string,
    whatsappAccountId: string,
    contactName: string,
    contactNumber: string,
    lastMessage: string,
    lastMessageTime: string,
    unreadCount: int,
    avatarUrl: string,
    isGroup: bool,
    status: Option<ChatPresence>)

  datatype Webhook = Webhook(
    id: string,
    url: string,
    name: string,
    events: seq<WebhookEvent>,
    isActive: bool,
    createdAt: string)

  /** A stored shortcut-to-text mapping; the leading "/" of a shortcut is a convention only. */
  datatype QuickReplyTemplate = QuickReplyTemplate(id: string, shortcut: string, content: string)

  datatype BlogPost = BlogPost(
    id: string,
    slug: string,
    title: string,
    excerpt: string,
    content: string,
    coverImage: string,
    author: string,
    date: string,
    readTime: string)

  datatype ToastMessage = ToastMessage(id: string, message: string, kind: ToastType)
}
