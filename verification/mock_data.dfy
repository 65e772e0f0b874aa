/** The fixed records the simulated backend starts from. */
module MockData {
  import opened Wrappers
  import opened Types

  /** The canonical demo user returned by a successful login. */
  const MockUser: User := User(
    "u1",
    "demo@example.com",
    "Demo Admin",
    Subscription(Growth, Active, "2024-12-01", "$29.00",
      ["3 WhatsApp Accounts", "Unlimited Messages", "n8n Integrations", "Standard Support"]),
    BillingInfo(true, "Whalink Tech Ltd.", "TR1234567890", "Kadikoy", "Teknopark Istanbul", "Istanbul", "Turkey"))

  /** The two accounts present when the service is created. Their `lastActive` stamps are taken
      from the clock at load time (`now`) and one hour before it (`hourAgo`). */
  function InitialAccounts(now: string, hourAgo: string): seq<WhatsAppAccount> {
    [ WhatsAppAccount("wa1", "+1 555 0123 4567", "Whalink Support", Connected, now, Some("https://picsum.photos/200")),
      WhatsAppAccount("wa2", "+44 20 7946 0123", "Sales Bot UK", Disconnected, hourAgo, Some("https://picsum.photos/201")) ]
  }

  const MockChats: seq<ChatSession> := [
    ChatSession("c1", "wa1", "Alice Smith", "+123456789", "Thanks for the invoice!", "10:30 AM", 0,
      "https://picsum.photos/100", false, Some(Online)),
    ChatSession("c2", "wa2", "Bob Jones", "+987654321", "Voice message (0:12)", "09:15 AM", 2,
      "https://picsum.photos/101", false, Some(Blank)),
    ChatSession("c3", "wa1", "Tech Team Group", "+1122334455", "Meeting at 3PM", "Yesterday", 5,
      "https://picsum.photos/102", true, Some(Typing))
  ]

  const InvoiceRequest: string := "I need a copy of my last invoice please."

  /** Message history per chat id; chat "c3" has no entry. */
  const RichMessages: map<string, seq<Message>> := map[
    "c1" := [
      BasicMessage("m1", "Hi Alice, how can we help you today?", Text, "10:00 AM", Me, Read),
      BasicMessage("m2", InvoiceRequest, Text, "10:01 AM", Them, Read),
      BasicMessage("m3", "Invoice_OCT_2023.pdf", Document, "10:02 AM", Me, Read).(
        fileName := Some("Invoice_OCT_2023.pdf"),
        fileSize := Some("1.2 MB"),
        replyTo := Some(QuotedMessage("m2", InvoiceRequest, Them, Text))),
      BasicMessage("m4", "Here is the invoice you requested.", Text, "10:02 AM", Me, Read),
      BasicMessage("m5", "Thanks for the invoice!", Text, "10:05 AM", Them, Read),
      BasicMessage("m6", "Please rate our service:", Template, "10:06 AM", Me, Delivered).(
        buttons := Some([
          Button("btn1", "Excellent \U{2B50}\U{FE0F}", Reply),
          Button("btn2", "Good \U{1F44D}", Reply),
          Button("btn3", "Poor \U{1F44E}", Reply)]))
    ],
    "c2" := [
      BasicMessage("m2_1", "Check out this product.", Image, "09:00 AM", Me, Read).(
        mediaUrl := Some("https://picsum.photos/400/300")),
      BasicMessage("m2_2", "", Audio, "09:15 AM", Them, Read).(duration := Some("0:12"))
    ]
  ]

  const MockWebhooks: seq<Webhook> := [
    Webhook("wh1", "https://n8n.mycompany.com/webhook/orders", "Order Processing (n8n)", [MessageUpsert], true, "2023-11-01")
  ]

  const MockTemplates: seq<QuickReplyTemplate> := [
    QuickReplyTemplate("t1", "/address", "Our office is located at: Teknopark Istanbul, Sanayi Mah. No:1, Istanbul."),
    QuickReplyTemplate("t2", "/bank", "Bank: Ziraat Bankasi\nIBAN: TR00 0000 0000 0000 0000 00")
  ]

  /** The three static articles; their HTML bodies are not reproduced (left empty). */
  const MockBlogPosts: seq<BlogPost> := [
    BlogPost("b1", "whatsapp-automation-guide-2024", "The Ultimate Guide to WhatsApp Automation in 2024",
      "Learn how to automate your customer support and sales processes using Whalink and n8n.", "",
      "https://images.unsplash.com/photo-1555421689-d68471e189f2?auto=format&fit=crop&q=80&w=800",
      "Sarah Johnson", "Oct 24, 2024", "5 min read"),
    BlogPost("b2", "stop-wasting-money-sms", "Stop Wasting Money on SMS: Why WhatsApp is the Future",
      "SMS costs are rising while open rates are dropping. Discover why modern businesses are switching to WhatsApp.", "",
      "https://images.unsplash.com/photo-1563986768609-322da13575f3?auto=format&fit=crop&q=80&w=800",
      "Mike Chen", "Oct 20, 2024", "4 min read"),
    BlogPost("b3", "n8n-whatsapp-integration", "Connecting n8n with WhatsApp: A Technical Deep Dive",
      "A step-by-step tutorial on setting up a webhook to process incoming WhatsApp messages in n8n.", "",
      "https://images.unsplash.com/photo-1551288049-bebda4e38f71?auto=format&fit=crop&q=80&w=800",
      "Alex Dev", "Oct 15, 2024", "8 min read")
  ]
}
