/** The automations page: the webhook and quick-reply forms, their guards, and confirm-gated deletes. */
module AutomationsPage {
  import opened Wrappers
  import opened Seqs
  import opened Types
  import opened MockApi

  datatype Tab = WebhooksTab | TemplatesTab

  /** The two add-forms: whether each is open, and its text fields. */
  datatype Form = Form(
    showAddWebhook: bool, webhookUrl: string, webhookName: string,
    showAddTemplate: bool, shortcut: string, content: string)

  /** The page state after loading: the service, the active tab, the forms and the lists shown. */
  datatype Screen = Screen(store: Store, tab: Tab, form: Form, webhooks: seq<Webhook>, templates: seq<QuickReplyTemplate>)

  const EmptyForm := Form(false, "", "", false, "", "")

  /** The page as first mounted: the webhooks tab, both forms closed and empty, both lists loaded. */
  function Mount(st: Store): (r: Screen)
    ensures r.tab == WebhooksTab && r.form == EmptyForm
    ensures r.webhooks == st.webhooks && r.templates == st.templates && r.store == st
  {
    LoadData(Screen(st, WebhooksTab, EmptyForm, [], []))
  }

  /** `loadData`: both lists are re-read from the service; nothing else changes. */
  function LoadData(sc: Screen): (r: Screen)
    ensures r.webhooks == GetWebhooks(sc.store) && r.templates == GetTemplates(sc.store)
    ensures r.(webhooks := sc.webhooks, templates := sc.templates) == sc
  {
    sc.(webhooks := GetWebhooks(sc.store), templates := GetTemplates(sc.store))
  }

  /** Save on the webhook form: refused while either field is empty; otherwise the webhook is added,
      the form's fields are cleared, the form is closed and the lists are re-read. */
  function HandleAddWebhook(sc: Screen, stamp: string, now: string): (r: Screen)
    ensures sc.form.webhookUrl == "" || sc.form.webhookName == "" ==> r == sc
    ensures sc.form.webhookUrl != "" && sc.form.webhookName != "" ==>
      r.store == AddWebhook(sc.store, sc.form.webhookUrl, sc.form.webhookName, stamp, now).store &&
      r.form == sc.form.(showAddWebhook := false, webhookUrl := "", webhookName := "") &&
      r.webhooks == r.store.webhooks && r.templates == r.store.templates && r.tab == sc.tab
  {
    if sc.form.webhookUrl == "" || sc.form.webhookName == "" then sc
    else
      var st := AddWebhook(sc.store, sc.form.webhookUrl, sc.form.webhookName, stamp, now).store;
      LoadData(sc.(store := st, form := sc.form.(showAddWebhook := false, webhookUrl := "", webhookName := "")))
  }

  /** Save on the template form: refused while either field is empty; otherwise the template is added
      with the shortcut exactly as typed, the form is cleared and closed, and the lists are re-read. */
  function HandleAddTemplate(sc: Screen, stamp: string): (r: Screen)
    ensures sc.form.shortcut == "" || sc.form.content == "" ==> r == sc
    ensures sc.form.shortcut != "" && sc.form.content != "" ==>
      r.store == AddTemplate(sc.store, sc.form.shortcut, sc.form.content, stamp).store &&
      r.form == sc.form.(showAddTemplate := false, shortcut := "", content := "") &&
      r.webhooks == r.store.webhooks && r.templates == r.store.templates && r.tab == sc.tab
  {
    if sc.form.shortcut == "" || sc.form.content == "" then sc
    else
      var st := AddTemplate(sc.store, sc.form.shortcut, sc.form.content, stamp).store;
      LoadData(sc.(store := st, form := sc.form.(showAddTemplate := false, shortcut := "", content := "")))
  }

  /** The webhook delete button: acts only when the confirmation dialog returns true. */
  function HandleDeleteWebhook(sc: Screen, id: string, confirmed: bool): (r: Screen)
    ensures !confirmed ==> r == sc
    ensures confirmed ==> r.store == DeleteWebhook(sc.store, id) && r.webhooks == r.store.webhooks
    ensures confirmed ==> forall w :: w in r.webhooks <==> w in sc.store.webhooks && w.id != id
    ensures confirmed ==> r.form == sc.form && r.templates == sc.store.templates && r.tab == sc.tab
  {
    if confirmed then LoadData(sc.(store := DeleteWebhook(sc.store, id))) else sc
  }

  /** The template delete button: acts only when the confirmation dialog returns true. */
  function HandleDeleteTemplate(sc: Screen, id: string, confirmed: bool): (r: Screen)
    ensures !confirmed ==> r == sc
    ensures confirmed ==> r.store == DeleteTemplate(sc.store, id) && r.templates == r.store.templates
    ensures confirmed ==> forall t :: t in r.templates <==> t in sc.store.templates && t.id != id
    ensures confirmed ==> r.form == sc.form && r.webhooks == sc.store.webhooks && r.tab == sc.tab
  {
    if confirmed then LoadData(sc.(store := DeleteTemplate(sc.store, id))) else sc
  }

  /** The page never checks the shortcut's leading "/": any non-empty shortcut without it is
      accepted and stored exactly as typed. */
  lemma ShortcutWithoutSlashAccepted(sc: Screen, stamp: string)
    requires sc.form.shortcut != "" && sc.form.shortcut[0] != '/' && sc.form.content != ""
    ensures var r := HandleAddTemplate(sc, stamp);
      |r.templates| == |sc.store.templates| + 1 && r.templates[|sc.store.templates|].shortcut == sc.form.shortcut
  {
  }

  /** Adding a webhook with a fresh id and then confirming its deletion restores the service state. */
  lemma DeleteUndoesAddWebhook(sc: Screen, stamp: string, now: string)
    requires sc.form.webhookUrl != "" && sc.form.webhookName != ""
    requires forall i :: 0 <= i < |sc.store.webhooks| ==> sc.store.webhooks[i].id != "wh" + stamp
    ensures HandleDeleteWebhook(HandleAddWebhook(sc, stamp, now), "wh" + stamp, true).store == sc.store
  {
    var hook := AddWebhook(sc.store, sc.form.webhookUrl, sc.form.webhookName, stamp, now).result;
    FilterByKeyConcat(sc.store.webhooks, [hook], WebhookId, "wh" + stamp, false);
  }

  /** Adding a template with a fresh id and then confirming its deletion restores the service state. */
  lemma DeleteUndoesAddTemplate(sc: Screen, stamp: string)
    requires sc.form.shortcut != "" && sc.form.content != ""
    requires forall i :: 0 <= i < |sc.store.templates| ==> sc.store.templates[i].id != "t" + stamp
    ensures HandleDeleteTemplate(HandleAddTemplate(sc, stamp), "t" + stamp, true).store == sc.store
  {
    var template := AddTemplate(sc.store, sc.form.shortcut, sc.form.content, stamp).result;
    FilterByKeyConcat(sc.store.templates, [template], TemplateId, "t" + stamp, false);
  }
}
