/**
 * Order notifications of rose_cakes/notifications.py: two plain-text message
 * formats and the guarded e-mail and WhatsApp Cloud API sends. A send is a
 * `Dispatch` value appended to an outbox; the mail server and the HTTP call
 * behind it are not modelled. Decimal amounts and the local creation time are
 * rendered by the caller-supplied `amountText` and `createdText`.
 */
module Notifications {
  import opened Wrappers
  import opened Text
  import opened Models

  /** The Django settings read with `getattr`; `None` is a setting that is not defined. */
  datatype Settings = Settings(
    defaultFromEmail: Option<string>,
    emailHostUser: Option<string>,
    whatsappToken: Option<string>,
    whatsappPhoneId: Option<string>)

  /** The shop's SiteSettings row, as far as the notifications read it. */
  datatype SiteSettings = SiteSettings(email: Option<string>, whatsappNumber: Option<string>)

  const FALLBACK_FROM_EMAIL: string := "webmaster@localhost"
  const GRAPH_API: string := "https://graph.facebook.com/v19.0/"

  /** Python's `str()` of a value that may be None. */
  function Shown(s: Option<string>): string
  {
    if s.Some? then s.value else "None"
  }

  /** `order.id` in decimal. */
  function IdText(o: Order): string
  {
    NatToString(o.id)
  }

  /** The JSON body of a Cloud API text message. */
  datatype Payload = Payload(messagingProduct: string, to: string, kind: string, textBody: string)

  /** One outgoing message: a `send_mail` call or a POST to the Cloud API. */
  datatype Dispatch =
    | Mail(subject: string, message: string, fromEmail: string, recipients: seq<string>)
    | HttpRequest(url: string, authorization: string, contentType: string, payload: Payload, timeoutSeconds: nat)

  /** The text a dispatch delivers. */
  function Body(d: Dispatch): string
  {
    match d
    case Mail(_, message, _, _) => message
    case HttpRequest(_, _, _, payload, _) => payload.textBody
  }

  /** DEFAULT_FROM_EMAIL, else EMAIL_HOST_USER, else "webmaster@localhost". */
  function FromEmail(settings: Settings): string
  {
    if settings.defaultFromEmail.Some? then settings.defaultFromEmail.value
    else if settings.emailHostUser.Some? then settings.emailHostUser.value
    else FALLBACK_FROM_EMAIL
  }

  /** What `_send_email` hands to the mail backend: nothing for an empty or missing recipient. */
  function EmailDispatch(settings: Settings, recipient: Option<string>, subject: string, message: string): (d: seq<Dispatch>)
    ensures |d| <= 1
    ensures d == [] <==> !Truthy(recipient)
    ensures d != [] ==> d[0].Mail? && d[0].recipients == [recipient.value] && d[0].subject == subject
    ensures d != [] ==> Body(d[0]) == message && d[0].fromEmail == FromEmail(settings)
  {
    if !Truthy(recipient) then [] else [Mail(subject, message, FromEmail(settings), [recipient.value])]
  }

  /**
   * What `_send_whatsapp` posts: nothing unless the token, the phone-number id
   * and the recipient are all present and non-empty.
   */
  function WhatsAppDispatch(settings: Settings, phone: Option<string>, message: string): (d: seq<Dispatch>)
    ensures |d| <= 1
    ensures d != [] <==> Truthy(settings.whatsappToken) && Truthy(settings.whatsappPhoneId) && Truthy(phone)
    ensures d != [] ==>
      && d[0].HttpRequest?
      && d[0].url == GRAPH_API + settings.whatsappPhoneId.value + "/messages"
      && d[0].authorization == "Bearer " + settings.whatsappToken.value
      && d[0].contentType == "application/json"
      && d[0].payload == Payload("whatsapp", phone.value, "text", message)
      && Body(d[0]) == message
  {
    if !Truthy(settings.whatsappToken) || !Truthy(settings.whatsappPhoneId) || !Truthy(phone) then []
    else
      var token, phoneId := settings.whatsappToken.value, settings.whatsappPhoneId.value;
      [HttpRequest(GRAPH_API + phoneId + "/messages", "Bearer " + token, "application/json",
                   Payload("whatsapp", phone.value, "text", message), 10)]
  }

  /** The phone-number id can be read back from the request URL. */
  lemma UrlNamesPhoneId(s1: Settings, p1: Option<string>, m1: string, s2: Settings, p2: Option<string>, m2: string)
    requires WhatsAppDispatch(s1, p1, m1) != [] && WhatsAppDispatch(s2, p2, m2) != []
    requires WhatsAppDispatch(s1, p1, m1)[0].url == WhatsAppDispatch(s2, p2, m2)[0].url
    ensures s1.whatsappPhoneId == s2.whatsappPhoneId
  {
    var id1, id2 := s1.whatsappPhoneId.value, s2.whatsappPhoneId.value;
    var u1, u2 := GRAPH_API + id1 + "/messages", GRAPH_API + id2 + "/messages";
    assert u1 == GRAPH_API + (id1 + "/messages");
    assert u2 == GRAPH_API + (id2 + "/messages");
    assert id1 + "/messages" == u1[|GRAPH_API|..];
    assert id2 + "/messages" == u2[|GRAPH_API|..];
    assert id1 == (id1 + "/messages")[..|id1|];
    assert id2 == (id2 + "/messages")[..|id2|];
  }

  /** The seven status labels of the user message; other statuses are shown as stored. */
  const STATUS_LABELS: seq<(string, string)> := [
    ("pending", "Pending"),
    ("confirmed", "Confirmed"),
    ("processing", "Preparing"),
    ("ready_for_pickup", "Ready for Pickup"),
    ("out_for_delivery", "Out for Delivery"),
    ("picked_up", "Completed"),
    ("cancelled", "Cancelled")
  ]

  /** `dict.get(key)` over a table of pairs, answered with the entry's position. */
  function Lookup(table: seq<(string, string)>, key: string): (r: Option<nat>)
    ensures r.Some? ==> r.value < |table| && table[r.value].0 == key
    ensures r.None? <==> forall i :: 0 <= i < |table| ==> table[i].0 != key
  {
    if table == [] then None
    else if table[0].0 == key then Some(0)
    else match Lookup(table[1..], key)
      case None => None
      case Some(k) => Some(k + 1)
  }

  function StatusLabel(status: string): string
  {
    match Lookup(STATUS_LABELS, status)
    case None => status
    case Some(i) => STATUS_LABELS[i].1
  }

  /**
   * A status is shown verbatim exactly when it has no label, and a known
   * status gets the label listed beside it.
   */
  lemma StatusLabelFallback(status: string)
    ensures StatusLabel(status) == status <==> forall i :: 0 <= i < |STATUS_LABELS| ==> STATUS_LABELS[i].0 != status
    ensures forall i :: 0 <= i < |STATUS_LABELS| && STATUS_LABELS[i].0 == status ==> StatusLabel(status) == STATUS_LABELS[i].1
  {
    match Lookup(STATUS_LABELS, status)
    case None =>
    case Some(i) =>
      assert STATUS_LABELS[i].1 != STATUS_LABELS[i].0;
      forall j | 0 <= j < |STATUS_LABELS| && STATUS_LABELS[j].0 == status
        ensures StatusLabel(status) == STATUS_LABELS[j].1
      {
        assert i == j;
      }
  }

  /** Two of the order's own status choices have no label and reach the customer as stored. */
  lemma ShippedAndDeliveredUnlabelled()
    ensures IsStatusChoice("shipped") && StatusLabel("shipped") == "shipped"
    ensures IsStatusChoice("delivered") && StatusLabel("delivered") == "delivered"
  {
    assert STATUS_CHOICES[3].0 == "shipped";
    assert STATUS_CHOICES[4].0 == "delivered";
    StatusLabelFallback("shipped");
    StatusLabelFallback("delivered");
  }

  /** The five lines of the message a customer receives on a status change. */
  function UserStatusLines(order: Order, amountText: real -> string): (lines: seq<string>)
  {
    [ "Hi " + order.customerName + ",",
      "Your order #" + IdText(order) + " status is now: " + StatusLabel(order.status) + ".",
      "Total: " + RUPEE + amountText(order.totalAmount) + ".",
      "Pickup date: " + Shown(order.pickupDate) + ".",
      "Thank you for choosing Rose Cakes!" ]
  }

  /** `_format_user_status_message`: the lines written out with a newline after each but the last. */
  function UserStatusMessage(order: Order, amountText: real -> string): string
  {
    var l := UserStatusLines(order, amountText);
    l[0] + "\n" + l[1] + "\n" + l[2] + "\n" + l[3] + "\n" + l[4]
  }

  /**
   * The user message is its five lines joined by newlines, so when none of the
   * shown values holds a newline it splits back into exactly those lines.
   */
  lemma UserStatusLayout(order: Order, amountText: real -> string)
    ensures UserStatusMessage(order, amountText) == Join(UserStatusLines(order, amountText), "\n")
    ensures var lines := UserStatusLines(order, amountText);
            (forall i :: 0 <= i < |lines| ==> '\n' !in lines[i]) ==>
              Split(UserStatusMessage(order, amountText), '\n') == lines && |lines| == 5
  {
    var l := UserStatusLines(order, amountText);
    JoinFive(l[0], l[1], l[2], l[3], l[4]);
    assert l == [l[0], l[1], l[2], l[3], l[4]];
    if forall i :: 0 <= i < |l| ==> '\n' !in l[i] {
      SplitJoin(l, '\n');
    }
  }

  lemma JoinFive(a: string, b: string, c: string, d: string, e: string)
    ensures Join([a, b, c, d, e], "\n") == a + "\n" + b + "\n" + c + "\n" + d + "\n" + e
  {
    assert Join([e], "\n") == e;
    assert Join([d, e], "\n") == d + "\n" + e by { assert [d, e][1..] == [e]; }
    assert Join([c, d, e], "\n") == c + "\n" + (d + "\n" + e) by { assert [c, d, e][1..] == [d, e]; }
    assert Join([b, c, d, e], "\n") == b + "\n" + (c + "\n" + (d + "\n" + e)) by { assert [b, c, d, e][1..] == [c, d, e]; }
    assert Join([a, b, c, d, e], "\n") == a + "\n" + (b + "\n" + (c + "\n" + (d + "\n" + e)))
      by { assert [a, b, c, d, e][1..] == [b, c, d, e]; }
  }

  /** The eight lines of the message the shop receives for a new order. */
  function AdminNewOrderLines(order: Order, amountText: real -> string, createdText: string): (lines: seq<string>)
  {
    [ "New order #" + IdText(order),
      "Customer: " + order.customerName,
      "Email: " + order.customerEmail,
      "WhatsApp: " + (if Truthy(order.whatsappNumber) then order.whatsappNumber.value else "-"),
      "Pickup date: " + Shown(order.pickupDate),
      "Total: " + RUPEE + amountText(order.totalAmount),
      "Created: " + createdText,
      "Status: Pending" ]
  }

  /** `_format_admin_new_order_message`. */
  function AdminNewOrderMessage(order: Order, amountText: real -> string, createdText: string): string
  {
    Join(AdminNewOrderLines(order, amountText, createdText), "\n")
  }

  /** Joining at least two parts ends with the separator and the last part. */
  lemma {:induction false} JoinEndsWithLast(parts: seq<string>, sep: string)
    requires |parts| >= 2
    ensures var j := Join(parts, sep);
            var tail := sep + parts[|parts| - 1];
            |tail| <= |j| && j[|j| - |tail|..] == tail
    decreases |parts|
  {
    var last := parts[|parts| - 1];
    var rest := Join(parts[1..], sep);
    assert Join(parts, sep) == parts[0] + sep + rest;
    if |parts| == 2 {
      assert rest == last;
    } else {
      JoinEndsWithLast(parts[1..], sep);
      assert parts[1..][|parts[1..]| - 1] == last;
    }
  }

  /**
   * The admin message always ends with the line "Status: Pending", whatever
   * the order's actual status; when no field holds a newline it splits into
   * exactly eight lines, the fourth showing "-" for a missing WhatsApp number.
   */
  lemma AdminNewOrderLayout(order: Order, amountText: real -> string, createdText: string)
    ensures var m := AdminNewOrderMessage(order, amountText, createdText);
            var tail := "\nStatus: Pending";
            |tail| <= |m| && m[|m| - |tail|..] == tail
    ensures var lines := AdminNewOrderLines(order, amountText, createdText);
            (forall i :: 0 <= i < |lines| ==> '\n' !in lines[i]) ==>
              var split := Split(AdminNewOrderMessage(order, amountText, createdText), '\n');
              && |split| == 8
              && split[0] == "New order #" + IdText(order)
              && split[7] == "Status: Pending"
              && (!Truthy(order.whatsappNumber) ==> split[3] == "WhatsApp: -")
              && (Truthy(order.whatsappNumber) ==> split[3] == "WhatsApp: " + order.whatsappNumber.value)
  {
    var lines := AdminNewOrderLines(order, amountText, createdText);
    JoinEndsWithLast(lines, "\n");
    assert "\n" + lines[|lines| - 1] == "\nStatus: Pending";
    if forall i :: 0 <= i < |lines| ==> '\n' !in lines[i] {
      SplitJoin(lines, '\n');
    }
  }

  /** The admin address: the site's e-mail when set, else EMAIL_HOST_USER (possibly unset). */
  function AdminEmail(site: Option<SiteSettings>, settings: Settings): (to: Option<string>)
    ensures site.Some? && Truthy(site.value.email) ==> to == site.value.email
    ensures !(site.Some? && Truthy(site.value.email)) ==> to == settings.emailHostUser
  {
    if site.Some? && Truthy(site.value.email) then site.value.email else settings.emailHostUser
  }

  /** The admin WhatsApp number comes only from the site settings, never from Django settings. */
  function AdminWhatsApp(site: Option<SiteSettings>): (to: Option<string>)
    ensures to.Some? <==> site.Some? && Truthy(site.value.whatsappNumber)
    ensures to.Some? ==> to == site.value.whatsappNumber
  {
    if site.Some? && Truthy(site.value.whatsappNumber) then site.value.whatsappNumber else None
  }

  function AdminSubject(order: Order): string
  {
    "New Order #" + IdText(order) + " - Pending"
  }

  function UserSubject(order: Order): string
  {
    "Your Order #" + IdText(order) + " Update"
  }

  /**
   * A status notification reaches the customer at most once per channel, and
   * both channels carry the same text.
   */
  lemma UserNotificationSameBody(settings: Settings, order: Order, amountText: real -> string)
    ensures var body := UserStatusMessage(order, amountText);
            var sent := EmailDispatch(settings, Some(order.customerEmail), UserSubject(order), body)
                        + WhatsAppDispatch(settings, order.whatsappNumber, body);
            && |sent| <= 2
            && (forall i :: 0 <= i < |sent| ==> Body(sent[i]) == body)
            && (order.customerEmail != "" ==> sent[0].Mail? && sent[0].recipients == [order.customerEmail])
  {
  }

  /** The messages handed to the mail backend and the Cloud API, in order. */
  class Outbox {
    var sent: seq<Dispatch>

    constructor ()
      ensures sent == []
    {
      sent := [];
    }

    /** `_send_email`; a failure inside `send_mail` is swallowed and changes nothing here. */
    method SendEmail(settings: Settings, recipient: Option<string>, subject: string, message: string)
      modifies this
      ensures sent == old(sent) + EmailDispatch(settings, recipient, subject, message)
    {
      if !Truthy(recipient) {
        return;
      }
      var fromEmail := FromEmail(settings);
      sent := sent + [Mail(subject, message, fromEmail, [recipient.value])];
    }

    /** `_send_whatsapp`; a failed request is swallowed. */
    method SendWhatsApp(settings: Settings, phone: Option<string>, message: string)
      modifies this
      ensures sent == old(sent) + WhatsAppDispatch(settings, phone, message)
    {
      var token := settings.whatsappToken;
      var phoneId := settings.whatsappPhoneId;
      if !Truthy(token) || !Truthy(phoneId) || !Truthy(phone) {
        return;
      }
      var url := GRAPH_API + phoneId.value + "/messages";
      var payload := Payload("whatsapp", phone.value, "text", message);
      sent := sent + [HttpRequest(url, "Bearer " + token.value, "application/json", payload, 10)];
    }

    /** `notify_admin_new_order`: the same body by e-mail, then by WhatsApp. */
    method NotifyAdminNewOrder(settings: Settings, site: Option<SiteSettings>, order: Order,
                               amountText: real -> string, createdText: string)
      modifies this
      ensures var body := AdminNewOrderMessage(order, amountText, createdText);
              sent == old(sent) + EmailDispatch(settings, AdminEmail(site, settings), AdminSubject(order), body)
                                + WhatsAppDispatch(settings, AdminWhatsApp(site), body)
    {
      var adminEmail := if site.Some? && Truthy(site.value.email) then site.value.email else settings.emailHostUser;
      var adminWhatsApp: Option<string> := None;
      if site.Some? && Truthy(site.value.whatsappNumber) {
        adminWhatsApp := site.value.whatsappNumber;
      }
      var subject := "New Order #" + IdText(order) + " - Pending";
      var body := AdminNewOrderMessage(order, amountText, createdText);
      SendEmail(settings, adminEmail, subject, body);
      SendWhatsApp(settings, adminWhatsApp, body);
    }

    /** `notify_user_order_status`: the customer's e-mail, then the order's WhatsApp number. */
    method NotifyUserOrderStatus(settings: Settings, order: Order, amountText: real -> string)
      modifies this
      ensures var body := UserStatusMessage(order, amountText);
              sent == old(sent) + EmailDispatch(settings, Some(order.customerEmail), UserSubject(order), body)
                                + WhatsAppDispatch(settings, order.whatsappNumber, body)
    {
      var subject := "Your Order #" + IdText(order) + " Update";
      var body := UserStatusMessage(order, amountText);
      SendEmail(settings, Some(order.customerEmail), subject, body);
      SendWhatsApp(settings, order.whatsappNumber, body);
    }
  }
}
