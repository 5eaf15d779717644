/**
 * The Twilio-backed WhatsApp service of rose_cakes/whatsapp_service.py. The
 * Twilio client is reduced to whether it was created; a message the provider
 * accepted is recorded in `delivered`, and whether the provider raises is an
 * input. The fixed per-status and confirmation templates are opaque bodies;
 * only their selection, the fallback text and the item lines are spelt out.
 */
module WhatsApp {
  import opened Wrappers
  import opened Text
  import opened Models
  import opened Orders

  /** TWILIO_ACCOUNT_SID, TWILIO_AUTH_TOKEN and TWILIO_WHATSAPP_NUMBER; None is an unset variable. */
  datatype Environment = Environment(accountSid: Option<string>, authToken: Option<string>, whatsappNumber: Option<string>)

  /** A message body: a fixed template filled from the order, or plain text. */
  datatype MessageBody =
    | StatusTemplate(status: string, order: Order)
    | ConfirmationTemplate(order: Order, itemsText: string)
    | Plain(text: string)

  /** A message the provider accepted. */
  datatype TwilioMessage = TwilioMessage(sender: string, body: MessageBody, recipient: string)

  /** The statuses that have their own update template. */
  const TEMPLATE_STATUSES: seq<string> :=
    ["pending", "confirmed", "processing", "ready_for_pickup", "out_for_delivery", "picked_up", "cancelled"]

  const BULLET: string := "\U{2022}"

  /** The number as sent: "+91" in front unless it already starts with '+'. */
  function NormalizeNumber(n: string): (r: string)
    ensures StartsWith(r, "+")
    ensures StartsWith(n, "+") ==> r == n
    ensures !StartsWith(n, "+") ==> r == "+91" + n
  {
    if StartsWith(n, "+") then n else "+91" + n
  }

  /** Normalising a normalised number changes nothing: the prefix is added at most once. */
  lemma NormalizeIdempotent(n: string)
    ensures NormalizeNumber(NormalizeNumber(n)) == NormalizeNumber(n)
  {
  }

  /** Normalisation only ever prepends: the number given is the tail of the number sent. */
  lemma NormalizeKeepsDigits(n: string)
    ensures var r := NormalizeNumber(n);
            |n| <= |r| && r[|r| - |n|..] == n
  {
    if !StartsWith(n, "+") {
      assert ("+91" + n)[3..] == n;
    }
  }

  /** `to=f"whatsapp:{to_number}"` after normalisation. */
  function Recipient(n: string): string
  {
    "whatsapp:" + NormalizeNumber(n)
  }

  /** The update text for a status without a template. */
  function FallbackText(order: Order): string
  {
    "Order #" + NatToString(order.id) + " Status Update: " + order.status
  }

  /** The fallback text names the order and its status: both can be read back from it. */
  lemma FallbackIdentifiesOrder(o1: Order, o2: Order)
    requires FallbackText(o1) == FallbackText(o2)
    ensures o1.id == o2.id && o1.status == o2.status
  {
    NumberedTextUnique("Order #", o1.id, " Status Update: ", o1.status, o2.id, o2.status);
  }

  /**
   * The status update body: the status's own template when it has one,
   * otherwise the plain fallback text.
   */
  function StatusUpdateBody(order: Order): (b: MessageBody)
    ensures b.StatusTemplate? <==> order.status in TEMPLATE_STATUSES
    ensures b.StatusTemplate? ==> b.status == order.status && b.order == order
    ensures b.Plain? <==> order.status !in TEMPLATE_STATUSES
    ensures b.Plain? ==> b.text == FallbackText(order)
  {
    if order.status in TEMPLATE_STATUSES then StatusTemplate(order.status, order) else Plain(FallbackText(order))
  }

  /** Two of the order's own status choices have no template and get the fallback text. */
  lemma ShippedAndDeliveredFallBack(order: Order)
    requires order.status == "shipped" || order.status == "delivered"
    ensures IsStatusChoice(order.status)
    ensures StatusUpdateBody(order) == Plain(FallbackText(order))
  {
    assert STATUS_CHOICES[3].0 == "shipped";
    assert STATUS_CHOICES[4].0 == "delivered";
  }

  /** Every item's cake is in the catalog (the item's foreign key). */
  predicate HasCakes(items: seq<OrderItem>, cakes: map<CakeId, Cake>)
  {
    forall i :: 0 <= i < |items| ==> items[i].cake in cakes
  }

  /** One confirmation line without its newline: "• name xqty - ₹amount". */
  function ItemLine(item: OrderItem, cakes: map<CakeId, Cake>, amountText: real -> string): string
    requires item.cake in cakes
  {
    BULLET + " " + cakes[item.cake].name + " x" + NatToString(item.quantity)
      + " - " + RUPEE + amountText(ItemSubtotal(item))
  }

  /** The confirmation's `items_text`: each item's line followed by a newline, in item order. */
  function ItemsText(items: seq<OrderItem>, cakes: map<CakeId, Cake>, amountText: real -> string): string
    requires HasCakes(items, cakes)
  {
    if items == [] then "" else ItemLine(items[0], cakes, amountText) + "\n" + ItemsText(items[1..], cakes, amountText)
  }

  function ItemLines(items: seq<OrderItem>, cakes: map<CakeId, Cake>, amountText: real -> string): (lines: seq<string>)
    requires HasCakes(items, cakes)
    ensures |lines| == |items|
    ensures forall i :: 0 <= i < |items| ==> lines[i] == ItemLine(items[i], cakes, amountText)
  {
    seq(|items|, i requires 0 <= i < |items| && HasCakes(items, cakes) => ItemLine(items[i], cakes, amountText))
  }

  /** Appending an item appends its line: the loop's step. */
  lemma {:induction false} ItemsTextAppend(items: seq<OrderItem>, item: OrderItem, cakes: map<CakeId, Cake>,
                                           amountText: real -> string)
    requires HasCakes(items, cakes) && item.cake in cakes
    ensures HasCakes(items + [item], cakes)
    ensures ItemsText(items + [item], cakes, amountText)
         == ItemsText(items, cakes, amountText) + ItemLine(item, cakes, amountText) + "\n"
    decreases |items|
  {
    var grown := items + [item];
    var last := ItemLine(item, cakes, amountText) + "\n";
    if items == [] {
      assert grown[1..] == [];
      assert ItemsText(grown, cakes, amountText) == last + "";
    } else {
      var head := ItemLine(items[0], cakes, amountText) + "\n";
      assert grown[0] == items[0];
      assert grown[1..] == items[1..] + [item];
      ItemsTextAppend(items[1..], item, cakes, amountText);
      assert ItemsText(grown, cakes, amountText) == head + (ItemsText(items[1..], cakes, amountText) + last);
      assert ItemsText(items, cakes, amountText) == head + ItemsText(items[1..], cakes, amountText);
    }
  }

  /** `items_text` is the item lines joined by newlines with one more newline at the end. */
  lemma {:induction false} ItemsTextIsJoin(items: seq<OrderItem>, cakes: map<CakeId, Cake>, amountText: real -> string)
    requires HasCakes(items, cakes)
    ensures ItemsText(items, cakes, amountText) == Join(ItemLines(items, cakes, amountText) + [""], "\n")
    decreases |items|
  {
    var lines := ItemLines(items, cakes, amountText);
    if items != [] {
      ItemsTextIsJoin(items[1..], cakes, amountText);
      assert ItemLines(items[1..], cakes, amountText) == lines[1..];
      assert (lines + [""])[1..] == lines[1..] + [""];
      assert ItemLine(items[0], cakes, amountText) + "\n" + ItemsText(items[1..], cakes, amountText)
          == (lines + [""])[0] + "\n" + Join((lines + [""])[1..], "\n");
    }
  }

  /**
   * One line per item, in item order: when no cake name and no amount text
   * holds a newline, splitting `items_text` gives back exactly the item lines
   * and the empty text after the last newline.
   */
  lemma ItemsTextLines(items: seq<OrderItem>, cakes: map<CakeId, Cake>, amountText: real -> string)
    requires HasCakes(items, cakes)
    requires forall i :: 0 <= i < |items| ==> '\n' !in ItemLine(items[i], cakes, amountText)
    ensures Split(ItemsText(items, cakes, amountText), '\n') == ItemLines(items, cakes, amountText) + [""]
  {
    var parts := ItemLines(items, cakes, amountText) + [""];
    ItemsTextIsJoin(items, cakes, amountText);
    assert forall i :: 0 <= i < |parts| ==> '\n' !in parts[i] by {
      forall i | 0 <= i < |parts| ensures '\n' !in parts[i] {
        if i < |items| {
          assert parts[i] == ItemLine(items[i], cakes, amountText);
        }
      }
    }
    SplitJoin(parts, '\n');
  }

  /** The `items_text` loop of `send_order_confirmation`. */
  method BuildItemsText(items: seq<OrderItem>, cakes: map<CakeId, Cake>, amountText: real -> string)
    returns (text: string)
    requires HasCakes(items, cakes)
    ensures text == ItemsText(items, cakes, amountText)
  {
    text := "";
    for i := 0 to |items|
      invariant HasCakes(items[..i], cakes)
      invariant text == ItemsText(items[..i], cakes, amountText)
    {
      var item := items[i];
      ItemsTextAppend(items[..i], item, cakes, amountText);
      assert items[..i + 1] == items[..i] + [item];
      var amount := item.price * item.quantity as real;
      assert amount == ItemSubtotal(item);
      var line := BULLET + " " + cakes[item.cake].name + " x" + NatToString(item.quantity)
                  + " - " + RUPEE + amountText(amount);
      assert line == ItemLine(item, cakes, amountText);
      text := text + line + "\n";
    }
    assert items[..|items|] == items;
  }

  class WhatsAppService {
    var accountSid: Option<string>
    var authToken: Option<string>
    var whatsappNumber: Option<string>
    /** Whether a Twilio client was created. */
    var clientEnabled: bool
    var delivered: seq<TwilioMessage>

    /** The client exists exactly when all three credentials are set and non-empty. */
    ghost predicate Valid()
      reads this
    {
      clientEnabled <==> Truthy(accountSid) && Truthy(authToken) && Truthy(whatsappNumber)
    }

    constructor (env: Environment)
      ensures Valid() && delivered == []
      ensures accountSid == env.accountSid && authToken == env.authToken && whatsappNumber == env.whatsappNumber
      ensures clientEnabled <==> Truthy(env.accountSid) && Truthy(env.authToken) && Truthy(env.whatsappNumber)
    {
      accountSid := env.accountSid;
      authToken := env.authToken;
      whatsappNumber := env.whatsappNumber;
      delivered := [];
      if Truthy(env.accountSid) && Truthy(env.authToken) && Truthy(env.whatsappNumber) {
        clientEnabled := true;
      } else {
        clientEnabled := false;
      }
    }

    /** The message the client hands to Twilio for `to` and `body`. */
    function Outgoing(to: string, body: MessageBody): (m: TwilioMessage)
      reads this
      requires whatsappNumber.Some?
      ensures m.recipient == Recipient(to) && m.body == body
    {
      TwilioMessage("whatsapp:" + whatsappNumber.value, body, Recipient(to))
    }

    /**
     * `send_message`: False with nothing sent while the client is disabled;
     * otherwise True exactly when the provider does not raise, and only then
     * is the message delivered.
     */
    method SendMessage(to: string, body: MessageBody, providerRaises: bool) returns (ok: bool)
      requires Valid()
      modifies this`delivered
      ensures ok <==> clientEnabled && !providerRaises
      ensures delivered == if ok then old(delivered) + [Outgoing(to, body)] else old(delivered)
    {
      if !clientEnabled {
        return false;
      }
      var number := to;
      if !StartsWith(number, "+") {
        number := "+91" + number;
      }
      if providerRaises {
        return false;
      }
      delivered := delivered + [TwilioMessage("whatsapp:" + whatsappNumber.value, body, "whatsapp:" + number)];
      ok := true;
    }

    /** `send_order_status_update`: False without a number, otherwise the status body is sent. */
    method SendOrderStatusUpdate(order: Order, providerRaises: bool) returns (ok: bool)
      requires Valid()
      modifies this`delivered
      ensures !Truthy(order.whatsappNumber) ==> !ok && delivered == old(delivered)
      ensures Truthy(order.whatsappNumber) ==>
        && (ok <==> clientEnabled && !providerRaises)
        && delivered == if ok then old(delivered) + [Outgoing(order.whatsappNumber.value, StatusUpdateBody(order))]
                        else old(delivered)
    {
      if !Truthy(order.whatsappNumber) {
        return false;
      }
      var body := if order.status in TEMPLATE_STATUSES then StatusTemplate(order.status, order)
                  else Plain("Order #" + NatToString(order.id) + " Status Update: " + order.status);
      ok := SendMessage(order.whatsappNumber.value, body, providerRaises);
    }

    /**
     * `send_order_confirmation`: False without a number, otherwise the
     * confirmation template is sent with one line per item of the order.
     */
    method SendOrderConfirmation(order: Order, table: seq<OrderItem>, cakes: map<CakeId, Cake>,
                                 amountText: real -> string, providerRaises: bool)
      returns (ok: bool)
      requires Valid() && HasCakes(table, cakes)
      modifies this`delivered
      ensures !Truthy(order.whatsappNumber) ==> !ok && delivered == old(delivered)
      ensures Truthy(order.whatsappNumber) ==>
        var mine := ItemsOf(table, order.id);
        && HasCakes(mine, cakes)
        && (ok <==> clientEnabled && !providerRaises)
        && delivered == if ok then old(delivered) + [Outgoing(order.whatsappNumber.value,
                                                      ConfirmationTemplate(order, ItemsText(mine, cakes, amountText)))]
                        else old(delivered)
    {
      if !Truthy(order.whatsappNumber) {
        return false;
      }
      var mine := ItemsOf(table, order.id);
      var itemsText := BuildItemsText(mine, cakes, amountText);
      ok := SendMessage(order.whatsappNumber.value, ConfirmationTemplate(order, itemsText), providerRaises);
    }
  }
}
