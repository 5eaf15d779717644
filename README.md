# rose_cakes: cart, checkout and order notifications in Dafny

This project models the ordering core of the rose_cakes Django cake shop:

- **Session cart.** A dictionary from cake id to quantity, kept in insertion order. It is changed by `add_to_cart`, `buy_now` and `remove_from_cart`.
- **Totals.** The cart page and the checkout page both add up `price × quantity` over the cart.
- **Checkout.** It covers:
  - the free-delivery threshold and the best special offer;
  - coupon validation and redemption;
  - the early rejections (empty cart, pincode other than 682001, invalid coupon);
  - creation of the Order row, its mock payment reference and one OrderItem per cart entry;
  - emptying the cart.
- **Order confirmation page.** The view looks the order up (404 when missing) and computes `price × quantity` for each of its items. It attaches these subtotals to item objects it then discards and renders only the order; the model returns the subtotals with the page.
- **Order notifications.** These cover:
  - the e-mail and WhatsApp Cloud API messages with their send guards;
  - the Twilio WhatsApp service: client enabling, number normalisation, status templates and confirmation item lines.
- **Records.** Category, Cake, Coupon, Order and OrderItem, with their defaults and text forms.

Modules:

- `Wrappers` and `Text` (`text.dfy`): `Option`, plus the Python string operations the shop relies on: `str()` of a number, `join`, ASCII `upper`, `startswith` and truthiness. The shop never calls `split`; the model defines it only to state that a message's lines come back out of the joined text.
- `Models` (`models.dfy`): the records as datatypes. Money is an exact `real` amount of rupees. `Cents` says an amount has at most two decimal places.
- `Cart` (`cart.dfy`): the cart as a sequence of entries with distinct keys. `Quantity` is its dictionary view.
- `Pricing` (`pricing.dfy`): the totals, delivery charge, offer scan, coupon lookup and discount, redemption and final total. These are specification functions.
- `Orders` (`orders.dfy`): the rows a successful checkout records, and `order.items.all()`.
- `Views` (`views.dfy`):
  - The session and the database are classes whose fields the views update in place.
  - Each view is a method proved against the `Pricing`/`Orders`/`Cart` functions.
  - A `get_object_or_404` miss is the `NotFound` response.
- `Notifications` (`notifications.dfy`): the message formats as functions. The sends are methods of an `Outbox` that appends `Dispatch` values.
- `WhatsApp` (`whatsapp.dfy`): `WhatsAppService` as a class. The messages the provider accepted are recorded in `delivered`.

Parameters replace what the model cannot see:

- `now` replaces `timezone.now()`.
- `discountOf` replaces `SpecialOffer.get_discount_amount`. It is uninterpreted, with no assumed bounds.
- `amountText` replaces `str()` of a Decimal, and `createdText` replaces the formatted local creation time.
- `providerRaises` says whether the Twilio call raises.
- The `Settings`, `SiteSettings` and `Environment` values replace Django settings, the site settings row and the environment variables.

## Model

| member | source | states |
|---|---|---|
| Models.NewCoupon | rose_cakes/models.py:24-31 | a coupon created with only its required fields is active, may be used 100 times and has been used 0 times |
| Models.NewOrder | rose_cakes/models.py:36-57 | a new order's status is "pending", one of the six status choices; its discount is 0, every optional column is empty, and both timestamps are the creation time |
| Models.OrderTextIdentifiesOrder | rose_cakes/models.py:59-60 | "Order {id} - {name}" determines both the order id and the customer name |
| Models.OrderItemTextIdentifiesItem | rose_cakes/models.py:68-69 | "{quantity} x {cake name}" determines both the quantity and the cake's name |
| Cart.IndexOf | rose_cakes/views.py:51 | a found position holds the cake; no position is found exactly when no entry holds it |
| Cart.QuantityAfterUpdate | rose_cakes/views.py:52 | changing one entry's quantity in place changes that cake's quantity and no other, and keeps the keys distinct |
| Cart.QuantityAfterDelete | rose_cakes/views.py:75 | deleting an entry makes that cake's quantity 0 and changes no other |
| Cart.QuantityAfterAppend | rose_cakes/views.py:54 | inserting an absent cake gives it its quantity and changes no other |
| Cart.AddedSpec | rose_cakes/views.py:51-54 | after add_to_cart, the cake's quantity is one more, every other quantity is unchanged, and quantities stay ≥ 1 with distinct keys; the key order is kept, or the new cake is last |
| Cart.RemovedSpec | rose_cakes/views.py:71-75 | after remove_from_cart: a quantity above 1 drops by one with the key order kept; a quantity of 1 deletes the entry; an absent cake leaves the cart identical; other quantities are unchanged and all stay ≥ 1 |
| Cart.BoughtNow | rose_cakes/views.py:63 | after buy_now, the cart holds exactly one unit of the cake and nothing else |
| Cart.PresentIffPositive | rose_cakes/views.py:71-77 | in a cart the views maintain, a cake is present exactly when its quantity is at least 1 |
| Cart.RemoveUndoesAdd | rose_cakes/views.py:49-77 | removing a unit right after adding it restores every quantity |
| Pricing.SubtotalAfterUpdate | rose_cakes/views.py:87-91 | replacing an entry changes the total by the difference of the two line totals, and the item count by the difference of the quantities |
| Pricing.SubtotalAfterDelete | rose_cakes/views.py:87-91 | deleting an entry lowers the total by its line total and the item count by its quantity |
| Pricing.SubtotalAfterAppend | rose_cakes/views.py:87-91 | appending an entry raises the total by its line total and the item count by its quantity |
| Pricing.AddedRaisesTotals | rose_cakes/views.py:49-56 | add_to_cart raises the cart total by exactly the cake's price and the item count by exactly 1 |
| Pricing.RemovedLowersTotals | rose_cakes/views.py:71-77 | remove_from_cart lowers the total by the cake's price and the item count by 1 when the cake is in the cart; otherwise both are unchanged |
| Pricing.UnitMore | rose_cakes/views.py:51-52 | the increment branch keeps every cake listed and raises the total by one unit's price and the item count by 1 |
| Pricing.UnitAppended | rose_cakes/views.py:53-54 | the insert branch keeps every cake listed and raises the total by one unit's price and the item count by 1 |
| Pricing.UnitFewer | rose_cakes/views.py:72-73 | the decrement branch is an in-place update that lowers the total by one unit's price and the item count by 1 |
| Pricing.UnitDeleted | rose_cakes/views.py:74-75 | deleting an entry holding one unit lowers the total by one unit's price and the item count by 1 |
| Pricing.CheckoutDeliveryCharge | rose_cakes/views.py:129 | the checkout delivery charge is 0 exactly when the total is at least 1000, and 100 otherwise |
| Pricing.DeliveryChargeMonotone | rose_cakes/views.py:129 | a larger total never pays a larger delivery charge |
| Pricing.LiveOffers | rose_cakes/views.py:136 | an offer is kept exactly when it is active and its window contains now |
| Pricing.ScanOffers | rose_cakes/views.py:137-142 | the chosen discount is the maximum over qualifying offers and is positive; the chosen offer qualifies and attains it; it beats every earlier qualifying offer strictly, so the first of equals wins; with no choice the discount is 0 |
| Pricing.BestOffer | rose_cakes/views.py:133-142 | a total of 0 or less gives discount 0 and no offer; otherwise the result is the scan's |
| Pricing.FindCoupon | rose_cakes/views.py:166-173 | a found coupon has the code and is active, in its window, and used fewer times than its limit; nothing is found exactly when no coupon is redeemable |
| Pricing.FindCouponIsTheOnlyMatch | rose_cakes/models.py:25 | with unique codes, a redeemable coupon is the one the lookup returns |
| Pricing.CouponDiscountBounds | rose_cakes/views.py:174 | a percentage between 0 and 100 gives a discount between 0 and the total; 100 % is the whole total, and 0 % is nothing |
| Pricing.Redeem | rose_cakes/views.py:175-176 | redeeming raises used_count by exactly 1 and changes no other field |
| Pricing.RedemptionCap | rose_cakes/views.py:172-175 | after k redemptions used_count has risen by k, and the coupon is still redeemable exactly while k < usage_limit − used_count |
| Pricing.FinalTotal | rose_cakes/views.py:181 | final total + coupon discount + offer discount = subtotal + delivery charge |
| Pricing.FinalTotalNotClamped | rose_cakes/views.py:181 | the final total is not clamped: a 500 % coupon on a 100 subtotal gives −300 |
| Pricing.SubtotalCents | rose_cakes/models.py:15 | when every cake price is a two-place decimal, as the price column holds, the cart total is a two-place decimal too |
| Pricing.Lines | rose_cakes/views.py:118-126 | one line per cart entry, in cart order, carrying the cake, the quantity and price × quantity |
| Pricing.QuoteAppliesBestLiveOffer | rose_cakes/views.py:133-144 | no live qualifying offer gives a larger discount than the applied one, and an applied offer is live and qualifying |
| Pricing.CouponOutcomeOf | rose_cakes/views.py:162-179 | an absent or empty code means no coupon; otherwise the uppercased code either matches a redeemable coupon, with discount total × pct / 100, or the checkout is rejected |
| Pricing.CouponCodeCaseInsensitive | rose_cakes/views.py:167 | a code and its uppercase form have the same outcome |
| Orders.ItemsFor | rose_cakes/views.py:215-225 | one item per cart entry, in cart order, with the entry's cake and quantity and the cake's price at that moment |
| Orders.ItemsTotalIsSubtotal | rose_cakes/views.py:215-225 | the recorded items' price × quantity adds up to the cart total at checkout |
| Orders.ItemsOf | rose_cakes/views.py:255 | the order's items are exactly the table rows that belong to it |
| Orders.ItemsOfAppend | rose_cakes/views.py:255 | the items of an order in a grown table are its items in the old rows followed by those in the new rows |
| Orders.ItemsOfNone | rose_cakes/views.py:255 | a table without rows for the order gives no items |
| Orders.ItemsOfAll | rose_cakes/views.py:255 | rows that all belong to the order are all its items |
| Orders.NewOrderItems | rose_cakes/views.py:215-225 | once the checkout has run, `order.items.all()` is exactly the items it created, in cart order |
| Orders.PaymentRef | rose_cakes/views.py:205-212 | the payment reference starts with "order_mock_" |
| Orders.PaymentRefIdentifiesOrder | rose_cakes/views.py:205-212 | distinct orders get distinct payment references |
| Orders.PlacedOrderAccounts | rose_cakes/views.py:181-201 | the order's amount is the items' total − discount_amount + delivery charge; discount_amount is the coupon discount plus the offer discount; the status is "pending" |
| Views.AddToCart | rose_cakes/views.py:47-58 | an unknown cake is a 404 that leaves the cart alone; otherwise the cart becomes `Added` and the view redirects to the cake with a success message |
| Views.BuyNow | rose_cakes/views.py:60-65 | an unknown cake is a 404; otherwise the cart becomes exactly one unit of the cake and the view redirects to checkout |
| Views.RemoveFromCart | rose_cakes/views.py:67-79 | an unknown cake is a 404; otherwise the cart becomes `Removed` and the view redirects to the cart |
| Views.PriceCart | rose_cakes/views.py:87-98 | the loop yields the lines, Σ price × quantity and Σ quantity, or a 404 exactly when some cart cake is not listed |
| Views.ShowCart | rose_cakes/views.py:81-111 | the cart page shows the lines and totals, a delivery charge of 100 whatever the total, and total + 100; with two-place prices both amounts are two-place decimals |
| Views.FindBestOffer | rose_cakes/views.py:137-142 | the loop ends with the discount and offer that `ScanOffers` specifies |
| Views.Checkout | rose_cakes/views.py:113-249 | an unlisted cart cake is a 404; a GET shows `QuoteOf` the cart; a POST with an empty cart, a wrong pincode or an unredeemable coupon code is turned back with nothing written; otherwise exactly the redeemed coupon's count rises by 1 and `RecordOrder`'s writes follow; every response other than a placed order leaves the session and the database unchanged |
| Views.RecordOrder | rose_cakes/views.py:192-227 | exactly one new order row, with the next id and payment reference order_mock_id; the cart's items are appended; the cart is empty; the placed-order page |
| Views.CreateOrderItems | rose_cakes/views.py:215-225 | the item loop appends exactly `ItemsFor(cart)` to the item table |
| Views.FindOrder | rose_cakes/views.py:252 | a found position holds the order id; nothing is found exactly when no order has it |
| Views.OrderConfirmation | rose_cakes/views.py:251-258 | a 404 exactly when no order has the id; otherwise a confirmation page for the order with that id, pairing each of its items with price × quantity (the source computes these but does not pass them to the template) |
| Notifications.EmailDispatch | rose_cakes/notifications.py:9-16 | nothing is mailed exactly when the recipient is missing or empty; otherwise one mail to that recipient, from DEFAULT_FROM_EMAIL, else EMAIL_HOST_USER, else webmaster@localhost |
| Notifications.WhatsAppDispatch | rose_cakes/notifications.py:19-41 | a request is made exactly when token, phone id and recipient are all non-empty; it posts to the Graph v19.0 messages URL for the phone id, with a Bearer token and JSON payload {messaging_product "whatsapp", to, type "text", text.body} |
| Notifications.UrlNamesPhoneId | rose_cakes/notifications.py:25 | the request URL determines the phone-number id |
| Notifications.StatusLabelFallback | rose_cakes/notifications.py:59-67 | a status is shown verbatim exactly when it is not one of the seven labelled statuses; a labelled status shows its label |
| Notifications.ShippedAndDeliveredUnlabelled | rose_cakes/notifications.py:59-67 | the order's own choices "shipped" and "delivered" have no label and are shown as stored |
| Notifications.UserStatusLayout | rose_cakes/notifications.py:69-75 | the user message is its five lines (greeting, id and status label, total, pickup date, thanks) joined by newlines, and splits back into exactly them |
| Notifications.AdminNewOrderLayout | rose_cakes/notifications.py:44-55 | the admin message always ends with "Status: Pending"; it has eight lines, the first "New order #id", with "WhatsApp: -" for a missing number |
| Notifications.AdminEmail | rose_cakes/notifications.py:80 | the site's e-mail when set and non-empty, else EMAIL_HOST_USER |
| Notifications.AdminWhatsApp | rose_cakes/notifications.py:81-84 | the admin number is the site's number when set and non-empty, else none; it never comes from Django settings |
| Notifications.UserNotificationSameBody | rose_cakes/notifications.py:92-96 | a status notification sends at most one mail and one WhatsApp message, both with the same text; the mail goes to a non-empty customer e-mail |
| Notifications.Outbox.SendEmail | rose_cakes/notifications.py:9-16 | the outbox grows by exactly `EmailDispatch` |
| Notifications.Outbox.SendWhatsApp | rose_cakes/notifications.py:19-41 | the outbox grows by exactly `WhatsAppDispatch` |
| Notifications.Outbox.NotifyAdminNewOrder | rose_cakes/notifications.py:78-89 | the admin mail, with subject "New Order #id - Pending", then the admin WhatsApp message, both carrying the admin message |
| Notifications.Outbox.NotifyUserOrderStatus | rose_cakes/notifications.py:92-96 | the customer mail, with subject "Your Order #id Update", then the order's WhatsApp number, both carrying the user message |
| WhatsApp.NormalizeNumber | rose_cakes/whatsapp_service.py:28-29 | the sent number starts with '+'; a number with '+' is unchanged, any other gets "+91" in front |
| WhatsApp.NormalizeIdempotent | rose_cakes/whatsapp_service.py:28-29 | the prefix is added at most once |
| WhatsApp.NormalizeKeepsDigits | rose_cakes/whatsapp_service.py:28-29 | the given number is the tail of the number sent |
| WhatsApp.FallbackIdentifiesOrder | rose_cakes/whatsapp_service.py:69 | "Order #id Status Update: status" determines the order id and the status |
| WhatsApp.StatusUpdateBody | rose_cakes/whatsapp_service.py:53-69 | one of the seven statuses gets its own template; any other gets the fallback text |
| WhatsApp.ShippedAndDeliveredFallBack | rose_cakes/whatsapp_service.py:53-69 | the order's own choices "shipped" and "delivered" get the fallback text |
| WhatsApp.ItemsTextAppend | rose_cakes/whatsapp_service.py:79-81 | each loop step appends that item's line and a newline |
| WhatsApp.ItemsTextIsJoin | rose_cakes/whatsapp_service.py:79-81 | items_text is the item lines joined by newlines, plus a final newline |
| WhatsApp.ItemsTextLines | rose_cakes/whatsapp_service.py:79-81 | items_text splits into exactly one "• name xqty - ₹amount" line per item, in item order |
| WhatsApp.BuildItemsText | rose_cakes/whatsapp_service.py:79-81 | the `+=` loop builds exactly `ItemsText` |
| WhatsApp.WhatsAppService.constructor | rose_cakes/whatsapp_service.py:6-16 | the client is enabled exactly when account SID, auth token and WhatsApp number are all non-empty |
| WhatsApp.WhatsAppService.Outgoing | rose_cakes/whatsapp_service.py:31-35 | the message goes to "whatsapp:" + the normalised number, with the given body |
| WhatsApp.WhatsAppService.SendMessage | rose_cakes/whatsapp_service.py:18-43 | False with nothing sent while the client is disabled; otherwise True exactly when the provider does not raise, and only then is the message delivered |
| WhatsApp.WhatsAppService.SendOrderStatusUpdate | rose_cakes/whatsapp_service.py:45-70 | False with nothing sent without a WhatsApp number; otherwise sends `StatusUpdateBody` |
| WhatsApp.WhatsAppService.SendOrderConfirmation | rose_cakes/whatsapp_service.py:72-102 | False with nothing sent without a WhatsApp number; otherwise sends the confirmation template with the order's item lines |

`Views.Checkout` promises more than the table row says:

- An unlisted cart cake gives a 404.
- A GET renders `QuoteOf` the cart. This is the subtotal, the delivery charge, the best live offer and subtotal − offer discount + delivery.
- A POST with an empty cart, a pincode other than "682001", or a coupon code that matches no redeemable coupon is turned back. Nothing is written, so the coupon count and the cart are untouched.
- Otherwise the redeemed coupon's count is one higher, and the order and items are as in `RecordOrder`. The order's amount is subtotal − coupon discount − offer discount + delivery charge, and its discount_amount is the sum of the two discounts.

## Left out

- Django's ORM, sessions, `render`, `redirect` and `messages`. Tables are sequences and maps in a `Store` object. Responses and flash messages are values.
- The catalog, cake_detail, homepage, search, order_history, register, login and logout views. They only filter and render, or they handle authentication.
- apply_coupon: it stores the code in the session, but the checkout never reads it back, so it has no effect on pricing.
- payment_success: it parses JSON, skips signature verification, sets the order's status to "confirmed" and sends a mail.
- store_admin_app and the admin, URL and context-processor modules.
- Network and mail I/O: `send_mail`, `urlopen`, the Twilio client and JSON byte encoding. A send is a `Dispatch` or `TwilioMessage` value. Failures that the source swallows leave no trace.
- The mock Razorpay `amount` (`int(final_total * 100)`): it is not rendered.
- Decimal rounding when an amount is saved to a two-decimal column, and `max_digits` limits. Computed totals are kept exact.
- `str()` of Decimal and date values, and `strftime` of the creation time. These are the caller's `amountText`, `createdText` and the text form of `pickup_date`.
- The emoji template bodies of the WhatsApp status and confirmation messages. Each is an opaque `StatusTemplate` or `ConfirmationTemplate` value. Only the selection, the fallback and the item lines are spelt out.
- `SpecialOffer.get_discount_amount` and `SiteSettings.get_settings`: they are not part of this model, and appear as the `discountOf` parameter and an optional `SiteSettings` value.
- Concurrent checkouts racing on `Coupon.used_count`: the model is sequential.
- Form fields missing from a POST: name, e-mail and address are strings, and only the pincode and the coupon code may be absent.
- The `__str__` of Category, Cake and Coupon: each returns a single field.
- `upper()`: only ASCII letters are case-mapped.
- The query order of `SpecialOffer.objects.filter(...)` and `order.items.all()`: it is taken to be table order.
- The `print` logging of the Twilio service (rose_cakes/whatsapp_service.py:16-50: missing credentials, a send while disabled, a sent message, send errors, a missing number): it has no effect on results.
- The template reads `order.items.all` again, so the subtotals the confirmation view attaches to its own item objects may not reach the page. The model returns them with the page.
