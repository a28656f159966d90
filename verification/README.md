# Storefront API core, modelled in Dafny

This project models the request handlers of a small storefront REST API:

- **orders**, whose payment history (`payHistory`) is a ledger of gateway transactions;
- **users**, whose stored verification token is never shown;
- **authentication**: `login` issues a token, `verify` confirms an email;
- the **catalogue** of products, categories and departments, which only administrators may change.

Each file follows one controller:

| file | module | controller |
|---|---|---|
| `common.dfy` | `Common` | shared vocabulary: optional fields, `APIError` and its HTTP statuses, the administrator guard, the unwrapping at the end of every `publicize`, and the paging defaults of `list` |
| `ledger.dfy` | `Ledger` | the pure logic of `order.controller.js`: `checkStatus`, the entry `create` writes, the decisions of `update`, and the note `remove` writes |
| `order.dfy` | `Orders` | the order document as a class, with the `create`, `update` and `remove` handlers that change it in place; `publicize`; `list` |
| `user.dfy` | `Users` | `user.controller.js`: `publicize`, `create`, `update` |
| `auth.dfy` | `Auth` | `auth.controller.js`: `login`, `verify` |
| `product.dfy` | `Products` | `product.controller.js` |
| `category.dfy` | `Categories` | `category.controller.js`, including the batch creation a department uses |
| `department.dfy` | `Departments` | `department.controller.js` |

Some things the handlers do are outside the model, so they enter as parameters:

- **Pricing.** The price helper is a function `price: Cart -> Quote`. Amounts are whole cents, so `Math.round(x * 1e2) / 1e2` is exact.
- **Gateway.** Each payment-gateway answer is a parameter. Each gateway request is returned as a `GatewayCall` value.
- **Database saves.** The outcome of each category save is a `SaveResult`.
- **Other services.** The uuid, the password comparison `user.comparePassword` and the clock are parameters too. The user schema shown defines no `comparePassword` method, so that comparison is not part of this model.

Two handler outcomes need explaining:

- **Errors.** An error passed to `next` is an `ApiError` value. `update` can report several errors in one run, so it returns them as a sequence; `verify` uses a sequence too, but reports at most one error, because the crash at server/auth/auth.controller.js:49 that would follow "Token Invalid" is not captured.
- **Crashes.** Sometimes a handler would crash on `undefined`, for example on an order with an empty ledger. The model then says that nothing is saved and no reply is sent. Errors passed to `next` before the crash are still reported: `update` with `finalize` on an empty ledger reports "Order has not been authorized." and then dies.

## Model

| member | source | states |
|---|---|---|
| Common.AdminGuard | server/product/product.controller.js:70-71 | a caller passes the guard exactly when `req.user.isAdmin`; otherwise the error is UNAUTHORIZED "Must be Administrator" |
| Common.Unwrap | server/order/order.controller.js:19 | a one-element array is answered as its sole element, any other array as itself |
| Common.Paging | server/order/order.controller.js:259 | a missing `limit` becomes 50 and a missing `skip` becomes 0; given values are kept |
| Common.ChooseQuery | server/category/category.controller.js:141-147 | a fuzzy name search runs exactly when `q` is present, on the text of `q`; both paths page the same way |
| Ledger.StatusOf | server/order/order.controller.js:123-147 | each of the four flags is raised exactly when some ledger entry carries its label: 'Placed' (authorized), 'Completed' (paid), 'Partial Refund' (refunded), 'Cancelled' (cancelled) |
| Ledger.CheckStatus | server/order/order.controller.js:123-147 | the loop over `payHistory` yields exactly the flags of `StatusOf` |
| Ledger.HasIffStatus | server/order/order.controller.js:131-144 | a label is in the ledger exactly when it is among the ledger's set of statuses |
| Ledger.StatusOfDependsOnStatuses | server/order/order.controller.js:123-147 | two ledgers with the same set of statuses give the same flags, whatever the order or repetition of entries |
| Ledger.StatusOfPermutation | server/order/order.controller.js:123-147 | reordering the ledger never changes the flags |
| Ledger.AppendNeverLowersFlags | server/order/order.controller.js:123-147 | appending entries to a ledger never lowers a flag |
| Ledger.StatusOfSnoc | server/order/order.controller.js:130-145 | appending one entry raises exactly the flag of its label and leaves the others |
| Ledger.OpeningEntry | server/order/order.controller.js:97-108 | the entry `create` writes is 'Placed' exactly when the gateway approved, and otherwise the gateway's raw answer; its reference copies created, token, id, amount and auth code from the answer |
| Ledger.OpeningFlags | server/order/order.controller.js:97-108 | a new order is authorized exactly when its authorization was approved, and is never paid, refunded or cancelled |
| Ledger.UpdateErrors | server/order/order.controller.js:183-194 | `update` reports "previously cancelled" exactly when the order is cancelled, "not authorized" exactly when it is not authorized, and "Cannot finalize paid transaction" exactly when it is paid and finalize was sent; nothing else; in that order (a cancellation first, a paid finalize last); no error exactly when all three checks pass |
| Ledger.Change | server/order/order.controller.js:168-169 | the amount of a partial refund is the new total minus the old total |
| Ledger.PlanUpdate | server/order/order.controller.js:154-250 | what `update` does as written: the errors; 'Edited' exactly when authorized, unpaid and no finalize; a partial refund of the change against the last entry's token exactly when paid and the quote changed; a finalize of the new total with the last entry's token and auth code exactly when unpaid, finalize sent and the ledger non-empty; a new entry exactly when a gateway call was approved, with its label and amounts; no save only when the finalize branch meets an empty ledger |
| Ledger.FinalizeValueIgnored | server/order/order.controller.js:159 | only the presence of `finalize` matters: `finalize: false` behaves like `finalize: true` |
| Ledger.PlainEditCallsNoGateway | server/order/order.controller.js:195-197 | an edit of an authorized, unpaid order without finalize is marked 'Edited', calls no gateway, appends nothing and is saved |
| Ledger.UpdateFlags | server/order/order.controller.js:195-240 | after one update, authorized and cancelled are unchanged; paid is raised only by an approved finalize; refunded is raised only by an approved partial refund |
| Ledger.PaidIsPermanent | server/order/order.controller.js:191-240 | a paid order stays paid after any update, and the only gateway call it can cause is a partial refund |
| Ledger.CancelNote | server/order/order.controller.js:278-280 | `remove` notes 'Cancelled' exactly when the full refund answered 204, and otherwise the raw answer |
| Ledger.CancelledOrderStillFinalizes | server/order/order.controller.js:183-186 | as written, a ledger holding only an approved opening entry, which is all `remove` leaves in `payHistory` after a cancellation, passes every check of a finalizing update and is sent to the gateway for finalizing |
| Ledger.DeclinedOrderStillCompleted | server/order/order.controller.js:187-190 | as written, an order whose authorization was declined still gets a 'Completed' entry when finalized, while "not authorized" is reported |
| Ledger.CancelLedger | server/order/order.controller.js:278-280 | corrected cancellation: a 204 full refund appends exactly one 'Cancelled' ledger entry, carrying the last transaction's reference, so the order reads as cancelled; any other answer leaves the ledger as it was |
| Ledger.PlanGuardedUpdate | server/order/order.controller.js:183-194 | corrected update: exactly one error is reported when a check fails, and it is the first failed check in source order (cancelled, then not authorized, then paid and finalize); then nothing is edited, called, appended or saved; otherwise the update proceeds exactly as written |
| Ledger.CorrectedCancelBlocksUpdate | server/order/order.controller.js:183-186 | with both corrections, an update of a cancelled order is rejected with "previously cancelled" and reaches no gateway |
| Orders.Order.constructor | server/order/order.controller.js:87-110 | the new order holds the body's cart and comments, the quote's subtotal and tax, an empty status list and the given opening entry |
| Orders.Order.Create | server/order/order.controller.js:72-117 | `create` asks the gateway to authorize the priced total with the card details; the new order's ledger is exactly the opening entry; it is authorized exactly when approved; subtotal and tax come from the quote |
| Orders.Order.Update | server/order/order.controller.js:154-250 | the errors, the gateway call and the save are those of `PlanUpdate`; the ledger gains the plan's entry; 'Edited' is appended to the status list as planned; cart, subtotal and tax change only when the quote changed and the order is saved; the comments are taken from the body whenever it is saved; the owner is never changed |
| Orders.Order.Remove | server/order/order.controller.js:269-291 | an empty ledger changes nothing; otherwise the last transaction is fully refunded, its outcome is appended to the status list and nothing else changes, and the answer is `{deleted: true, deletedOrder}` for an administrator and the saved order for anyone else |
| Orders.CancelThenFinalize | server/order/order.controller.js:269-291 | as written, an order created with an approved authorization and then removed by its owner with a 204 refund is noted 'Cancelled'; a later update with `finalize` reports no error and asks the gateway to finalize the original transaction |
| Orders.Publicize | server/order/order.controller.js:14-20 | every order loses `comments` and nothing else; the answer is the unwrapped array |
| Orders.List | server/order/order.controller.js:258-263 | paging defaults apply; as written, the found orders are answered unredacted |
| Users.Publicize | server/user/user.controller.js:9-16 | the password is dropped; a verification is present exactly when one was stored, reads 'verified' exactly when it was 'verified', and otherwise reads 'unverified'; all other fields are copied |
| Users.PublicizeHidesToken | server/user/user.controller.js:12-14 | a pending verification token never appears in a redacted user |
| Users.PublicizeIdempotent | server/user/user.controller.js:9-16 | redacting twice is the same as redacting once |
| Users.User.constructor | server/user/user.controller.js:62-73 | the new user takes the body's fields, with `businessInfo` stored as `business`, `addressInfo` as `address`, and the token as `verification` |
| Users.User.Update | server/user/user.controller.js:86-94 | only email and phone change; the answer is the redacted user |
| Users.Create | server/user/user.controller.js:61-78 | the stored user carries the body's fields and the fresh token; the answer is the redacted user, which has no password and reads 'unverified' |
| Auth.Lower | server/auth/auth.controller.js:23 | lower-casing keeps the length, maps each character through the ASCII case map and leaves no upper-case letter |
| Auth.LowerIdempotent | server/auth/auth.controller.js:23 | lower-casing twice is lower-casing once |
| Auth.FindOne | server/auth/auth.controller.js:23 | the lookup finds an account with exactly that email, and finds nothing exactly when no account has it |
| Auth.Login | server/auth/auth.controller.js:20-44 | "User Not Found" exactly when no account has the lower-cased email; a comparison error is passed on unchanged; "Password Does Not Match" exactly when the comparison says no; otherwise a token signed over the stored email when that email is non-empty, and "Authentication error" (UNAUTHORIZED) when it is empty |
| Auth.LoginIgnoresCase | server/auth/auth.controller.js:23 | logging in with the lower-cased email gives the same answer as with the email as typed |
| Auth.Verify | server/auth/auth.controller.js:46-55 | a missing user is reported as "Token Invalid"; success exactly when the route token equals the stored verification; on success the verification becomes 'verified', nothing else changes and the redacted user reads 'verified'; on a mismatch "Verification Error" is reported and the user is unchanged |
| Products.Product.constructor | server/product/product.controller.js:72-82 | the new product holds exactly the eight body fields and its creation time |
| Products.Product.Overwrite | server/product/product.controller.js:97-105 | exactly the eight body fields are overwritten; the creation time is kept |
| Products.Create | server/product/product.controller.js:69-86 | a product is built from the body exactly when the caller is an administrator; otherwise UNAUTHORIZED |
| Products.Update | server/product/product.controller.js:94-110 | an administrator overwrites exactly the eight fields; anyone else gets UNAUTHORIZED and the product is untouched |
| Products.Remove | server/product/product.controller.js:129-136 | the product is removed and returned exactly when the caller is an administrator |
| Products.Publicize | server/product/product.controller.js:11-18 | every product loses `comments` and `taxExempt` and nothing else; the answer is the unwrapped array |
| Products.List | server/product/product.controller.js:118-123 | paging defaults apply; as written, the found products are answered unredacted |
| Products.ListRedacted | server/product/product.controller.js:118-123 | corrected list: every listed product loses `comments` and `taxExempt` and nothing else, as in `publicize` |
| Categories.Category.constructor | server/category/category.controller.js:60-64 | the new category holds the given id and exactly code, name and comments |
| Categories.Create | server/category/category.controller.js:57-69 | a category is built exactly when the caller is an administrator |
| Categories.Update | server/category/category.controller.js:120-131 | an administrator overwrites exactly code, name and comments; anyone else gets UNAUTHORIZED and the category is untouched |
| Categories.Remove | server/category/category.controller.js:154-161 | the category is removed and returned exactly when the caller is an administrator |
| Categories.Publicize | server/category/category.controller.js:11-17 | every category loses `comments` and nothing else; the answer is the unwrapped array |
| Categories.List | server/category/category.controller.js:140-148 | a fuzzy search runs exactly when `q` is present; paging defaults apply; the found categories are answered as they are |
| Categories.CreationFailed | server/category/category.controller.js:83 | a failed save rejects with BAD_GATEWAY and never with the "not fully created" error |
| Categories.CreateCategory | server/category/category.controller.js:71-91 | it resolves exactly when the save succeeds, with the new id and only code and name (no comments), and otherwise rejects with BAD_GATEWAY |
| Categories.StoredDocs | server/category/category.controller.js:93-112 | the stored categories are at most one per input, and exactly one per input when every save succeeds |
| Categories.StoredDocsSnoc | server/category/category.controller.js:93-112 | one more input adds its category to the stored ones exactly when its save succeeded |
| Categories.CreateByDepartmentArray | server/category/category.controller.js:93-112 | it resolves exactly when every save succeeds, with the new ids in input order; otherwise it rejects with the first failure's BAD_GATEWAY; the count check never fires; the stored categories are exactly those that saved |
| Departments.Department.constructor | server/department/department.controller.js:61-66 | the new department holds the body's code, name and comments and the given category ids |
| Departments.Create | server/department/department.controller.js:58-71 | a non-administrator gets UNAUTHORIZED and nothing is stored; for an administrator, the body's categories are created first; a department is built exactly when all of them saved, with their ids in order; otherwise the first failed save's BAD_GATEWAY rejection (never "not fully created") escapes the handler |
| Departments.Update | server/department/department.controller.js:79-90 | an administrator overwrites exactly code, name and comments and keeps the categories; anyone else gets UNAUTHORIZED and the department is untouched |
| Departments.Remove | server/department/department.controller.js:113-120 | the department is removed and returned exactly when the caller is an administrator |
| Departments.Publicize | server/department/department.controller.js:12-18 | every department loses `comments` and nothing else; the answer is the unwrapped array |
| Departments.List | server/department/department.controller.js:99-107 | a fuzzy search runs exactly when `q` is present; paging defaults apply; the found departments are answered as they are |

## Left out

**Missing or out-of-scope source**

- The price and tax helper `productCtrl.getTaxInfo` is not part of this model; the product controller does not define it. Pricing is a total function `price`, so its failure path is not modelled: a rejected price becomes an `Error` object whose `total` is undefined.
- `payments.js` is not part of this model. Gateway requests are returned as values and gateway answers are parameters. `refundPartial` and `refundFull` are not defined there.
- The `Order` schema is not part of this model. It does not declare `payHistory`, `subtotal` or `tax` (server/order/order.model.js:10-50). Yet `create` writes `subtotal` and `tax` (server/order/order.controller.js:83-84) and `update` rewrites them (:241-242). The model treats all three as stored fields.
- Not modelled, because they are plumbing rather than handler logic:
  - routing and the parameter loaders (`load`, `loadByUUID`, `loadByCode`, `loadByTag`, `loadByVerificationToken`);
  - the `get` handlers;
  - request validation;
  - the Firebase token check;
  - `appendUser`;
  - mail;
  - the image controller;
  - `getRandomNumber`;
  - logging.
- Not modelled, because they only pass a database query through: the user controller's `list` and `remove` handlers.

**Simplified behaviour**

- `Orders.Order.Create`: a body without `paymentInfo` is not modelled. The request validation makes it optional, but `create` reads `req.body.paymentInfo.cardNumber` outside its `try` block (server/order/order.controller.js:90), so such a request throws before the gateway is called: nothing is authorized, saved or answered. The model's `OrderBody` always carries card details.
- `Orders.Order.Create`: the owner id is a parameter. A failed user lookup, which stores an `Error` object as the owner, is not modelled. The card fields are passed through unchanged.
- Mongoose semantics are not modelled:
  - the `in` and `delete` operators on documents;
  - `toObject`, beyond the field-by-field view `Doc()`;
  - whether `save()` or `remove()` succeeds.
- A save that fails is not modelled; every save is taken to succeed, except for the category saves that `createByDepartmentArray` awaits.
- Concurrency is not modelled. `createByDepartmentArray` is modelled one save after another: the rejection is the first failure by input position. With real promises it is whichever failure settles first.
- `Auth.Lower`: case mapping covers the ASCII letters only, not the full Unicode mapping of `toLowerCase`.
- `Users.Create`: the user schema (server/user/user.model.js:9-63) is not applied. It declares no `password` path, so a strict schema would drop the password. It marks `email` `lowercase`, so the stored email would be lower-cased. It requires a `uid` that `create` never sets, so the save would be rejected. The model stores the fields exactly as the controller assigns them at server/user/user.controller.js:62-73, as it does for the order's undeclared fields.
- `Users.Create`: requires the token to be 36 characters long (`HasUuidLength`), the canonical form of a v4 uuid. Randomness and the uuid's internal structure are not modelled.
- `Auth.Login`: the password check is the oracle `Comparison`; the signing secret is not modelled, and the token is the signed payload. A request without an email, which throws on `toLowerCase`, is not modelled.
- `Auth.Verify`: the `save()` after verification is not awaited by the handler and is not modelled.

**Where the code contradicts itself (the model follows what runs)**

- `update` checks for a cancelled order by looking for a 'Cancelled' entry in `payHistory` (server/order/order.controller.js:183-186). `remove` is the only handler that cancels, and it writes its 'Cancelled' note to `order.status` instead (:279). Its TODO (:274-277) says the refund rules of `update` are still to be applied. The model keeps the note on `status`; see the findings.
- The order validation accepts a `payOption` field, commented "InStore, WithCard" (config/param-validation.js:192). No handler reads it, so in-store payment is not modelled: every order is authorized against a card.

## Findings

| source | as written | input that shows it | evidently intended | confidence | as-written member | corrected member |
|---|---|---|---|---|---|---|
| server/order/order.controller.js:279 | `remove` records 'Cancelled' in `order.status`, while `checkStatus` reads only `payHistory`, so an order cancelled with a 204 refund never reads as cancelled | an approved order, then `remove` answered 204, then `update` with `finalize: true`: no error, and the gateway is asked to finalize the refunded transaction | the cancellation is a ledger entry, so that the later update is rejected as "previously cancelled" | high (not executed) | Orders.CancelThenFinalize | Ledger.CancelLedger |
| server/order/order.controller.js:183-194 | the three checks call `next(error)` without returning, so the branches below them still run and the order is saved | an order whose authorization was declined, then `update` with `finalize: true` and an approving gateway: "not authorized" is reported, yet a 'Completed' entry is appended | the handler stops at the first failed check, with no gateway call and no save | high (not executed) | Ledger.DeclinedOrderStillCompleted | Ledger.PlanGuardedUpdate |
| server/product/product.controller.js:121 | `list` passes `new Array(products)` to `publicize`, a one-element array whose element is the result list, so no product is redacted and the list comes back as found. The same call appears at server/order/order.controller.js:261, server/category/category.controller.js:143 and :146, and server/department/department.controller.js:102 and :105; `Orders.List`, `Categories.List` and `Departments.List` model those as written | any product list with an administrator comment: the comment and the tax-exemption code are answered | every listed product is redacted as in `publicize` | high (not executed) | Products.List | Products.ListRedacted |
