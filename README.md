# Orders app: stock, orders, users and sessions, modelled in Dafny

The Orders app is a small shop. An ASP.NET minimal API keeps three JSON documents in a blob container: the products, the orders and the users. A React client lets a user pick quantities and place orders, and lets an admin manage products and order statuses. This project models:

- the backend services that read, change and write those documents (`OrderService`, `ProductService`, `UserStore` and `AuthService`);
- the entity records and `Result<T>`;
- the client's order form (`UserOrder.tsx`), which is where the "total must be a multiple of 6" rule lives;
- the client's authentication store (`store.ts`).

Layout, one module per file:

| file | module | models |
|---|---|---|
| `wrappers.dfy` | `Wrappers` | `Option` |
| `entities.dfy` | `Entities` | the records and enums of `Program.cs`; C# `int` as `Int32` with unchecked subtraction |
| `lookup.dfy` | `Lookup` | `FirstOrDefault` by key, `Where(x => x.Id != id)` / `RemoveAll` |
| `storage.dfy` | `Storage` | the three documents: each load yields a copy and each save replaces the whole document; every save is counted |
| `stock.dfy` | `Stock` | the stock check and the decrement of order placement, and what they do to each product |
| `order_views.dfy` | `OrderViews` | `Where(userId).OrderByDescending(CreatedAt)` as a stable sort |
| `order_service.dfy` | `OrderPlacement` | `OrderService` |
| `product_service.dfy` | `ProductCatalog` | `ProductService` |
| `user_store.dfy` | `Users` | `UserStore`: seeding, the lazy cache, lookup ignoring case |
| `auth_service.dfy` | `Auth` | `AuthService.LoginAsync`: credential check, claims, issuer and expiry |
| `results.dfy` | `Results` | `Result<T>` and its two factories |
| `order_form.dfy` | `OrderForm` | the order page: quantity clamp, `submit` |
| `auth_session.dfy` | `Session` | the client's auth store: `decodeRole`, `isTokenExpired`, start-up, `setAuth`, `logout` |

How the model is shaped:

- **Services and stores.** The services are classes over one `DataStore` object. Each method loads a document (a `seq` value), changes its copy and saves it at most once, as the C# does. `PlaceOrder` saves twice, once per document.
- **Loops.** The two `foreach` loops of `PlaceOrderAsync` are the methods `CheckStock` and `SubtractStock`. Each is proved against a specification function (`LinesValid`, `Decrement`), and the lemmas of `Stock` say what those functions mean for every product.
- **Ids.** The GUID strings are an abstract type with equality (`Ident`). A fresh one is passed in by the caller.
- **Time.** The current time is an `int` parameter.

## Model

| member | source | states |
|---|---|---|
| Entities.Sub32 | backend/Orders.Api/OrderService.cs:37 | `p.Quantity -= i.Quantity` in unchecked 32-bit arithmetic: the exact difference when it fits, otherwise that difference shifted by one 2^32 |
| Entities.Sub32IsWrap | backend/Orders.Api/OrderService.cs:37 | the unchecked subtraction is the difference reduced into the 32-bit range (`Wrap32`) |
| Entities.RoleName | backend/Orders.Api/Program.cs:147 | `Role.ToString()` is one of the two member names, "Admin" or "User" |
| Entities.RoleNameRoundTrip | backend/Orders.Api/Program.cs:147 | parsing a role's name gives the role back, and only the two names parse |
| Entities.NewOrder | backend/Orders.Api/Program.cs:180-187 | a new order starts with status ToDo and the creation time, with the given id, user and items |
| Lookup.FirstIndex | backend/Orders.Api/OrderService.cs:29 | `FirstOrDefault` by id: a hit is the first element with the id; a miss means no element has it |
| Lookup.RemoveAll | backend/Orders.Api/OrderService.cs:15 | `Where(o => o.Id != id)`: no survivor has the id; the length drops exactly when some element had it |
| Lookup.RemoveAllContents | backend/Orders.Api/ProductService.cs:31 | removal keeps exactly the elements without the id, with their multiplicities |
| Lookup.RemoveAllAppend | backend/Orders.Api/OrderService.cs:15 | filtering distributes over concatenation, so the relative order of the survivors is kept |
| Lookup.RemoveAllKeepsDistinct | backend/Orders.Api/ProductService.cs:31 | removal keeps a list's ids distinct |
| Lookup.RemoveAllNothing | backend/Orders.Api/OrderService.cs:16 | when the count is unchanged, the list is unchanged |
| Lookup.FirstIndexSameKeys | backend/Orders.Api/OrderService.cs:46 | lists with the same keys position by position give the same lookups |
| OrderPlacement.CheckStock | backend/Orders.Api/OrderService.cs:27-31 | the validation loop accepts exactly when every line names a known product with a positive quantity no larger than that product's quantity as loaded |
| OrderPlacement.SubtractStock | backend/Orders.Api/OrderService.cs:34-38 | the decrement loop yields `Decrement(products, lines)`, the lines applied one after the other |
| OrderPlacement.CheckStockTotals | backend/Orders.Api/OrderService.cs:27-31 | the corrected check: accepts exactly when each product's total over the request is covered (`StockCovers`); it never accepts what the written check refuses |
| OrderPlacement.OrderService.PlaceOrder | backend/Orders.Api/OrderService.cs:21-55 | None with no write, exactly for a null or empty list or a line that fails the check. Otherwise: products become `Decrement`; the returned order is new (ToDo, now, the user) with one item per line, in order, carrying its id, quantity and the product's name; it is appended to the orders; each document is saved once |
| OrderPlacement.OrderService.UpdateStatus | backend/Orders.Api/OrderService.cs:65-73 | false with no write exactly when no order has the id; otherwise only the first order with the id changes, and only its status; one save |
| OrderPlacement.OrderService.DeleteOrder | backend/Orders.Api/OrderService.cs:11-19 | true exactly when some order has the id; the document becomes the old list without every order with that id; saved only on true |
| OrderPlacement.OrderService.GetByUser | backend/Orders.Api/OrderService.cs:57-61 | exactly the user's orders, newest first |
| OrderPlacement.OrderService.GetAll | backend/Orders.Api/OrderService.cs:63 | the stored list as it is |
| OrderViews.OrdersOfContents | backend/Orders.Api/OrderService.cs:60 | `Where(o => o.UserId == userId)` keeps exactly the user's orders, with multiplicities |
| OrderViews.InsertNewestPermutes | backend/Orders.Api/OrderService.cs:60 | one insertion step of the sort adds exactly the inserted order |
| OrderViews.InsertNewestOrdered | backend/Orders.Api/OrderService.cs:60 | inserting into a newest-first list keeps it newest-first |
| OrderViews.InsertNewestAtTime | backend/Orders.Api/OrderService.cs:60 | insertion keeps orders with equal `CreatedAt` in their original relative order |
| OrderViews.AtTimeCons | backend/Orders.Api/OrderService.cs:60 | orders at one instant: the head joins the tail's when its time matches |
| OrderViews.NewestFirstIsOrdered | backend/Orders.Api/OrderService.cs:60 | `OrderByDescending(o => o.CreatedAt)` yields non-increasing creation times |
| OrderViews.NewestFirstPermutes | backend/Orders.Api/OrderService.cs:60 | the sort is a permutation |
| OrderViews.NewestFirstStable | backend/Orders.Api/OrderService.cs:60 | the sort is stable: ties keep storage order |
| OrderViews.ByUserNewestFirstSpec | backend/Orders.Api/OrderService.cs:57-61 | the per-user listing is sorted newest first, is a permutation of the user's orders and keeps ties in storage order |
| Stock.DecrementLine | backend/Orders.Api/OrderService.cs:36-37 | one line keeps the list's length and every id and name |
| Stock.Decrement | backend/Orders.Api/OrderService.cs:34-38 | the decrement keeps the list's length and every id and name |
| Stock.SubForWraps | backend/Orders.Api/OrderService.cs:34-38 | a product ends at its quantity minus the request's total for its id, reduced modulo 2^32 |
| Stock.SumForAbsent | backend/Orders.Api/OrderService.cs:34-38 | lines not naming a product take nothing from it |
| Stock.SumForNonNegative | backend/Orders.Api/OrderService.cs:30 | non-negative line quantities give a non-negative total |
| Stock.SubForExact | backend/Orders.Api/OrderService.cs:34-38 | without overflow, the product ends at exactly its quantity minus the total |
| Stock.DecrementLineAt | backend/Orders.Api/OrderService.cs:36-37 | one line changes only the first product with its id, by an unchecked subtraction |
| Stock.DecrementFirst | backend/Orders.Api/OrderService.cs:34-38 | the first product with an id loses, line after line, every quantity requested for that id |
| Stock.DecrementOthers | backend/Orders.Api/OrderService.cs:36 | a product shadowed by an earlier one with the same id is never touched |
| Stock.DecrementEffect | backend/Orders.Api/OrderService.cs:34-38 | per product: the first with an id ends at its quantity minus the total for that id (mod 2^32), with id and name kept; every other product is unchanged |
| Stock.UnnamedUnchanged | backend/Orders.Api/OrderService.cs:34-38 | a product no line names is unchanged |
| Stock.SumForDistinct | backend/Orders.Api/OrderService.cs:29-37 | with distinct ids, a product's total is its one line's quantity |
| Stock.DistinctTotalCovered | backend/Orders.Api/OrderService.cs:27-31 | with distinct ids, the written check bounds each product's total by its quantity |
| Stock.DistinctLinesKeepStock | backend/Orders.Api/OrderService.cs:29-37 | with distinct ids, the written check is sound: each product ends at exactly its quantity minus its total, and no non-negative stock goes negative |
| Stock.KeptWithinStock | backend/Orders.Api/OrderService.cs:34-38 | a covered, non-negative total is subtracted exactly |
| Stock.CoveredTotal | backend/Orders.Api/OrderService.cs:27-31 | under the corrected check, each product's lines are positive and their total is at most its quantity |
| Stock.CoveredLinesKeepStock | backend/Orders.Api/OrderService.cs:27-38 | under the corrected check, whatever the repetitions, each product ends at exactly its quantity minus its total, and no non-negative stock goes negative |
| Stock.DistinctLinesCovered | backend/Orders.Api/OrderService.cs:27-31 | with distinct ids, the written check and the corrected check agree, in both directions |
| Stock.CoveredLinesValid | backend/Orders.Api/OrderService.cs:27-31 | the corrected check is never looser than the written one |
| Stock.SumForAtLeast | backend/Orders.Api/OrderService.cs:30 | with positive lines, a total is at least any of its lines |
| Stock.RepeatedLinesDriveStockNegative | backend/Orders.Api/OrderService.cs:27-38 | two lines of 3 against a stock of 5 pass the written check, fail the corrected one, and leave the stock at -1 |
| Stock.RepeatedLinesWrapAround | backend/Orders.Api/OrderService.cs:27-38 | three lines of 2147483647 against that stock pass the written check, fail the corrected one, and wrap the stock round to 2 |
| Stock.OrderLines | backend/Orders.Api/OrderService.cs:44-48 | one order item per request line, in order, with the line's product id and quantity and the name of the product found for it |
| Stock.SnapshotNamesAsRead | backend/Orders.Api/OrderService.cs:41-48 | building the items after the decrement gives the same items as before it: names are those read |
| ProductCatalog.ProductService.GetAll | backend/Orders.Api/ProductService.cs:6 | the stored list as it is |
| ProductCatalog.ProductService.Add | backend/Orders.Api/ProductService.cs:8-15 | appends exactly one product with the fresh id and the request's name and quantity, unvalidated; one save; distinct ids stay distinct |
| ProductCatalog.ProductService.Update | backend/Orders.Api/ProductService.cs:17-26 | false with no write exactly when the request has no id or no product has it; otherwise only the first product with the id gets the new name and quantity, and every id is kept |
| ProductCatalog.ProductService.Delete | backend/Orders.Api/ProductService.cs:28-34 | true exactly when some product has the id; the list loses every product with that id; saved only on true |
| Users.FoldedMatches | backend/Orders.Api/UserStore.cs:33 | two logins have the same lower-case fold exactly when they are equal ignoring case, so the search by folded login is the search ignoring case |
| Users.LoginIndex | backend/Orders.Api/UserStore.cs:33 | the first user whose login equals the argument ignoring case, or none when no login matches (the list search of `Lookup.FirstIndex` on folded logins) |
| Users.Seeded | backend/Orders.Api/UserStore.cs:11-18 | after seeding the document is non-empty: unchanged when it had users, else exactly admin then user |
| Users.SeededIdempotent | backend/Orders.Api/UserStore.cs:12-16 | seeding twice gives the document of seeding once |
| Users.SeedLoginsAnyCase | backend/Orders.Api/UserStore.cs:14-15 | for every login: in a freshly seeded document a login equal to "admin" ignoring case finds the admin account, one equal to "user" the user account, and any other login finds nothing |
| Users.UserStore.constructor | backend/Orders.Api/UserStore.cs:6-7 | a new store has no cache |
| Users.UserStore.EnsureSeed | backend/Orders.Api/UserStore.cs:9-19 | the document becomes `Seeded`, written only when it was empty; the cache holds the result |
| Users.UserStore.Load | backend/Orders.Api/UserStore.cs:21-28 | reads the document only while the cache is empty; afterwards returns the cache unchanged |
| Users.UserStore.FindByLogin | backend/Orders.Api/UserStore.cs:30-34 | the first cached user matching the login ignoring case |
| Users.UserStore.GetAll | backend/Orders.Api/UserStore.cs:36-39 | the cached list, loading it on first use |
| Auth.Authenticate | backend/Orders.Api/AuthService.cs:22-25 | succeeds exactly when a user matches the login ignoring case and that user's password equals the given one exactly |
| Auth.IssueToken | backend/Orders.Api/AuthService.cs:27-40 | the token carries the service's issuer and expires `TokenLifetime` (8 hours) after issuance; it has three claims, the first naming the user's id |
| Auth.TokenNamesUser | backend/Orders.Api/AuthService.cs:27-40 | the claims read back as the user's id, login and role; the issuer is the service's; expiry is 8 hours after issuance |
| Auth.SeededCredentials | backend/Orders.Api/AuthService.cs:21-25 | on a freshly seeded document a login and password are accepted exactly when they are "admin"/"admin" or "user"/"user", the login in any letter case and the password exactly |
| Auth.AuthService.constructor | backend/Orders.Api/AuthService.cs:11-17 | the issuer is the configured one, "OrdersApp" when unset |
| Auth.AuthService.Login | backend/Orders.Api/AuthService.cs:19-42 | seeds first; a token exactly when `Authenticate` succeeds, carrying id, login and role name, the issuer and an 8-hour expiry |
| Results.Success | backend/Orders.Api/Result.cs:18 | succeeded, with the value and no error |
| Results.Failure | backend/Orders.Api/Result.cs:20 | failed, with the error and no value |
| Results.FactoriesCoverShapes | backend/Orders.Api/Result.cs:11-20 | every result of the two shapes is exactly one factory's output |
| Results.FactoriesDistinct | backend/Orders.Api/Result.cs:18-20 | a success is never a failure, and each factory is injective |
| OrderForm.Clamp | frontend/src/pages/UserOrder.tsx:83-86 | `min(stock, max(0, n))`: within [0, stock] for non-negative stock, and the input itself when already in range; NaN stays NaN |
| OrderForm.PutSpec | frontend/src/pages/UserOrder.tsx:81-87 | the object spread sets the key, leaves other keys as they were, keeps key order (a new key goes last) and keeps keys distinct |
| OrderForm.LinesOf | frontend/src/pages/UserOrder.tsx:18-20 | exactly the selections with a positive quantity become lines |
| OrderForm.TotalPositive | frontend/src/pages/UserOrder.tsx:23 | positive lines have a positive total |
| OrderForm.SubmitDecisionSpec | frontend/src/pages/UserOrder.tsx:17-30 | nothing happens without lines; a total that is not a multiple of 6 is refused; a request goes out only for a positive multiple of 6 |
| OrderForm.FailureText | frontend/src/pages/UserOrder.tsx:36-47 | the error shown is the response's `message`, else its `error`, else the default text when both are empty; never empty |
| OrderForm.OrderPage.constructor | frontend/src/pages/UserOrder.tsx:6-10 | the page starts with no selection, no message and no requests |
| OrderForm.OrderPage.Change | frontend/src/pages/UserOrder.tsx:80-88 | the product's selection becomes the clamped input, and every other selection is kept |
| OrderForm.OrderPage.Submit | frontend/src/pages/UserOrder.tsx:17-49 | no lines: no change; bad total: error message, no request; otherwise one request with the lines, then a cleared selection and a success message, or the failure text with the selection kept |
| Session.RoleIndex | frontend/src/store.ts:23 | the position of the first claim equal to "Admin" or "User", or none exactly when no claim is (the list search of `Lookup.FirstIndex`) |
| Session.FirstRole | frontend/src/store.ts:23-24 | `roles.find(...)`: the first accepted role claim |
| Session.RoleClaimRoundTrip | frontend/src/store.ts:15-28 | a token whose role claim names a role decodes to that role, under either claim key |
| Session.MsKeyShadowsRole | frontend/src/store.ts:18-22 | the Microsoft role key is preferred: when it is present, "role" is not consulted |
| Session.DecodeRole | frontend/src/store.ts:15-28 | an undecodable token has no role; a decoded one has a role exactly when one of the claims searched (the Microsoft key's if present, else "role"'s) is "Admin" or "User", and the role is the first such claim |
| Session.IsTokenExpired | frontend/src/store.ts:32-41 | the three cases of `isTokenExpired`: undecodable is expired, no (or zero) `exp` is never expired, otherwise expired exactly when `exp < now`; this contract only spells out the cases, and its partners are `ExpiryMonotone` and `IssuedTokenLifetime` |
| Session.ExpiryMonotone | frontend/src/store.ts:32-41 | an expired token stays expired later |
| Session.IssuedTokenLifetime | frontend/src/store.ts:32-41 | a token carrying the expiry the backend issued (AuthService.cs:39) is live up to and including 8 hours after issuance and expired at every later second |
| Session.AuthStore.constructor | frontend/src/store.ts:30-54 | a truthy expired saved token is removed, with no token and no role; otherwise the saved token is kept, with its decoded role; login starts empty |
| Session.AuthStore.SetAuth | frontend/src/store.ts:55-63 | an expired token clears all three fields and the stored token; otherwise the token is stored and set with the login and the supplied role, or the decoded one |
| Session.AuthStore.Logout | frontend/src/store.ts:64-67 | token, role, login and the stored token are all cleared |

## Left out

- Blob I/O, JSON serialisation and the ETag conditional write (`JsonBlobStore.cs`, `ProductStore.cs`, `OrderStore.cs`, `ListWithETag.cs`). The services use neither version tags nor retries, so a save is an unconditional replacement of an in-memory `seq`. Loading a missing blob is not distinguished from loading an empty list.
- GUID generation. A fresh `Ident` is a parameter. `ProductService.Add` requires it to be absent from the list, standing for the uniqueness of a new GUID. `PlaceOrder` and `EnsureSeed` take their ids the same way, without that precondition, because their lists are not looked up by the new id.
- `DateTime.UtcNow` and `Date.now()`. Time is an `int` parameter in seconds. `isTokenExpired` floors milliseconds to seconds, and that conversion is not modelled.
- JWT construction, HMAC-SHA256 signing and serialisation. The token is the record of its issuer, claims and expiry. `Jwt:Key` is not modelled.
- `base64`/`JSON.parse` in the client store. A token is modelled as its raw text plus an optional decoded payload; None stands for a token that does not decode. Payload claims that are a single string rather than an array are modelled as one-element lists, which is what `concat` produces.
- Users.EqualsIgnoreCase: folds ASCII letters only, not the full Unicode `OrdinalIgnoreCase` folding.
- Results: the C# `default` of `Value` on failure, and the null `Error` on success, are both modelled as None.
- OrderForm.Clamp: JavaScript numbers are modelled as integers or NaN. Fractions, `parseInt`'s own parsing and doubles beyond 2^53 are not modelled; the parsed input is a parameter.
- OrderForm.OrderPage.Submit: `Object.entries` is modelled as insertion order. JavaScript lists integer-like keys first, and product ids are GUID hex strings that are practically never integer-like.
- OrderForm.OrderPage.Submit: the product reload after a successful order (`load()`) and the network request itself are not modelled. The request is recorded in `requests`, and its outcome is the `reply` parameter.
- Products and orders are C# records, that is, reference objects. The services mutate the one found in the list in place. The model replaces the element of a `seq` value instead. That is equivalent here because each loaded list is a fresh copy that no other code holds.
- OrderPlacement.OrderService.PlaceOrder: a request whose item list holds `null` (JSON `{"items":[null]}` deserialises to such a list) makes the validation loop throw a `NullReferenceException` on `i.ProductId` (OrderService.cs:29), an HTTP 500; the model's lines are never null, so that exception path is dropped.
- Entities: C# enums hold any integer, and no enum converter restricts the JSON input (Program.cs:71-74). An `OrderStatus` such as 7 can be stored through `UpdateStatusAsync` (OrderService.cs:70), and a stored `Role` outside the two members prints as its number in `Role.ToString()` (AuthService.cs:31). `OrderStatus` and `Role` are modelled with only their declared members, so neither case is represented.
- Concurrency. The services are singletons that do unsynchronised read-modify-write across requests. Each call is modelled as atomic.
- The older duplicate services in `Program.cs` (lines 196-453) are not part of this model, and neither are the HTTP endpoints, the authorisation policies, CORS or Swagger.
- React rendering and routing, the axios client and the stale `frontend/frontend/` tree.

## Findings

| source | as written | input that shows it | evidently intended | confidence | as-written member | corrected member |
|---|---|---|---|---|---|---|
| backend/Orders.Api/OrderService.cs:27-38 | Each request line is checked alone against the stock as loaded, and then all lines are subtracted. Repeated lines for one product are never added up. | A product with quantity 5 and a request with two lines of 3 for it: both lines pass, and the stock becomes -1. Three lines of 2147483647 against a stock of 2147483647 pass too, and the unchecked subtraction wraps the stock round to 2. | A request passes only when each product's total over its lines is covered by the stock, so no stock goes negative. `Stock.DistinctLinesCovered` shows this agrees with the written check whenever the ids are distinct. | not executed | Stock.RepeatedLinesDriveStockNegative | Stock.CoveredLinesKeepStock |

`OrderService.PlaceOrder` models the check as written (`CheckStock`, `LinesValid`). The corrected check is `Stock.StockCovers`, computed by `OrderPlacement.CheckStockTotals`, and `Stock.CoveredLinesKeepStock` proves the intended property of it.
