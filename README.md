# A verified model of the shop's ordering core

This project is a Dafny model of the core of a small e-commerce shop. The shop has two parts: a Django REST backend and a React/Redux client.

On the backend it models:

- the database tables, with their defaults, `__str__` renderings and `on_delete` rules;
- the serializers that turn rows into JSON;
- the views that place orders, show orders, manage products and images, and create, update and delete users.

The database is a value of maps from ids to rows. A `Backend` object holds that value and the next free id of every table, and its methods update both in place, as the views do through `save()`.

On the client it models:

- the user thunks of both copies of `userAction.jsx`. One `Client` class covers both; it appends to a dispatch log and a request log and updates a storage map.
- the store's seeding from `localStorage`, with `JSON.parse` and `JSON.stringify` as a parser and printer proved inverse;
- the signup and login forms. Their validators are explicit character predicates, and each form is a class whose maps are updated one key at a time;
- the order page's totals and the payment step's order;
- the product images and the stock panel;
- the checkout steps;
- the route table the screens navigate into.

Money on the server is whole hundredths. It is rendered the way the serializers send `DecimalField`s, as text like `"12.50"`. On the client, numbers are exact reals or `NaN`, and `Number(...)` is defined on the texts the server sends.

The payment step opens with the method `PaymentScreen.InitialMethod`, "Cash On Delivery".

Modules:

| module | file | models |
|---|---|---|
| `Wrappers` | wrappers.dfy | `Option` and `Result` |
| `Text` | text.dfy | whitespace, `trim`, `split`, integer rendering, UTF-16 length |
| `Json` | json.dfy | JSON values, `JSON.stringify`, `JSON.parse`, truthiness, property access |
| `JsNumber` | js_number.dfy | `Number(...)`, `+`, `*`, `x || 0`, `reduce` sums |
| `Models` | models.dfy | backend/ecommerce/project/app/models.py |
| `Serializers` | serializers.dfy | backend/ecommerce/project/app/serializer.py |
| `Views` | views.dfy | backend/ecommerce/project/app/views.py |
| `UserActions` | user_actions.dfy | frontend/app/src/action/userAction.jsx and action/userAction.jsx |
| `Store` | store.dfy | frontend/app/src/store.jsx |
| `FormRules` | forms.dfy | the email and password regular expressions |
| `SignupScreen` | signup_screen.dfy | SignupScreen.jsx |
| `LoginScreen` | login_screen.dfy | LoginScreen.jsx |
| `OrderScreen` | order_screen.dfy | OrderScreen.jsx |
| `PaymentScreen` | payment_screen.dfy | PaymentScreen.jsx |
| `ProductListScreen` | product_list_screen.dfy | ProductListScreen.jsx |
| `ProductScreen` | product_screen.dfy | ProductScreen.jsx |
| `ProductDetails` | product_details.dfy | ProductDetails.jsx |
| `CheckoutSteps` | checkout_steps.dfy | CheckoutSteps.jsx |
| `Routes` | routes.dfy | App.js |

## Model

| member | source | states |
|---|---|---|
| Models.CreateProduct | backend/ecommerce/project/app/models.py:14-16 | A product created without `countInStock`, `rating` or `numReviews` gets 0 for each. A given stock count is kept, and the image starts empty. |
| Models.CreateOrder | backend/ecommerce/project/app/models.py:40-46 | A new order is unpaid and undelivered, and each of the three prices the call leaves out is 0. |
| Models.CreateOrderItem | backend/ecommerce/project/app/models.py:58 | An order line's `qty` is 1 when the call leaves it out and the given value otherwise. |
| Models.OrText | backend/ecommerce/project/app/models.py:20 | Python's `name or fallback`: a non-empty name is kept; a missing or empty one gives the fallback. |
| Models.ProductStr | backend/ecommerce/project/app/models.py:19-20 | A product reads as its name, or "Unnamed Product" when the name is missing or empty. |
| Models.ReviewStr | backend/ecommerce/project/app/models.py:32-33 | A review reads "Review <rating> by <name>" for a non-empty name, and "Review <rating> by Anonymous" for a missing or empty one. |
| Models.OrderStr | backend/ecommerce/project/app/models.py:49-50 | An order reads "Order <id> by <username>", or "by None" once its buyer is gone. |
| Models.OrderItemStr | backend/ecommerce/project/app/models.py:62-63 | An order line reads as its name, or "Unnamed Order Item". |
| Models.AddressOf | backend/ecommerce/project/app/models.py:68 | Finds an order's address row. The result is empty exactly when no address row points at the order. |
| Models.AtMostOneAddress | backend/ecommerce/project/app/models.py:68 | In a consistent database, two address rows of the same order are the same row (one-to-one). |
| Models.DeleteOrder | backend/ecommerce/project/app/models.py:56-68 | Deleting an order also removes exactly its lines and its address. Every other row is unchanged. |
| Models.DeleteProduct | backend/ecommerce/project/app/models.py:25-55 | Deleting a product removes exactly its reviews. Order lines that named it keep everything but get a null product. Users, orders and addresses are unchanged. |
| Models.DeleteUser | backend/ecommerce/project/app/models.py:7-38 | Deleting a user removes only that user. Products, reviews and orders that pointed at it get a null user and are otherwise unchanged. |
| Models.DeleteOrderConsistent | backend/ecommerce/project/app/models.py:56-68 | Deleting an order leaves no dangling reference. |
| Models.DeleteProductConsistent | backend/ecommerce/project/app/models.py:25-55 | Deleting a product leaves no dangling reference. |
| Models.DeleteUserConsistent | backend/ecommerce/project/app/models.py:7-38 | Deleting a user leaves no dangling reference. |
| Models.ClearedRefs | backend/ecommerce/project/app/models.py:7-38 | After a user is deleted, every product, review and order names either no user or a user that still exists. |
| Serializers.ShowCents | backend/ecommerce/project/app/models.py:13 | A two-place decimal column is sent as text with exactly two digits after the point, and a leading minus exactly when it is negative. |
| Serializers.ShowCentsInjective | backend/ecommerce/project/app/models.py:13 | Different amounts are sent as different texts. |
| Serializers.ShowTenths | backend/ecommerce/project/app/models.py:15 | The one-place rating column is sent with one digit after the point, and a minus exactly when it is negative. |
| Serializers.ShowTenthsInjective | backend/ecommerce/project/app/models.py:15 | Different ratings are sent as different texts. |
| Serializers.SerializeUser | backend/ecommerce/project/app/serializer.py:10-30 | A user is sent with exactly the fields of line 18, in that order. `_id` equals `id`, `isAdmin` equals `is_staff`, and username, email, first name and last name are copied. |
| Serializers.SerializeUserWithToken | backend/ecommerce/project/app/serializer.py:34-43 | The with-token fields are the plain user fields, with the same values, followed by `token`. |
| Serializers.ImageUrl | backend/ecommerce/project/app/models.py:9 | An image column is sent as null when empty, else as "/media/" followed by the stored name. |
| Serializers.SerializeProduct | backend/ecommerce/project/app/serializer.py:47-52 | A product is sent with all its columns. `_id` and `id` are both its id, the price is decimal text, and the image is its URL. |
| Serializers.SerializeItem | backend/ecommerce/project/app/serializer.py:56-59 | An order line is sent with all its columns, and its product is null once the product is gone. |
| Serializers.ItemPrice | backend/ecommerce/project/app/serializer.py:56-59 | An order line's price is sent as decimal text. |
| Serializers.SerializeAddress | backend/ecommerce/project/app/serializer.py:63-66 | An address is sent with all its columns, including its order's id. |
| Serializers.OrderUser | backend/ecommerce/project/app/serializer.py:91-103 | The buyer summary has the buyer's id and email, and their first name when it is non-empty, else their email. It is `{id: null, name: "Unknown", email: "N/A"}` when there is no buyer. |
| Serializers.ItemsOf | backend/ecommerce/project/app/serializer.py:81-83 | An order's lines are exactly the line rows that point at it. |
| Serializers.SerializeItems | backend/ecommerce/project/app/serializer.py:81-83 | The lines are serialized one for one, in order. |
| Serializers.AddressJson | backend/ecommerce/project/app/serializer.py:85-89 | An order's address is null exactly when the order has no address row. |
| Serializers.SerializeOrder | backend/ecommerce/project/app/serializer.py:70-103 | An order is sent with its id, its lines, its address (null exactly when it has none), its buyer summary, and its columns. |
| Serializers.OrderPrices | backend/ecommerce/project/app/serializer.py:70-79 | An order's tax, shipping and total prices are sent as decimal text, not as numbers. |
| Serializers.SerializeOrders | backend/ecommerce/project/app/views.py:206-207 | A list of orders is serialized one for one, in order. |
| Views.Gate | backend/ecommerce/project/app/views.py:133-134 | Models the token authentication followed by `@permission_classes`. A caller without credentials is never refused under `AllowAny`. A token naming a missing or inactive user gets 401 under every permission, and a caller without credentials gets 401 under the others. A caller who is not staff gets 403 under `IsAdminUser`, and 403 only ever goes to an active caller. |
| Views.NewOrder | backend/ecommerce/project/app/views.py:146-152 | The new order belongs to the caller and is unpaid. A missing payment method becomes "", and missing prices become 0. |
| Views.NewAddress | backend/ecommerce/project/app/views.py:154-162 | The address row takes each given shipping field, with "" for a missing field or a missing address. Its shipping price is the order's. |
| Views.LineError | backend/ecommerce/project/app/views.py:164-172 | A line fails exactly when its product id is missing or unknown, or its `qty` or `price` key is missing. |
| Views.LineImage | backend/ecommerce/project/app/views.py:173 | A line's image is the product image's URL, or "" when the product has none. |
| Views.LineItem | backend/ecommerce/project/app/views.py:167-174 | A line row takes its name and image from the product, and its qty and price from the request. |
| Views.PlaceLine | backend/ecommerce/project/app/views.py:164-177 | Placing one line changes only line rows and product stock, never the set of products. |
| Views.PlaceLines | backend/ecommerce/project/app/views.py:164-177 | The loop over the lines changes only line rows and product stock, and the line counter only grows. |
| Views.FirstBad | backend/ecommerce/project/app/views.py:164-165 | Gives the index of the first failing line. Every line before it succeeds. |
| Views.FirstBadUnique | backend/ecommerce/project/app/views.py:164-165 | The first failing line is uniquely determined. |
| Views.PlaceLinesCount | backend/ecommerce/project/app/views.py:164-183 | The loop creates one row for each line before the first failing one. Its error is that line's error, or none. |
| Views.PlaceLinesStock | backend/ecommerce/project/app/views.py:176 | Each product's stock drops by the sum of the quantities of the lines placed before the failure, repeats included. There is no lower bound. |
| Views.PlaceLinesRow | backend/ecommerce/project/app/views.py:167-174 | Line j, if placed, gets row id n+j holding exactly that line's row. |
| Views.PlaceLinesFrame | backend/ecommerce/project/app/views.py:164-177 | The loop adds rows only with fresh ids and never changes an existing row. |
| Views.PlaceLinesValid | backend/ecommerce/project/app/views.py:164-177 | The loop keeps the database consistent. |
| Views.PlaceLineConsistent | backend/ecommerce/project/app/views.py:167-177 | Placing one line keeps the database consistent. |
| Views.AddOrder | backend/ecommerce/project/app/views.py:135-183 | Placing an order never changes users or reviews. |
| Views.AddOrderValid | backend/ecommerce/project/app/views.py:135-183 | Every outcome of placing an order, failure included, leaves a consistent database with fresh counters. |
| Views.AddOrderEmpty | backend/ecommerce/project/app/views.py:142-143 | A missing or empty `orderItems` gives 400 "No order items" and changes nothing. |
| Views.AddOrderPlacedValid | backend/ecommerce/project/app/views.py:145-180 | Once the order and address rows exist, the rest of the view keeps the database consistent. |
| Views.AddOrderSteps | backend/ecommerce/project/app/views.py:145-183 | The view creates the order row, then the address row, then runs the loop. It answers with the serialized order, or with "Order creation failed: ..." when a line fails. |
| Views.AddOrderEffect | backend/ecommerce/project/app/views.py:145-183 | After any line failure the order, the address and the rows placed so far remain; there is no rollback. The reply is 200 with the order exactly when every line succeeds. |
| Views.AddOrderStock | backend/ecommerce/project/app/views.py:164-177 | After placing an order, each product's stock is its old stock minus the quantities of the lines placed before any failure. |
| Views.UpdatedUser | backend/ecommerce/project/app/views.py:334-337 | `name` sets the first name, `email` sets both username and email, and `isAdmin` sets `is_staff`. Each absent key keeps the old value, and nothing else changes. |
| Views.UpdatedUserLaws | backend/ecommerce/project/app/views.py:334-337 | An empty update changes nothing, and applying the same update twice equals applying it once. |
| Views.ProfileUpdated | backend/ecommerce/project/app/views.py:298-302 | Both names are replaced. The password changes, to the hash of the new one, only when the new one is non-empty. |
| Views.MissingProfileKey | backend/ecommerce/project/app/views.py:298-301 | The profile update fails on a missing key exactly when `fname`, `lname` or `password` is absent. |
| Views.MissingSignupKey | backend/ecommerce/project/app/views.py:88-93 | Registration fails on a missing key exactly when `fname`, `lname`, `email` or `password` is absent. |
| Views.SignupUser | backend/ecommerce/project/app/views.py:88-95 | A new user has the email as both username and email and a hashed password, and is inactive and not staff. |
| Views.SignupReply | backend/ecommerce/project/app/views.py:103-106 | Registration answers 200 with the activation link. |
| Views.SampleProduct | backend/ecommerce/project/app/views.py:229-237 | The created product belongs to the caller and has the sample name, brand and category, a zero price and no stock. |
| Views.GetProduct | backend/ecommerce/project/app/views.py:55-63 | The answer is 200 with the serialized product exactly when the id exists, else 404 "Product not found". |
| Views.GetOrderById | backend/ecommerce/project/app/views.py:186-199 | The answer is 200 with the order exactly when it exists and the caller is staff or its owner. It is 403 when it exists otherwise, and 404 exactly when it does not exist. |
| Views.OrdersOf | backend/ecommerce/project/app/views.py:206 | Lists exactly the orders whose buyer is the user, each once, in id order. |
| Views.GetMyOrders | backend/ecommerce/project/app/views.py:202-208 | A logged-in caller always gets 200 with a list. |
| Views.GetOrders | backend/ecommerce/project/app/views.py:211-220 | A logged-in caller gets 200 exactly when they are staff, else 403 "Not authorized". |
| Views.MyOrdersOwn | backend/ecommerce/project/app/views.py:204-208 | Every order in "my orders" is one of the caller's own orders, and the caller may also open it by id. |
| Views.OwnerSeesOrder | backend/ecommerce/project/app/views.py:192-194 | An order's owner can always open it by id. |
| Views.OrdersOfExactly | backend/ecommerce/project/app/views.py:206 | An order is listed for a user exactly when that user is its buyer. |
| Views.MyOrdersExactly | backend/ecommerce/project/app/views.py:204-208 | An order appears in "my orders" exactly when the caller is its buyer. |
| Views.StaffSeeAllOrders | backend/ecommerce/project/app/views.py:215-218 | Staff see every order in the full list. |
| Views.Backend.AddOrderItems | backend/ecommerce/project/app/views.py:135-183 | The view updates the tables and counters in place, exactly as `Views.AddOrder` describes, and keeps the database consistent. |
| Views.Backend.PlaceOrderLines | backend/ecommerce/project/app/views.py:164-177 | The `for` loop: its rows, stock changes and error are those of `Views.PlaceLines`, and only the line counter moves. |
| Views.Backend.PlaceOrderLine | backend/ecommerce/project/app/views.py:165-177 | One iteration creates the row and lowers the stock as `Views.PlaceLine` says, and advances the line counter by one. |
| Views.Backend.CreateProduct | backend/ecommerce/project/app/views.py:225-239 | An admin gets a new sample product under the next id and its serialization. Anyone else gets the permission reply and nothing changes. |
| Views.Backend.UploadImage | backend/ecommerce/project/app/views.py:266-280 | With an image and a product id, the product's image becomes "products/<name>" and the answer is 200. A missing image or id gives 400 "Invalid data". An unknown product gives 404, and a non-numeric id makes the view crash; in each failing case nothing changes. |
| Views.Backend.UpdateUser | backend/ecommerce/project/app/views.py:328-342 | An unknown user gives 404. Otherwise the user is replaced by `Views.UpdatedUser` and serialized, and the view crashes on a username that is taken. No other user changes. |
| Views.Backend.DeleteUser | backend/ecommerce/project/app/views.py:345-355 | An unknown id gives 404, and a superuser is never deleted (400). Otherwise exactly that user is removed, with the `on_delete` rules. |
| Views.Backend.UpdateUserProfile | backend/ecommerce/project/app/views.py:292-307 | A missing key crashes the view. Otherwise only the caller changes, as `Views.ProfileUpdated` says, and is sent with the token. |
| Views.Backend.RegisterUser | backend/ecommerce/project/app/views.py:83-109 | A missing key, or an email already used as some user's username, gives 400 "Signup failed: ...", and nothing changes. Otherwise one inactive user is added under the next id, and the activation link is sent. |
| UserActions.Property | frontend/app/src/action/userAction.jsx:98 | Reading a property throws exactly when the object is `null`. |
| UserActions.RequestFirst | frontend/app/src/action/userAction.jsx:109-124 | Every thunk dispatches its REQUEST first. It dispatches nothing more only when the catch block itself throws. |
| UserActions.ThenEnd | frontend/app/src/action/userAction.jsx:109-124 | The second action is the thunk's SUCCESS or FAIL. It is SUCCESS exactly when a request was issued and the call resolved. |
| UserActions.EndsOnce | frontend/app/src/action/userAction.jsx:30-52 | After the second action no further SUCCESS or FAIL of the same thunk follows. |
| UserActions.CaughtShape | frontend/app/src/action/userAction.jsx:155-161 | A failure dispatches at most one FAIL. It dispatches none only when `getUserDetails` gets a `null` response body. |
| UserActions.SucceededShape | frontend/app/src/action/userAction.jsx:166-210 | A success starts with the thunk's SUCCESS, and nothing after it ends the thunk again. |
| UserActions.NullSession | frontend/app/src/action/userAction.jsx:92-113 | With no logged-in user a protected thunk dispatches REQUEST, then FAIL with the `TypeError` message. It issues no request and writes nothing. |
| UserActions.FailPayloadChoice | frontend/app/src/action/userAction.jsx:47-50 | The FAIL payload is the server's `detail` when truthy, else the error message. |
| UserActions.TokenChoice | frontend/app/src/action/userAction.jsx:98 | The current copy sends `userInfo.token` when truthy, else `userInfo.access`. The older copy always sends `userInfo.token`. |
| UserActions.SamePaths | action/userAction.jsx:90-111 | The older copy requests the same relative path under "/api/" that the current copy puts after its base URL, with the same verb and body. |
| UserActions.ApiPath | action/userAction.jsx:102 | Every request path starts with "/api/". |
| UserActions.FlavoursAgree | action/userAction.jsx:28-230 | Given the same session and outcome, both copies dispatch the same actions and write the same storage. |
| UserActions.LoginStorage | frontend/app/src/action/userAction.jsx:44-45 | A successful login ends with LOGIN_SUCCESS carrying the payload and stores exactly the stringified payload. A failed login writes nothing. |
| UserActions.LoginRoundTrip | frontend/app/src/action/userAction.jsx:44-45 | After a successful login, parsing the stored `userInfo` gives back the payload. |
| UserActions.SignupNeverStores | frontend/app/src/action/userAction.jsx:61-89 | `signup` never touches storage. |
| UserActions.TwoStepSuccesses | frontend/app/src/action/userAction.jsx:166-210 | A profile update that succeeds dispatches PROFILE_SUCCESS, then LOGIN_SUCCESS with the same payload, then stores it. A user update that succeeds dispatches UPDATE_SUCCESS, then DETAILS_SUCCESS, and stores nothing. |
| UserActions.Client.Login | frontend/app/src/action/userAction.jsx:30-52 | The dispatch log, request log and storage grow exactly by the login protocol's effect. |
| UserActions.Client.Logout | frontend/app/src/action/userAction.jsx:55-58 | Logging out removes `userInfo` and dispatches one USER_LOGOUT. It issues no request. |
| UserActions.Client.Signup | frontend/app/src/action/userAction.jsx:61-89 | The logs and storage change exactly by the signup protocol's effect. |
| UserActions.Client.ReadToken | frontend/app/src/action/userAction.jsx:92-106 | `getAuthConfig`'s token is the one `UserActions.TokenChoice` describes, or the error of reading from `null`. |
| UserActions.Client.ListUsers | frontend/app/src/action/userAction.jsx:109-124 | The logs and storage change exactly by the `listUsers` protocol's effect. |
| UserActions.Client.DeleteUser | frontend/app/src/action/userAction.jsx:127-142 | The logs and storage change exactly by the `deleteUser` protocol's effect. |
| UserActions.Client.GetUserDetails | frontend/app/src/action/userAction.jsx:145-163 | The logs and storage change exactly by the `getUserDetails` protocol's effect. |
| UserActions.Client.UpdateUser | frontend/app/src/action/userAction.jsx:166-186 | The logs and storage change exactly by the `updateUser` protocol's effect. |
| UserActions.Client.UpdateUserProfile | frontend/app/src/action/userAction.jsx:189-210 | The logs and storage change exactly by the `updateUserProfile` protocol's effect. |
| Store.GetValidJson | frontend/app/src/store.jsx:38-46 | An absent key gives the fallback. Text that does not parse gives the fallback, and the error never escapes. Any other result is the parsed value. |
| Store.NotJson | frontend/app/src/store.jsx:41 | "" and "undefined" do not parse as JSON. |
| Store.GuardRedundant | frontend/app/src/store.jsx:38-46 | The guard on line 41 changes no result: reading is "parse, else the fallback". |
| Store.ReadsBackWritten | frontend/app/src/store.jsx:42 | A value stored with `JSON.stringify` reads back equal. |
| Store.InitialState | frontend/app/src/store.jsx:84-93 | The initial state seeds exactly the `cart` and `userLogin` slices. |
| Store.SeededSlices | frontend/app/src/store.jsx:55-93 | There are 18 slice keys. Only `userLogin` and `cart` are seeded, and the other 16 start from their reducers. |
| Store.LoggedOutStart | frontend/app/src/store.jsx:49 | With no readable `userInfo` the session starts as `null`. |
| Store.CartDefaults | frontend/app/src/store.jsx:50-52 | With nothing stored, the cart starts with `[]`, `{}` and "". |
| Store.ReloadAfterWrite | frontend/app/src/store.jsx:49 | A stored session is restored as written. |
| Store.ReadOther | frontend/app/src/store.jsx:38-46 | Writing one key never changes what another key reads. |
| Store.CartIgnoresSession | frontend/app/src/store.jsx:84-89 | The cart does not depend on the stored session. |
| Store.ReloadAfterLogin | frontend/app/src/store.jsx:49 | After a successful login, a reload restores the login payload as the session and the same cart. |
| Store.ReloadAfterLogout | frontend/app/src/store.jsx:49 | After logout a reload starts logged out. |
| FormRules.EmailPatternShape | frontend/app/src/components/Screens/SignupScreen.jsx:80-81 | The email pattern holds exactly when there is no whitespace and there is exactly one `@`, with a non-empty part before it. After the `@` there must be a `.` with text on both sides. |
| FormRules.PasswordPatternRule | frontend/app/src/components/Screens/SignupScreen.jsx:84-86 | The password pattern holds exactly when the password has at least 8 characters, all from `A-Za-z0-9@$!%*?&`, with a lowercase letter, an uppercase letter, a digit and a special character. |
| SignupScreen.FieldError | frontend/app/src/components/Screens/SignupScreen.jsx:72-101 | Every error the rules produce is a non-empty message. |
| SignupScreen.FieldErrorRules | frontend/app/src/components/Screens/SignupScreen.jsx:72-101 | A name gets an error exactly when it trims to empty, and an email exactly when it fails the pattern. A password is accepted exactly when it is strong. A confirmation is accepted exactly when it equals the password, and the terms exactly when they are ticked. Any other field gets no error. |
| SignupScreen.InitialForm | frontend/app/src/components/Screens/SignupScreen.jsx:16-25 | The form starts with all six fields, each holding a value of its kind. |
| SignupScreen.FilledIsTrimmed | frontend/app/src/components/Screens/SignupScreen.jsx:113 | A text counts as filled exactly when it does not trim to "". |
| SignupScreen.Change | frontend/app/src/components/Screens/SignupScreen.jsx:55-65 | An edit keeps all six fields present with values of their kinds. |
| SignupScreen.OnlyEditedError | frontend/app/src/components/Screens/SignupScreen.jsx:103-106 | An edit records the edited field's error and leaves every other error and value unchanged. |
| SignupScreen.StaleConfirmation | frontend/app/src/components/Screens/SignupScreen.jsx:91-94 | As written, changing the password of a valid form to another strong one keeps the form valid, though the confirmation no longer matches. |
| SignupScreen.StaleConfirmationExample | frontend/app/src/components/Screens/SignupScreen.jsx:91-94 | A concrete form: "Abcdef1!" confirmed, then the password is changed to "Bbcdef1!", and the form is still valid. |
| SignupScreen.ChangeRevalidating | frontend/app/src/components/Screens/SignupScreen.jsx:55-65 | The corrected edit, which checks the confirmation again after a password edit, keeps all six fields present. |
| SignupScreen.InitialConfirmChecked | frontend/app/src/components/Screens/SignupScreen.jsx:16-25 | The starting form has no accepted confirmation that differs from the password. |
| SignupScreen.RevalidatingKeepsConfirm | frontend/app/src/components/Screens/SignupScreen.jsx:91-94 | With the corrected edit, an accepted confirmation always equals the password shown. |
| SignupScreen.ValidFormConfirmed | frontend/app/src/components/Screens/SignupScreen.jsx:109-116 | With the corrected edit, a valid form's password equals its confirmation. |
| SignupScreen.ChangeKeepsValid | frontend/app/src/components/Screens/SignupScreen.jsx:109-116 | An edit to an acceptable, filled value keeps a valid form valid. |
| SignupScreen.ValidationClass | frontend/app/src/components/Screens/SignupScreen.jsx:67-70 | The class is "" exactly for an empty value, and "is-invalid" exactly for a non-empty value whose field has an error. |
| SignupScreen.SignupForm.constructor | frontend/app/src/components/Screens/SignupScreen.jsx:16-25 | The form starts with the initial values and no errors. |
| SignupScreen.SignupForm.ValidateField | frontend/app/src/components/Screens/SignupScreen.jsx:72-107 | The field's error is written against the password held now. No value and no other error changes. |
| SignupScreen.SignupForm.HandleChange | frontend/app/src/components/Screens/SignupScreen.jsx:55-65 | The form changes exactly as the corrected edit says, and the confirmation stays checked. |
| SignupScreen.SignupForm.Submit | frontend/app/src/components/Screens/SignupScreen.jsx:128-140 | `signup` is dispatched, with the four texts, exactly when the form is valid. With the corrected edit that the class keeps (`SignupScreen.SignupForm.HandleChange`), a dispatched password always equals its confirmation. |
| LoginScreen.RedirectTarget | frontend/app/src/components/Screens/LoginScreen.jsx:14 | For a query `x=target...`, the redirect is the text between the first and second `=`. |
| LoginScreen.RedirectMissing | frontend/app/src/components/Screens/LoginScreen.jsx:14 | A non-empty query with no `=` gives `undefined`. |
| LoginScreen.FieldError | frontend/app/src/components/Screens/LoginScreen.jsx:53-62 | An error is either the email message or the password message. |
| LoginScreen.FieldErrorRules | frontend/app/src/components/Screens/LoginScreen.jsx:55-60 | The email has no error exactly when it fits the shared pattern, and the password exactly when it has at least 6 UTF-16 units. Other fields never get an error. |
| LoginScreen.InitialChecked | frontend/app/src/components/Screens/LoginScreen.jsx:19-20 | The starting form's errors agree with its values. |
| LoginScreen.ChangeChecked | frontend/app/src/components/Screens/LoginScreen.jsx:61 | An edit changes only the edited field's error, and the errors keep agreeing with the values. |
| LoginScreen.ValidMeansAccepted | frontend/app/src/components/Screens/LoginScreen.jsx:64-66 | A valid form holds an email of the right shape and a password of at least 6 units. |
| LoginScreen.LoginForm.constructor | frontend/app/src/components/Screens/LoginScreen.jsx:19-22 | The form starts empty and not submitted. |
| LoginScreen.LoginForm.HandleChange | frontend/app/src/components/Screens/LoginScreen.jsx:47-51 | An edit stores the value and that field's error, and leaves `submitted` alone. |
| LoginScreen.LoginForm.Submit | frontend/app/src/components/Screens/LoginScreen.jsx:68-74 | `login` is dispatched exactly when the form is valid, and then `submitted` becomes set. A dispatched login carries a well-formed email and a long enough password. |
| OrderScreen.UnitPrice | frontend/app/src/components/Screens/OrderScreen.jsx:101 | `Number(price) \|\| 0` is always a number, and 0 when the price does not read as a non-zero number. |
| OrderScreen.ItemsPriceWith | frontend/app/src/components/Screens/OrderScreen.jsx:38-43 | The items total is 0 when `orderItems` is falsy or an empty list. It throws exactly when `orderItems` is truthy and is not an array without `null` lines. |
| OrderScreen.NumberFieldAsWritten | frontend/app/src/components/Screens/OrderScreen.jsx:45-46 | Shipping or tax counts only when it is a JSON number; anything else, text included, counts as 0. |
| OrderScreen.NumberField | frontend/app/src/components/Screens/OrderScreen.jsx:45-46 | The corrected reading of shipping or tax is always a number. |
| OrderScreen.ViewWith | frontend/app/src/components/Screens/OrderScreen.jsx:36-47 | Nothing is shown without an order. Once the order is loaded, the page throws exactly when the items total throws, or when `orderItems` is falsy and not "" (line 96 reads its `length` and maps over it). Otherwise the total shown is items + shipping + tax. |
| OrderScreen.ZeroLines | frontend/app/src/components/Screens/OrderScreen.jsx:40 | In the corrected sum, a line without a usable price or without a quantity adds 0. |
| OrderScreen.ItemsPriceIsNumber | frontend/app/src/components/Screens/OrderScreen.jsx:38-43 | When every quantity reads as a number, the corrected items total is computed exactly when no line is `null`, and is then a number. |
| OrderScreen.ItemsPriceAppend | frontend/app/src/components/Screens/OrderScreen.jsx:38-43 | The items total of two lists joined is the sum of their totals, or a throw when either holds a `null` line. |
| OrderScreen.LineAgrees | frontend/app/src/components/Screens/OrderScreen.jsx:40 | For a price that reads as a number, the line term as written equals the corrected one. |
| OrderScreen.ItemsPriceAgrees | frontend/app/src/components/Screens/OrderScreen.jsx:38-43 | When every price reads as a number, the items total as written equals the corrected one. |
| OrderScreen.NonNumericPricePoisons | frontend/app/src/components/Screens/OrderScreen.jsx:40 | As written, one non-numeric price makes the items total and the shown total `NaN`, unless a `null` line throws first. The line list of line 101 shows 0 for that line. |
| OrderScreen.PriceTextAsWritten | frontend/app/src/components/Screens/OrderScreen.jsx:40 | A concrete order with price "abc" shows a total of `NaN` as written. |
| OrderScreen.PriceTextCorrected | frontend/app/src/components/Screens/OrderScreen.jsx:40 | Corrected, the same order shows 0 everywhere. |
| OrderScreen.SingleLine | frontend/app/src/components/Screens/OrderScreen.jsx:38-43 | A one-line order totals that line, and throws when the line is `null`. |
| OrderScreen.CentsValue | frontend/app/src/components/Screens/OrderScreen.jsx:101 | `Number` of a decimal text the server sends gives back its amount in rupees. |
| OrderScreen.ServerPricesHidden | frontend/app/src/components/Screens/OrderScreen.jsx:45-46 | As written, every order the server sends shows shipping and tax as 0, and a total of the items alone, whatever the order's prices. |
| OrderScreen.WrittenFields | frontend/app/src/components/Screens/OrderScreen.jsx:38-47 | As written, an order whose lines are an array is shown exactly when no line is `null`. The shown items, shipping and tax then come from the lines and the two price fields. |
| OrderScreen.ServerPricesShown | frontend/app/src/components/Screens/OrderScreen.jsx:45-46 | Corrected, an order from the server shows its stored shipping and tax amounts. |
| OrderScreen.ShownFields | frontend/app/src/components/Screens/OrderScreen.jsx:38-47 | Corrected, an order whose lines are an array is shown exactly when no line is `null`. The shown items, shipping and tax then come from the lines and the two price fields. |
| OrderScreen.CentsField | frontend/app/src/components/Screens/OrderScreen.jsx:45-46 | The corrected reading of a decimal text gives its amount. |
| OrderScreen.TotalIgnoresStored | frontend/app/src/components/Screens/OrderScreen.jsx:47 | The shown total never reads the stored `totalPrice`. |
| OrderScreen.SameFieldsSameView | frontend/app/src/components/Screens/OrderScreen.jsx:36-47 | Two orders with the same lines, shipping and tax show the same. |
| OrderScreen.LinesTotal | frontend/app/src/components/Screens/OrderScreen.jsx:38-43 | The sum of price × qty over stored lines is always a number. |
| OrderScreen.ServedLine | frontend/app/src/components/Screens/OrderScreen.jsx:40 | A line the server sends contributes its price times its quantity. |
| OrderScreen.ServedTotal | frontend/app/src/components/Screens/OrderScreen.jsx:38-43 | Summing the sent lines gives the sum over the stored lines. |
| OrderScreen.ServerItemsPrice | frontend/app/src/components/Screens/OrderScreen.jsx:38-43 | For an order the server sends, both the written and the corrected items totals equal the sum of price × qty over its stored lines. |
| OrderScreen.ServedLinesPresent | frontend/app/src/components/Screens/OrderScreen.jsx:96-101 | The server sends an order's lines as an array with no `null` line, so neither the summary nor the item list throws on it. |
| PaymentScreen.Submit | frontend/app/src/components/Screens/PaymentScreen.jsx:32-48 | Submitting dispatches `savePaymentMethod` first. `createOrder` is dispatched second exactly when the cart can be summed. |
| PaymentScreen.SubmittedOrder | frontend/app/src/components/Screens/PaymentScreen.jsx:36-45 | The order carries the cart, the address and the method unchanged, with shipping 100 and tax 0. Its total is items + shipping + tax, and the items total is a number exactly when every line is. |
| PaymentScreen.TotalAtLeastFee | frontend/app/src/components/Screens/PaymentScreen.jsx:43-44 | With non-negative lines, the total is at least the shipping fee. |
| PaymentScreen.MissingPricePoisons | frontend/app/src/components/Screens/PaymentScreen.jsx:40 | A line whose price does not read as a number makes the items total and the total `NaN`. |
| PaymentScreen.AgreesWithOrderPage | frontend/app/src/components/Screens/PaymentScreen.jsx:40 | When every line has a non-zero numeric price and a quantity, the order page's items total equals the one submitted. |
| PaymentScreen.RedirectsTo | frontend/app/src/components/Screens/PaymentScreen.jsx:22-30 | The effect throws exactly when the address is `null`. |
| PaymentScreen.RedirectRules | frontend/app/src/components/Screens/PaymentScreen.jsx:23-29 | The effect navigates to the address step exactly when the address is falsy. It then navigates to `/order/<id>` exactly when creation succeeded and an order exists. |
| PaymentScreen.MissingAddressUnrouted | frontend/app/src/components/Screens/PaymentScreen.jsx:24 | As written, the address redirect goes to `/shipping`, which no route matches. |
| PaymentScreen.MissingAddressShipping | frontend/app/src/components/Screens/PaymentScreen.jsx:24 | Corrected, the address redirect opens the shipping screen. |
| PaymentScreen.CreatedOrderShown | frontend/app/src/components/Screens/PaymentScreen.jsx:27-28 | After an order is created, the last redirect opens the order screen. |
| ProductListScreen.BaseText | frontend/app/src/components/Screens/ProductListScreen.jsx:85-138 | A set base URL is used as it is. An unset one is printed as "undefined" by the template literals. |
| ProductListScreen.ImageUrl | frontend/app/src/components/Screens/ProductListScreen.jsx:134-139 | A falsy image gives "/default-image.png". The row throws exactly when the image is truthy and not text. |
| ProductListScreen.RowImageUrl | frontend/app/src/components/Screens/ProductListScreen.jsx:133-139 | A `null` product throws; any other row's URL comes from its image. |
| ProductListScreen.MediaPath | frontend/app/src/components/Screens/ProductListScreen.jsx:136-138 | The path an image name stands for is always under "/media/products/". |
| ProductListScreen.StringImageUrl | frontend/app/src/components/Screens/ProductListScreen.jsx:134-139 | Every non-empty image name is shown as the base followed by a path under "/media/products/". |
| ProductListScreen.PrefixedImage | frontend/app/src/components/Screens/ProductListScreen.jsx:136-137 | An image already under "/media/products/" is shown as base + image. |
| ProductListScreen.BareImage | frontend/app/src/components/Screens/ProductListScreen.jsx:138 | Any other non-empty image is shown as base + "/media/products/" + image. |
| ProductListScreen.PrefixNormalises | frontend/app/src/components/Screens/ProductListScreen.jsx:134-139 | Naming an image with or without the folder in front gives the same URL. |
| ProductListScreen.MediaPathIdempotent | frontend/app/src/components/Screens/ProductListScreen.jsx:136-138 | Putting the folder in front twice changes nothing more. |
| ProductListScreen.Effect | frontend/app/src/components/Screens/ProductListScreen.jsx:45-62 | The effect resets product creation first. It navigates to `/login` exactly when the viewer is not an admin. It then reloads the list exactly when nothing was just created, and announces the created product otherwise. |
| ProductListScreen.ResetOnce | frontend/app/src/components/Screens/ProductListScreen.jsx:46 | The reset comes first and happens once per run. |
| ProductListScreen.GuardLeadsToLogin | frontend/app/src/components/Screens/ProductListScreen.jsx:48-50 | A non-admin is sent to the page that shows the login screen, and the list is still requested. |
| ProductScreen.CardImageUrl | frontend/app/src/components/Screens/ProductScreen.jsx:7-9 | A missing product gives the placeholder. For a product, the card throws exactly when the image is truthy and not text. |
| ProductScreen.ProductLink | frontend/app/src/components/Screens/ProductScreen.jsx:15 | A card link always starts with "/product/". |
| ProductScreen.ShowCard | frontend/app/src/components/Screens/ProductScreen.jsx:14-37 | A card is drawn exactly when the product is present, is not `null` and has a usable image. Its three links are all the product's link. |
| ProductScreen.SameAsListWhenPrefixed | frontend/app/src/components/Screens/ProductScreen.jsx:7-8 | An image under "/media/products/" is shown as base + image, as in the admin table. |
| ProductScreen.BareNameOnlyInList | frontend/app/src/components/Screens/ProductScreen.jsx:7-9 | A bare file name shows the placeholder on the card, while the admin table shows it from the media folder. |
| ProductScreen.CardImageShape | frontend/app/src/components/Screens/ProductScreen.jsx:7-9 | A card shows either the placeholder or the base followed by a path under "/media/products/". |
| ProductScreen.LinkRouted | frontend/app/src/components/Screens/ProductScreen.jsx:20 | A product with a numeric `_id` links to `/product/<id>`, which opens the product page. |
| ProductDetails.ApiBase | frontend/app/src/components/Screens/ProductDetails.jsx:18 | The base is the configured URL when it is set and non-empty, else "http://localhost:8000". |
| ProductDetails.ImageSrc | frontend/app/src/components/Screens/ProductDetails.jsx:51 | The picture's source always starts with the base. |
| ProductDetails.ServedImageSrc | frontend/app/src/components/Screens/ProductDetails.jsx:51 | For the image the server sends, the source is the base followed by "/media/<name>". For a product without an image it is the base followed by "null". |
| ProductDetails.QtyOptions | frontend/app/src/components/Screens/ProductDetails.jsx:96-100 | There are as many options as there is stock, and option i is i + 1. |
| ProductDetails.Selector | frontend/app/src/components/Screens/ProductDetails.jsx:86 | The quantity list is shown exactly when the stock is positive. |
| ProductDetails.PanelAsWritten | frontend/app/src/components/Screens/ProductDetails.jsx:81-111 | As written, add-to-cart is disabled exactly when the stock is 0. |
| ProductDetails.StockPanel | frontend/app/src/components/Screens/ProductDetails.jsx:111 | Corrected, add-to-cart is disabled exactly when the stock is 0 or less. |
| ProductDetails.AddToCart | frontend/app/src/components/Screens/ProductDetails.jsx:34-36 | Add-to-cart opens the cart exactly when the button is enabled. |
| ProductDetails.OptionsExactly | frontend/app/src/components/Screens/ProductDetails.jsx:96-100 | A quantity is offered exactly when it is between 1 and the stock. |
| ProductDetails.OptionsIncreasing | frontend/app/src/components/Screens/ProductDetails.jsx:96-100 | The options are strictly increasing. |
| ProductDetails.InitialQtyOffered | frontend/app/src/components/Screens/ProductDetails.jsx:24 | The starting quantity 1 is offered exactly when there is stock. |
| ProductDetails.PanelConsistent | frontend/app/src/components/Screens/ProductDetails.jsx:81-111 | Corrected, "Out of Stock", no quantity list and a disabled button always go together. |
| ProductDetails.AsWrittenWhenNonNegative | frontend/app/src/components/Screens/ProductDetails.jsx:111 | For stock of 0 or more, the panel as written equals the corrected one. |
| ProductDetails.NegativeStockEnabled | frontend/app/src/components/Screens/ProductDetails.jsx:111 | As written, stock -1 shows "Out of Stock" and no list, yet add-to-cart stays enabled. |
| ProductDetails.CartQtyInStock | frontend/app/src/components/Screens/ProductDetails.jsx:35 | With the corrected button, a quantity taken from the list or the starting one is between 1 and the stock. |
| ProductDetails.CartUrlRouted | frontend/app/src/components/Screens/ProductDetails.jsx:35 | The cart URL's path is `/cart/<id>`, which opens the cart; the query only carries the quantity. |
| CheckoutSteps.Links | frontend/app/src/components/CheckoutSteps.jsx:5-45 | There are exactly four links: Log In, Shipping, Payment and Place Order. Their targets are `/login`, `/checkout`, `/payment` and `/placeorder`, and link i is disabled exactly when flag i is falsy. |
| CheckoutSteps.OwnFlagOnly | frontend/app/src/components/CheckoutSteps.jsx:5-45 | Each link depends only on its own flag. |
| CheckoutSteps.TargetsRouted | frontend/app/src/components/CheckoutSteps.jsx:11-40 | Each target opens the screen of its step: login, shipping, payment and place order. |
| CheckoutSteps.OnPaymentScreen | frontend/app/src/components/Screens/PaymentScreen.jsx:52 | With the flags the payment screen passes, the first three links are enabled and the last is not. |
| Routes.Table | frontend/app/src/App.js:30-46 | The route table has 16 routes, in declaration order. |
| Routes.FirstMatch | frontend/app/src/App.js:29-52 | A path resolves to a route of the table. |
| Routes.FirstMatchSpec | frontend/app/src/App.js:29-52 | A path resolves to the first route whose pattern it matches, and to nothing exactly when none matches. |
| Routes.ShippingUnrouted | frontend/app/src/App.js:29-52 | No route matches `/shipping`. |
| Routes.CheckoutRouted | frontend/app/src/App.js:36 | `/checkout` shows the shipping screen. |
| Routes.LoginRouted | frontend/app/src/App.js:33 | `/login` shows the login screen. |
| Routes.PaymentRouted | frontend/app/src/App.js:38 | `/payment` shows the payment screen. |
| Routes.PlaceOrderRouted | frontend/app/src/App.js:37 | `/placeorder` shows the place-order screen. |
| Routes.ProductRouted | frontend/app/src/App.js:31 | `/product/<id>` shows the product page for every non-empty id. |
| Routes.CartRouted | frontend/app/src/App.js:34 | `/cart/<id>` shows the cart for every non-empty id. |
| Routes.OrderRouted | frontend/app/src/App.js:39 | `/order/<id>` shows the order page for every non-empty id. |
| Routes.QueryIgnored | frontend/app/src/App.js:25 | Routing reads the path before `?`, so a query string never changes the screen. |
| Json.RoundTrip | frontend/app/src/store.jsx:42 | `JSON.parse(JSON.stringify(v))` gives back every value the server can send. |
| Json.StringifyShape | frontend/app/src/store.jsx:41 | A stringified value is never "" or "undefined", so the guard never drops a stored value. |
| Json.LookupSpec | frontend/app/src/store.jsx:42 | A property read finds nothing exactly when no member has the key. Otherwise it finds the last member with the key, as `JSON.parse` keeps it. |
| Json.LookupLast | frontend/app/src/store.jsx:42 | A member with no later duplicate is the one read. |
| Json.GetOpt | frontend/app/src/action/userAction.jsx:49 | `x?.key` reads the key of a present object, and is `undefined` for a missing or `null` one. |
| Json.Or | frontend/app/src/action/userAction.jsx:98 | `a \|\| b` is `a` when `a` is truthy, else `b`. |
| Json.JsToString | frontend/app/src/components/Screens/ProductScreen.jsx:15 | A template literal prints `undefined` and `null` by name, a string as itself, and an object as "[object Object]". |
| Text.Trim | frontend/app/src/components/Screens/SignupScreen.jsx:77 | `trim()` is empty exactly for all-whitespace text, and otherwise starts and ends with non-whitespace. |
| Text.Split | frontend/app/src/components/Screens/LoginScreen.jsx:14 | `split` gives at least one piece, none containing the separator, and the pieces joined by the separator give back the text. |
| Text.SplitUnique | frontend/app/src/components/Screens/LoginScreen.jsx:14 | Splitting pieces joined by the separator gives back those pieces. |
| Text.Utf16Length | frontend/app/src/components/Screens/LoginScreen.jsx:58 | `length` counts UTF-16 units: between one and two per character. |
| JsNumber.OrZero | frontend/app/src/components/Screens/OrderScreen.jsx:101 | `n \|\| 0` is always a number, and is `n` when `n` is one. |
| JsNumber.NumberOrZero | frontend/app/src/components/Screens/OrderScreen.jsx:40 | `Number(x \|\| 0)` is 0 for a falsy `x`. |
| JsNumber.IntNumber | frontend/app/src/components/Screens/OrderScreen.jsx:40 | An integer the server sends reads as itself, and is truthy exactly when non-zero. |
| JsNumber.NotANumber | frontend/app/src/components/Screens/OrderScreen.jsx:40 | Text starting with a letter reads as `NaN`. |
| JsNumber.Sum | frontend/app/src/components/Screens/OrderScreen.jsx:39-42 | A `reduce` sum is a number exactly when every term is. |
| JsNumber.SumAppend | frontend/app/src/components/Screens/OrderScreen.jsx:39-42 | The sum over a joined list is the sum of the sums. |

## Left out

- Floating point. Client numbers are exact reals or `NaN`. Rounding, `toFixed`, the infinities, and `Number` of arrays holding nested arrays are not modelled.
- Number literals outside the decimal form. `Number` reads only optionally signed decimal literals with an optional fraction and exponent. It gives `NaN` where JavaScript reads a number for a trailing point (`"1."`), a leading point (`".5"`), hexadecimal (`"0x1f"`), binary (`"0b1"`) and octal (`"0o7"`).
- Number printing. `JSON.stringify` and template literals print a number canonically (`1.50` as `1.5`, `1e2` as `100`). The model prints the literal as it was parsed, which agrees only on the canonical integers the server sends.
- The reducers, the constants files and the other action files (`cartAction`, `orderAction`, `productAction`). Dispatched actions are opaque entries, and the constant values are names.
- The network and `localStorage`. Each call's outcome (resolved data, or a rejection with an optional response body and a message) is a parameter, and storage is a map. Thunks that are in flight at the same time and resolve out of order are not modelled.
- Timers and navigation done inside `setTimeout`. This covers the product-created redirect of the admin table, the login and signup success redirects, and the password-visibility toggles.
- The Django ORM, `urls.py`, `settings.py` and `admin.py`. The database is a value of maps, and `Backend` holds it.
- Timestamps. `createdAt`, `paidAt`, `deliveredAt` and the serializer's `deliveredAt` field are not modelled. That field's source, `delivered_at`, is not a column of `Order`.
- JWT minting and the activation token. The token and the activation link are parameters, and `make_password` is a constructor that records the plain text.
- SignupScreen.SignupForm: the class models the corrected `handleChange`, which checks the confirmation again after a password edit, so its `Submit` never sends a mismatched confirmation. The source's own edit, which can leave a stale confirmation, is `SignupScreen.Change` (see Findings).
- Views.Backend.UploadImage: stores the name "products/<name>" with the uploaded name as it is. The storage's clean-up of the name is not modelled. That clean-up turns spaces into `_` and drops characters other than letters, digits, `-`, `_` and `.`, so "a b.jpg" is stored as "products/a_b.jpg". Renaming a clashing file is not modelled either, nor is the file's content.
- Serializers.ImageUrl: gives "/media/" followed by the stored name unchanged. Django's `url` percent-encodes the non-ASCII characters of the name ("products/é.jpg" is served as "/media/products/%C3%A9.jpg"), and the model agrees only on ASCII names.
- Views.LineImage: copies `product.image.url` as "/media/" plus the stored name, without the percent-encoding of non-ASCII characters that Django applies. The two agree only on ASCII names.
- Views.Backend.UpdateUser: a clash on the unique username is a crash reply. The database error's text is not modelled.
- Views.Backend.RegisterUser: only a missing key and a taken username are modelled as the exceptions that become "Signup failed: ...". Any other database failure is not.
- Views.AddOrder: only a missing or unknown product and a missing `qty` or `price` are modelled as the line failures. Database type errors, such as a non-numeric qty, are not.
- `updateProduct`, `deleteProduct`, `getProducts`, `getUserProfile`, `getUsers`, `getUserById` and the activation view. They are outside the modelled core; `Models.DeleteProduct` gives the row effect of a product deletion.
- The React-only screens, the `window.confirm` prompts, the JSX rendering, and the loading and error banners other than the login screen's.
- The request that loads a product on the product page. `countInStock` is taken to be the integer the server sends.
- Route ranking. Routes resolve by the first match in declaration order with case-sensitive segments, which agrees with `react-router`'s ranking on every path used here.
- Object member order and duplicates. A parsed object keeps its members as they appear in the text, duplicates included, and `Json.Stringify` prints them back that way. `JSON.stringify` of a JavaScript object prints each key once, with integer-like keys first. What `Json.Get` reads back agrees, because the last duplicate wins, but the stored text is not claimed to match the browser's byte for byte.
- JavaScript's `\s` is fixed as the whitespace set of `Text.IsJsSpace`, the characters ECMAScript counts as white space or line terminators.

## Findings

| source | as written | input that shows it | evidently intended | confidence | as-written member | corrected member |
|---|---|---|---|---|---|---|
| frontend/app/src/components/Screens/OrderScreen.jsx:40 | `Number(item.price \|\| 0)` is `NaN` for a non-numeric price, so the items total and the total are `NaN` | an order line with price "abc" and qty 1 | a line with an unreadable price adds 0, as the line list on line 101 does | not executed | OrderScreen.PriceTextAsWritten | OrderScreen.PriceTextCorrected |
| frontend/app/src/components/Screens/OrderScreen.jsx:45-46 | shipping and tax count only when `typeof` is "number", but the server sends decimal columns as text, so both are always 0 | any order the server sends, such as one with shipping price 100.00 | the stored shipping and tax amounts are shown and added to the total | not executed | OrderScreen.ServerPricesHidden | OrderScreen.ServerPricesShown |
| frontend/app/src/components/Screens/SignupScreen.jsx:91-94 | the confirmation is checked only when it is edited, so changing the password afterwards leaves a stale "match" | confirm "Abcdef1!", then change the password to "Bbcdef1!": the form stays valid | editing the password checks the confirmation again, so a valid form's password equals its confirmation | not executed | SignupScreen.StaleConfirmationExample | SignupScreen.ValidFormConfirmed |
| frontend/app/src/components/Screens/PaymentScreen.jsx:24 | a missing address redirects to `/shipping`, which no route declares | a cart whose shipping address has no `address` | redirect to `/checkout`, where the shipping screen is routed | not executed | PaymentScreen.MissingAddressUnrouted | PaymentScreen.MissingAddressShipping |
| frontend/app/src/components/Screens/ProductDetails.jsx:111 | add-to-cart is disabled only for stock exactly 0 | stock -1, which placing orders can produce: "Out of Stock" is shown but the button is enabled | disabled whenever the stock is 0 or less | not executed | ProductDetails.NegativeStockEnabled | ProductDetails.PanelConsistent |
