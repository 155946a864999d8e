# E-commerce backend: a verified model

This project models in Dafny the request-handling core of a small Express and
PostgreSQL e-commerce backend. The backend has a product catalogue, user
accounts with a `user`/`admin` role, and a per-user shopping cart. The model
covers:

- **the store** (`store.dfy`): the three tables `users`, `products` and `cart_items`, held by one `Database` object. Its `Valid()` predicate states the schema constraints:
  - rows are keyed by their serial id;
  - `users.email` is unique;
  - the composite cart key (user, product);
  - the foreign keys from cart lines to users and products, and from `products.created_by` to users.
  `DeleteUser` carries the referential actions of a user delete: CASCADE on the cart, SET NULL on `created_by`.
- **SQL semantics the models rely on** (`query.dfy`):
  - `ORDER BY` on text, as code-point lexicographic order;
  - `ILIKE` pattern matching, with `%`, `_` and ASCII case folding;
  - the dynamic `UPDATE ... SET col = $n` statement built by the partial-update functions: its placeholder numbering, how the store binds parameters, and how it applies each clause to a row (NULL into a NOT NULL column aborts the statement).
- **the model modules**:
  - `cart_model.dfy`: merge-add, the two-statement decrement, remove, clear, and the joined cart listing;
  - `product_model.dfy`: the listings and name search, lookup, insert, the dynamic update and the restricted delete;
  - `user_model.dfy`: insert with the role default, lookups by email and by id, the listing by email, and the dynamic update with its empty short-circuit.
- **the middlewares**:
  - `auth.dfy`: bearer-token extraction with JavaScript `split` semantics, then the verify/lookup decision chain. It fills `req.userId` and `req.user` in place on a `Request` object.
  - `is_admin.dfy`: the role gate.
- **the controllers** (`user_controller.dfy`, `product_controller.dfy`, `cart_controller.dfy`):
  - how each handler maps validation results, oracle answers and store results to a status and a body;
  - the payload normalisation: the `images` field becomes a single `image`, `updatedBy` is forced to the caller, and default quantities are filled in.

Some external behaviour enters the model as parameters:

- **Crypto oracles.** bcrypt hashing and comparison, and JWT signing and verification, are function parameters.
- **The clock.** `NOW()` is a `Time` parameter.
- **Validation.** express-validator's verdict reaches a handler as its list of error messages.

Each model method is proved against a specification function or an explicit post-state. Each operation has a companion lemma that relates it to another operation or to an invariant. Examples:

- an add followed by a decrement of the same amount restores the cart;
- a split string rejoins to the original;
- a freshly registered user can log in;
- the token issued by login authenticates its bearer;
- a profile update never changes a role;
- changing a role decides the admin gate.

## Model

| member | source | states |
|---|---|---|
| Store.Database.DeleteUser | migrations/20251210090020_create-cart-items-table.js:24-30 | deleting a user removes exactly that user's cart lines (CASCADE) and clears `created_by` on that user's products (SET NULL); the schema constraints still hold |
| Store.LinesWithoutUser | src/models/cartModel.js:48-50 | the result holds exactly the lines of other users, with their quantities unchanged |
| Store.CreatorCleared | migrations/20251210090010_create-products-table.js:32-38 | same product ids; no product still names the deleted user as creator; `created_by` is the only column that can change, and products the user did not create are unchanged |
| Query.SelectOrdered | src/models/productModel.js:16-19 | the result is ordered by the key and is a permutation of exactly the rows that satisfy the filter |
| Query.InsertByKeySorted | src/models/productModel.js:9 | inserting into a sorted list keeps it sorted and adds exactly one occurrence of the row |
| Query.OnceEach | src/models/userModel.js:143-145 | a list that is a permutation of a set holds every member once and nothing else |
| Query.PercentMatchesAll | src/models/productModel.js:8 | the pattern `%` matches every string, the empty one included |
| Query.PlainPrefixMatch | src/models/productModel.js:8 | for a term without metacharacters, `term%` matches iff the case-folded term is a prefix of the case-folded name |
| Query.LeadingPercent | src/models/productModel.js:8 | a leading `%` matches iff the rest of the pattern matches some suffix of the name |
| Query.SearchPatternIsContainment | src/models/productModel.js:8 | for a term without `%`, `_` or `\`, `name ILIKE '%' \|\| term \|\| '%'` holds iff the case-folded term occurs in the case-folded name |
| Query.UnderscoreMatchesAnyCharacter | src/models/productModel.js:8 | a search term `_` matches a name that does not contain `_`: the term is a LIKE pattern, not a plain substring |
| Query.PushIfGiven | src/models/productModel.js:94-97 | pushing one optional key appends `col = $idx` and its value exactly when the key is defined, and keeps `$1..$k` numbered in order |
| Query.PlaceholderBindings | src/models/productModel.js:134-141 | the store binds `$i` to the i-th pushed value, for every clause |
| Query.StatementForBinds | src/models/userModel.js:111-117 | the built statement is well numbered, its WHERE placeholder `$(k+1)` is bound to the id, and its clauses bind the supplied values in order |
| Query.ApplyField | src/models/productModel.js:94-97 | an absent key contributes no clause; a present key runs its one assignment, then the rest of the statement |
| Query.ColumnsOfSupplied | src/models/userModel.js:85-88 | one key's clause names its column iff the key is defined |
| CartModel.UpsertEffect | src/models/cartModel.js:14-22 | an absent pair is created with the given quantity, a present one gets old + given, and every other pair is unchanged |
| CartModel.UpsertTwice | src/models/cartModel.js:16-19 | two adds of a then b equal one add of a + b: the original quantity (or 0) plus a + b |
| CartModel.DecrementEffect | src/models/cartModel.js:25-39 | a present pair with q - d >= 1 holds q - d, otherwise it is gone; an absent pair leaves the whole cart unchanged; other pairs are untouched |
| CartModel.DecrementKeepsPositive | src/models/cartModel.js:33-38 | whatever the amount, a decrement leaves no non-positive line behind in a cart of positive lines |
| CartModel.UpsertKeepsPositive | src/models/cartModel.js:14-22 | adding a positive quantity keeps every line positive |
| CartModel.NegativeAddStoresNonPositiveLine | src/models/cartModel.js:14-22 | nothing stops an add of a negative quantity from storing a line with a non-positive quantity |
| CartModel.DecrementUndoesUpsert | src/models/cartModel.js:25-39 | in a cart of positive lines, adding q to a pair and then decrementing it by q restores the cart exactly |
| CartModel.RemoveEffect | src/models/cartModel.js:41-46 | after remove the pair is absent, present before or not, and other pairs are unchanged |
| CartModel.StatementsKeepReferences | migrations/20251210090020_create-cart-items-table.js:24-38 | an accepted add, a decrement, a remove and a clear keep both cart foreign keys resolving |
| CartModel.UpsertCartItem | src/models/cartModel.js:14-22 | an out-of-range `integer` or a missing user or product fails with that error and changes nothing; otherwise the cart becomes the upserted map |
| CartModel.DecrementCartItem | src/models/cartModel.js:25-39 | subtract, then delete the line if it is no longer positive; a range error in the first statement changes nothing |
| CartModel.RemoveCartItem | src/models/cartModel.js:41-46 | exactly the one pair is deleted |
| CartModel.ClearCart | src/models/cartModel.js:48-50 | exactly the caller's lines are deleted |
| CartModel.GetCartItems | src/models/cartModel.js:3-12 | every row is one of the user's lines joined with the product's current name, price and image; every line appears, and appears once |
| ProductModel.SearchProducts | src/models/productModel.js:5-13 | the rows are ordered by name and are exactly the products whose name matches `%term%` |
| ProductModel.SearchIsContainment | src/models/productModel.js:5-13 | for a term without metacharacters, a product is found iff its name contains the term ignoring ASCII case |
| ProductModel.GetAll | src/models/productModel.js:16-19 | every product exactly once, ordered by name |
| ProductModel.GetByCategory | src/models/productModel.js:22-30 | exactly the products of the category, ordered by name |
| ProductModel.GetByBrand | src/models/productModel.js:33-41 | exactly the products of the brand, ordered by name |
| ProductModel.GetOnSale | src/models/productModel.js:44-51 | exactly the products on sale, ordered by name |
| ProductModel.GetById | src/models/productModel.js:54-59 | the stored row with that id, or none when no row has it |
| ProductModel.CreateProduct | src/models/productModel.js:64-84 | a NULL name, price, stock or `on_sale`, or an unknown creator, is refused and writes nothing; otherwise the new row, with a fresh id and no `updated_*`, is stored and returned; the serial is consumed either way |
| ProductModel.BuildProductUpdate | src/models/productModel.js:89-134 | the `fields`/`values`/`idx` loop builds the statement of the supplied keys followed by `updated_at = NOW()` |
| ProductModel.ProductStatementShape | src/models/productModel.js:131-140 | the SET list is never empty and ends with `updated_at = NOW()`; `$i` carries the i-th supplied value and the id is bound to `$(k+1)` in WHERE |
| ProductModel.SuppliedProductColumns | src/models/productModel.js:94-129 | a column gets a SET clause iff the body holds its key (one of the nine recognised keys) |
| ProductModel.ProductStatementBinds | src/models/productModel.js:94-140 | the store binds the statement to one clause per supplied key, in order, then `updated_at` |
| ProductModel.ApplyProductClauses | src/models/productModel.js:94-132 | running the bound clauses yields the merged row, or a NOT NULL error when name, price, stock or `on_sale` is given null |
| ProductModel.ProductUpdateEffect | src/models/productModel.js:135-142 | running the built statement on the row gives the merged row (supplied columns replaced, others unchanged, `updated_at` = now) or the NOT NULL error |
| ProductModel.UpdateProductCases | src/models/productModel.js:135-142 | an unknown id gives no row and no write; a null for a NOT NULL column is an error with no write; otherwise the merged row is stored and returned |
| ProductModel.UpdateKeepsIdentity | src/models/productModel.js:131-142 | only the addressed row changes; id, creator and creation time never change; an accepted update stamps `updated_at` |
| ProductModel.UpdateProduct | src/models/productModel.js:89-143 | the result and the new table are those of the update specification |
| ProductModel.DeleteProduct | src/models/productModel.js:148-153 | a product still in a cart is refused (RESTRICT) with no write; otherwise the answer is whether a row existed, and that row is gone |
| UserModel.CreateUser | src/models/userModel.js:8-31 | a null role, or an email already taken, is refused and writes nothing; otherwise the row gets the fresh id and the role "user" when none is given, and the answer carries no hash; the serial is consumed either way |
| UserModel.BoundRole | src/models/userModel.js:14 | an absent role binds "user"; a given role, null included, is bound as sent |
| UserModel.GetUserByEmail | src/models/userModel.js:37-49 | some row is answered iff the email is taken, and it is the credentials of a row with that email |
| UserModel.GetUserById | src/models/userModel.js:55-69 | the profile (no hash) of the row with that id, or none |
| UserModel.GetAllUsers | src/models/userModel.js:132-146 | every user exactly once, without hash, with `created_at`, ordered by email |
| UserModel.ListingStrictlyByEmail | src/models/userModel.js:143-145 | because emails are unique, no two rows of the listing share an email |
| UserModel.NothingSuppliedIsEmpty | src/models/userModel.js:106-109 | the field list is empty iff no key is defined |
| UserModel.BuildUserUpdate | src/models/userModel.js:81-113 | no key defined gives no statement; otherwise the statement of the supplied keys |
| UserModel.UserStatementShape | src/models/userModel.js:81-117 | placeholders are `$1..$k` in order, `$i` carries the i-th supplied value, and the id is appended last and bound to `$(k+1)` |
| UserModel.SuppliedUserColumns | src/models/userModel.js:85-104 | a column gets a SET clause iff its key holds a defined value |
| UserModel.UserStatementBinds | src/models/userModel.js:85-117 | the store binds the statement to one clause per supplied key, in order |
| UserModel.ApplyUserClauses | src/models/userModel.js:85-104 | running the bound clauses yields the merged row, or a NOT NULL error when the password hash or role is given null |
| UserModel.UserUpdateEffect | src/models/userModel.js:114-128 | running the built statement on the row gives the merged row or the NOT NULL error |
| UserModel.UpdateUserCases | src/models/userModel.js:106-128 | nothing supplied: the stored row's current profile (or no row) and no write; unknown id: no row; null for a NOT NULL column: error and no write; otherwise the merged row is stored and returned without hash |
| UserModel.UpdateKeepsIdentity | src/models/userModel.js:114-128 | only the addressed row changes; id, email and creation time never change; the role changes only when a role is supplied |
| UserModel.UpdateUser | src/models/userModel.js:76-129 | the result and the new table are those of the update specification |
| Auth.IndexOf | src/middlewares/auth.js:14 | the position of the first separator, or the length when there is none |
| Auth.Split | src/middlewares/auth.js:14 | at least one piece; the first piece is the text before the first separator; two or more pieces iff the separator occurs |
| Auth.SplitJoin | src/middlewares/auth.js:14 | joining the pieces of a split gives the string back, and no piece contains the separator |
| Auth.JoinSplit | src/middlewares/auth.js:14 | splitting the join of separator-free pieces gives the pieces back |
| Auth.PrefixIndex | src/middlewares/auth.js:14 | the first separator of `a + b`, when `a` has none, is the first one of `b` shifted by the length of `a` |
| Auth.BearerToken | src/middlewares/auth.js:10-14 | a token is extracted iff a header is present and starts with "Bearer " |
| Auth.BearerTokenIsFirstWord | src/middlewares/auth.js:14 | the token is the text after "Bearer " up to the next space, possibly empty |
| Auth.BearerRoundTrip | src/middlewares/auth.js:10-14 | a space-free token sent as "Bearer token" is read back exactly |
| Auth.AuthGate | src/middlewares/auth.js:8-28 | `next()` is reached iff the request was admitted; every other path answers 401 |
| Auth.AdmittedMeansVerifiedAndStored | src/middlewares/auth.js:15-24 | a request is admitted iff its bearer token verifies to a `userId` that exists, and the attached user is that user's current row, with the same id |
| Auth.IssuedTokenAuthenticates | src/middlewares/auth.js:8-24 | a space-free token that verifies to an existing user's id, sent as a bearer header, is admitted as that user |
| Auth.Authenticate | src/middlewares/auth.js:8-28 | missing header or token refused: 401 with nothing set; token verified: `req.userId` set even when the user is gone (401); user found: `req.user` set and `next()` |
| AdminGate.IsAdmin | src/middlewares/isAdmin.js:2-17 | no user: 500; a role other than "admin": 403; `next()` iff a user is attached and its role is exactly "admin" |
| AdminGate.AdminAfterAuthentication | src/middlewares/isAdmin.js:10-16 | behind `authenticate`, the gate passes iff the stored row of the token's user has the role "admin" |
| AdminGate.DefaultRoleIsNotAdmin | src/models/userModel.js:14 | a user created without a role is refused by the admin gate |
| UserController.Register | src/controllers/userController.js:18-50 | invalid input: 400; taken email: 409 with no write; otherwise the user is stored with the hashed password and role "user" and answered with 201 and the public fields only; the serial advances by one |
| UserController.Login | src/controllers/userController.js:55-79 | invalid input: 400; otherwise the login outcome over the `users` table |
| UserController.LoginFailuresLookAlike | src/controllers/userController.js:64-70 | login answers either a session or the single 401 "Credenciais inválidas", whether the email is unknown or the password wrong |
| UserController.LoginPicksTheRow | src/controllers/userController.js:63-74 | with unique emails, login checks the password of the one row with that email and signs a token for its id |
| UserController.RegisteredUserCanLogIn | src/controllers/userController.js:26-74 | right after registration, login with the same email and password returns 200 with a token for the new id |
| UserController.SessionTokenAuthenticates | src/controllers/userController.js:71-74 | when verification accepts what signing produced, the token of a successful login authenticates its bearer as the user who logged in |
| UserController.GetProfile | src/controllers/userController.js:84-89 | no attached user: 404; otherwise 200 with it |
| UserController.ProfileAfterAuthentication | src/controllers/userController.js:84-89 | behind `authenticate`, the profile is the stored row of the token's user, without the hash |
| UserController.ProfileUpdates | src/controllers/userController.js:100-117 | the update never carries a role, and carries a hash iff the password is truthy, namely the hash of that password |
| UserController.PatchProfile | src/controllers/userController.js:94-123 | invalid input, or a truthy password shorter than 6: 400 with no write; otherwise the update of the caller's row, answered with 200 (or 500 on a store error) |
| UserController.PatchNeverChangesRole | src/controllers/userController.js:112-117 | a profile update leaves every user's role unchanged |
| UserController.ChangedPasswordLogsIn | src/controllers/userController.js:102-117 | after a profile update with a new password, that password logs in |
| UserController.ListUsers | src/controllers/userController.js:129-137 | 200 with every user once, ordered by email |
| UserController.ChangeUserRole | src/controllers/userController.js:143-161 | invalid input: 400 with no write; otherwise updates only the role: no row gives 404, the updated profile 200 |
| UserController.RoleChangeDecidesAdminGate | src/controllers/userController.js:152-156 | an unknown id gives 404; otherwise the answer is the updated profile, and the admin gate then passes the user iff the new role is "admin" |
| ProductController.GetAll | src/controllers/productController.js:17-28 | a truthy `search` answers the name search, otherwise every product; 200, ordered by name |
| ProductController.EmptySearchMatchesAll | src/controllers/productController.js:19-22 | an empty search term would match every product, so the truthiness test changes no answer |
| ProductController.GetByCategory | src/controllers/productController.js:33-44 | 200 with the category's products, ordered by name |
| ProductController.GetByBrand | src/controllers/productController.js:49-60 | 200 with the brand's products, ordered by name |
| ProductController.GetOnSale | src/controllers/productController.js:65-73 | 200 with the products on sale, ordered by name |
| ProductController.GetById | src/controllers/productController.js:78-88 | 200 with the stored row, or 404 "Produto não encontrado" |
| ProductController.CreateProduct | src/controllers/productController.js:93-122 | 201 with the stored row built from the body (first image, `on_sale`, caller as creator); a store error: 500 with the error and no write; the serial advances by one either way |
| ProductController.CreateByStoredUser | src/controllers/productController.js:105-115 | for a stored caller the insert is refused only for a missing name, price, stock or `on_sale`, never for the creator; the row names the caller and carries the first image of an array |
| ProductController.UpdateProduct | src/controllers/productController.js:127-144 | the answer and the new table are those of the model update of the normalised body |
| ProductController.UpdateRecordsEditor | src/controllers/productController.js:129-139 | unknown id: 404; a null name, price, stock or `on_sale`: 500; an accepted update records the caller as `updated_by` and the time as `updated_at`, with `images` winning over `image` |
| ProductController.DeleteProduct | src/controllers/productController.js:149-159 | a product still in a cart: 500 and no write; otherwise 204 when a row was removed and 404 when none existed |
| CartController.AddQuantity | src/controllers/cartController.js:18 | a missing, null or zero quantity becomes 1; any other quantity, negatives included, is used as sent |
| CartController.CartReply | src/controllers/cartController.js:19 | 204 with no body iff the model call succeeded |
| CartController.FetchCart | src/controllers/cartController.js:9-13 | 200 with exactly the caller's lines, each joined with its product, once each |
| CartController.AddToCart | src/controllers/cartController.js:15-20 | upserts the caller's line with the defaulted quantity and answers 204; a store error is left unhandled with no write; a missing or null `productId` is refused by NOT NULL (or first by the quantity's range), unhandled, with no write |
| CartController.DecrementFromCart | src/controllers/cartController.js:22-28 | decrements the caller's line for the path's product by the quantity, or by 1 when the key is missing; answers 204 |
| CartController.RemoveFromCart | src/controllers/cartController.js:30-35 | deletes the caller's line for the path's product and answers 204 |
| CartController.EmptyCart | src/controllers/cartController.js:37-41 | deletes the caller's lines and answers 204 |
| CartController.AddFailsOnlyForProductOrRange | src/controllers/cartController.js:16-18 | for an authenticated caller an add fails only for an unknown product or an out-of-range quantity |
| CartController.DefaultAddThenDefaultDecrement | src/controllers/cartController.js:18-25 | an add without quantity followed by a decrement without quantity restores a cart of positive lines |

## Left out

- Process and wiring: the server lifecycle, connection-pool configuration, the Express app and router, and the upload middleware (multer disk storage) are not part of this model. A handler is modelled as the function it is, called with the values the router hands it.
- Request validation (express-validator chains) is not modelled. Its outcome is a parameter, the list of error messages. The product handlers never consult it, so product bodies reach the store unvalidated: nulls give NOT NULL errors, as modelled.
- bcrypt and JWT are function parameters. The model does not cover salt randomness, signature checking, the 7-day token expiry or `verify` rejecting an empty token. Lemmas that need a relation between signing and verification state it as a precondition.
- Concurrency is out of scope:
  - the race between the two statements of a decrement;
  - the race between `register`'s email check and its insert (in the sequential model the insert cannot hit the unique index);
  - row locking.
  All operations run one at a time.
- Store failures other than constraint violations (a lost connection, a timeout) and bcrypt failures are not modelled. So in the model `authenticate`'s catch block (401 "Token inválido") is reached only when token verification refuses the token, never through a failed user lookup. The 500 answers of the product listings and of `register` cannot occur: a SELECT never fails, and `register` inserts without a role after checking the email, so neither NOT NULL nor the unique index can refuse it. The 500 of `patchProfile` cannot occur either, because its update never carries a null password hash or any role.
- JSON values of the wrong type are not modelled. Body fields are absent, null or of the expected type (for `productId` in POST /cart, absent and null are one case: both bind NULL); a number where text is expected, or non-string array elements, are out of scope. Path parameters are already integers, so a non-numeric id, which PostgreSQL would refuse, is not modelled.
- A missing request body (`req.body` undefined, which makes destructuring throw) is not modelled.
- Integer widths are modelled only for cart quantities (32-bit `integer`, out-of-range errors). `stock` and the user and product ids are unbounded. `price` is `numeric(10,2)`, held as a whole number of cents with no precision bound.
- Collation and locale:
  - `ORDER BY` text is ordered by code point, not by the database collation;
  - `ILIKE` folds only ASCII letters;
  - JavaScript `length` counts UTF-16 code units, while the model counts characters.
- `ProductModel.GetAll` and the other listings: rows with equal names may come back in any order. The model fixes one order, and its contracts state only sortedness and the multiset of rows.
- `CartController.DecrementFromCart`: an explicit JSON `null` quantity is not modelled. The store would then write NULL into the quantity and fail with a NOT NULL violation.
- `Auth.Authenticate`: a `userId` claim that is not an integer is not modelled; a missing claim is. Tokens are signed by this server with integer ids.
- The `admin_logs` table is never written by the code modelled here, so it is not part of the model.
- Product column defaults (`price`, `stock`, `on_sale`) never apply, because the insert lists every column. Likewise the `quantity` default of `cart_items` never applies, because the upsert always binds a quantity.
- Only `products.created_by` has a foreign key. `updated_by` references nothing, so deleting a user leaves it untouched.
