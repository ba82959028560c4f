# Product catalog write path and checkout preview, in Dafny

This project models the two pieces of the `products` app that hold real logic.

The **checkout preview** is `CheckoutValidateAPIView.post` in `products/views_checkout.py`, with its request serializer in `products/serializers_checkout.py`.
- A cart of `(product_id, qty)` lines is validated with Django REST framework's field rules.
- The ids are looked up. Any missing id ends the request with the list of missing ids.
- Each line is priced with `Decimal` rounding ROUND_HALF_UP to cents and compared with the stock on hand.
- The served lines are rendered into a Portuguese order message and a `wa.me` deep link.

The **product write path** is `ProductWriteSerializer` in `products/serializers.py`.
- `category_ids` and `images` are validated.
- `create` and `update` run inside one transaction.
- `category_ids` replaces the product's category links.
- `images` is a list of declarative image operations: create from an uploaded file, update alt text or file, delete.

Both rest on the entities and database constraints of `products/models.py`:
- the price column has 10 digits, 2 of them decimals;
- stock is non-negative;
- a (product, category) pair is linked at most once;
- deleting a product cascades to its links and images.

Modules, one per concern:
- `Common`: JSON values, Python truthiness, DRF's `UUIDField` conversion.
- `Text`: `str.isdigit` filtering, `str(int)`, `join`/`split`, `strip`, single-character `replace`.
- `Money`: a `Decimal` as sign, coefficient and exponent; `quantize` to cents with ROUND_HALF_UP; `f'{d:.2f}'`; the Brazilian rendering.
- `Catalog`: the tables and their constraints.
- `CheckoutRequest`: the checkout serializers.
- `Checkout`: the view.
- `CheckoutScenarios`: worked carts.
- `WriteValidation`: `validate_images`, `validate_category_ids` and the two list fields.
- `Reconciler`: `create` and `update`.
- `ReconcilerProperties`: what they promise.

How the model reads the code:
- Every operation is a pure function or method.
- Each exception the code raises, or the database or Python raises on its behalf, is a constructor of a result type. The one exception not modelled is listed under "## Left out": `CharField`'s refusal of lone surrogates.
- `transaction.atomic` is modelled by returning either the committed database or a failure (`Reconciler.After`).
- Primary keys from `uuid.uuid4()` are drawn from a generator parameter at a counter. Properties that need distinct keys say so with `Reconciler.FreshIn`.
- Foreign keys are checked at commit, as Django's deferred constraints are.
- `Reconciler.Env.multipart` says how the body was sent. A JSON body's `"images": null` is refused by the field itself, because `JSONField` does not allow null. The multipart text `"null"` passes that check and is parsed to `None` only afterwards.
- A null checkout body is refused with the null error under `non_field_errors`. A null cart line is refused with the null error at its index, before the object check.

Some behaviours of the code are easy to misread; the model follows the code:
- A price may be negative. `DecimalField` has no lower bound and the serializer adds none.
- The `ValidationError`s raised by `create` and `update` do not name the index of the failing image operation. Only `validate_images` names it.
- `create` with `"alt_text": null` fails with a database error. When `update` creates an image it stores `''` instead, and on an existing image of the product a null `alt_text` leaves the old text in place.
- A multipart `images` value of `"null"` reaches `create` as `None` and fails when iterated.
- The same value makes `update` leave the images alone.

## Model

| member | source | states |
|---|---|---|
| Common.UuidField | products/serializers.py:113-117 | DRF's `UUIDField.to_internal_value`: an integer converts exactly when it is in [0, 2^128); a string goes through the hex grammar; null, lists and objects never convert |
| Text.DigitsOf | products/views_checkout.py:44 | the kept characters are all digits and never more than the input; a single character is kept exactly when it is a digit |
| Text.DigitsOfAppend | products/views_checkout.py:44 | the digit filter distributes over concatenation, so it keeps exactly the digits of the phone, in order |
| Text.DigitsOfIdempotent | products/views_checkout.py:44 | filtering an already filtered phone changes nothing |
| Text.NatToStringRoundTrip | products/views_checkout.py:31 | `str(n)` of a quantity reads back as the same number |
| Text.SplitJoin | products/views_checkout.py:40 | `'\n'.join` of newline-free lines is undone by splitting at newlines |
| Text.StripIsSlice | products/serializers_checkout.py:11-12 | CharField trimming removes only whitespace, and only at both ends |
| Text.StripIdempotent | products/serializers_checkout.py:11-12 | trimming a trimmed value changes nothing |
| Text.ReplaceBack | products/views_checkout.py:19 | replacing `.` by `,` in a string free of `,` can be undone |
| Money.FromCents | products/models.py:12 | a two-place decimal is determined by its cents and carries their sign |
| Money.MulQty | products/views_checkout.py:101 | `unit_price * requested` keeps the exponent and multiplies the cents by the quantity |
| Money.MulQtyCents | products/views_checkout.py:100-101 | `Decimal(str(price)) * requested` is the two-place amount of price times quantity in cents, sign included |
| Money.RoundsHalfUpUnique | products/views_checkout.py:13-14 | at most one number of cents is the ROUND_HALF_UP rounding of a decimal |
| Money.Quantize | products/views_checkout.py:13-14 | for amounts whose cents fit in 28 digits (below 10^28 cents, where `quantize` would raise), `_money` gives a two-place decimal with the input's sign whose cents are the ROUND_HALF_UP rounding of the input |
| Money.QuantizeCents | products/views_checkout.py:13-14 | `_money` leaves a two-place decimal unchanged |
| Money.QuantizeIdempotent | products/views_checkout.py:13-14 | applying `_money` twice is applying it once |
| Money.QuantizeExamples | products/views_checkout.py:13-14 | halves round away from zero (0.005 to 0.01, 2.345 to 2.35, -2.345 to -2.35), and -0.001 keeps its sign as -0.00 |
| Money.Fixed2 | products/views_checkout.py:114-115 | `f'{d:.2f}'` ends in a point and two digits, with only digits, the point and a sign before |
| Money.Fixed2RoundTrip | products/views_checkout.py:123-132 | `Decimal(f'{d:.2f}')` reads a two-place decimal back unchanged, sign of zero included |
| Money.ParseFixed2 | products/views_checkout.py:127-128 | `Decimal(s)` on a rendered amount gives a two-place decimal whose sign is the leading minus; with `Fixed2RoundTrip` it reads every rendering back exactly |
| Money.Brl | products/views_checkout.py:17-19 | `_brl` ends in a comma and two digits |
| Money.BrlRoundTrip | products/views_checkout.py:17-19 | `_brl` is the two-place rendering of the quantized amount with the point replaced by a comma |
| Money.BrlExample | products/views_checkout.py:17-19 | 159.80 renders as `159,80`; -0.05 renders as `-0.05`; -0.001 quantizes to a negative zero rendered `-0.00` |
| Catalog.DeleteProduct | products/models.py:43-63 | deleting a product removes exactly its links and images, keeps every other row and keeps the constraints |
| Catalog.DeleteCategory | products/models.py:48 | deleting a category removes exactly the links naming it and keeps the constraints |
| CheckoutRequest.UuidValue | products/serializers_checkout.py:5 | `product_id` is accepted exactly when it converts to a UUID; null gives the null error and any other failure the invalid-UUID error |
| CheckoutRequest.QtyValue | products/serializers_checkout.py:6 | an accepted `qty` is at least 1 and is the integer sent, or the integer its text converts to; null gives the null error; a JSON integer below 1 gives the minimum error; an over-long string is refused before conversion; booleans, lists and objects are invalid |
| CheckoutRequest.TextValue | products/serializers_checkout.py:11-12 | absent or blank gives `''`, null is refused, any other value is converted as `CharField` converts it; an accepted value is trimmed and free of NUL |
| CheckoutRequest.TextOf | products/serializers_checkout.py:11-12 | a string is stripped and accepted exactly when the stripped text has no NUL; an integer is always accepted as `str(i)`; null, booleans, lists and objects are invalid; an accepted text is trimmed and NUL-free |
| CheckoutRequest.IntToStringStripped | products/serializers_checkout.py:11-12 | an integer given for a text field is rendered without surrounding whitespace |
| CheckoutRequest.ValidateItem | products/serializers_checkout.py:4-6 | a cart line is accepted exactly when it is an object whose two fields convert, with that product id and that qty; a null line gives the null error at its index; in an object, each failing field's error is reported at the line's index, and no error names a field that converted |
| CheckoutRequest.ValidateItems | products/serializers_checkout.py:10 | a list of lines is accepted exactly when every line is, giving the converted lines in order |
| CheckoutRequest.ValidateItemsErrors | products/serializers_checkout.py:10 | a rejected list reports every error of every invalid line, only those, each under its own line index, with lines in list order |
| CheckoutRequest.ItemsValue | products/serializers_checkout.py:10 | `items` missing gives the required error, null the null error, a non-list the not-a-list error, and a list is validated line by line |
| CheckoutRequest.ValidateCheckout | products/serializers_checkout.py:9-12 | the body is accepted exactly when it is an object with a valid `items` list and convertible optional strings; the accepted cart keeps every line in order, each with qty at least 1; a null body gives the null error; the errors of `items`, `customer_name` and `notes` are all reported |
| Checkout.CartIds | products/views_checkout.py:78 | `product_ids` has one entry per cart line, the line's id, in cart order |
| Checkout.MissingIds | products/views_checkout.py:83 | the missing list is empty exactly when every requested id has a product, and it holds every missing id and no present one; a one-line cart gives its id exactly when it is missing |
| Checkout.MissingIdsCount | products/views_checkout.py:78-83 | each missing id is listed as often as the cart requests it |
| Checkout.MissingIdsAppend | products/views_checkout.py:83 | the missing ids of two carts side by side are those of the first followed by those of the second, so the list follows cart order |
| Checkout.FindMissing | products/views_checkout.py:83 | the loop builds the missing ids in cart order, repeats kept |
| Checkout.PricedLinesIndex | products/views_checkout.py:95-117 | the response has one entry per cart line, in order, each priced from its own product |
| Checkout.PricedLinesEntries | products/views_checkout.py:107-117 | entry k carries line k's id and quantity, the product's stock, the stock test, and the exact unit price and subtotal |
| Checkout.AnyOverflowsIff | products/views_checkout.py:101 | the cart overflows the 28-digit context exactly when one line's amount does |
| Checkout.AllServedIff | products/views_checkout.py:103-105 | `ok` is true exactly when every line's stock covers its quantity |
| Checkout.PriceOne | products/views_checkout.py:96-117 | one line: its amount is price times quantity in cents, and it is in stock exactly when the stock covers the quantity |
| Checkout.FindOverflow | products/views_checkout.py:101 | the scan reports an overflow exactly when some line's amount is too wide to quantize |
| Checkout.PriceLines | products/views_checkout.py:90-120 | the pricing loop yields the per-line entries, `ok` as every line served, and the total of the served lines only |
| Checkout.ReadBack | products/views_checkout.py:123-132 | reading the rendered unit price and subtotal back gives the exact two-place amounts |
| Checkout.CollectOkItems | products/views_checkout.py:123-132 | `items_ok` holds the served lines, in order, with their amounts read back |
| Checkout.PriceLineAmounts | products/views_checkout.py:100-115 | a line's rendered unit price and subtotal are the exact cents of the price and of price times quantity |
| Checkout.ValidateCart | products/views_checkout.py:70-148 | the view returns the missing ids exactly when some product is missing, and otherwise the reference response |
| Checkout.CheckoutOutcome | products/views_checkout.py:78-101 | missing products are reported first, non-empty, and nothing is priced; a 500 comes exactly from an amount too wide for 28 digits; every other cart is priced |
| Checkout.CheckoutResponse | products/views_checkout.py:90-143 | a priced response has one entry per line with id, quantities, stock test and exact amounts; `ok` is the conjunction of the lines; the total is that of the served lines |
| Checkout.MessageLinesNoNewline | products/views_checkout.py:22-40 | with newline-free name, notes and product names, no line of the message holds a newline |
| Checkout.MessageLayout | products/views_checkout.py:22-40 | the message splits into greeting, blank, one line per served item, blank, total, and blank plus notes only when notes are given |
| Checkout.DeepLinkParts | products/views_checkout.py:43-46 | the link is empty exactly when no phone is configured; otherwise it is the wa.me prefix, the phone's digits up to the first `?`, then `?text=` and the quoted message |
| Checkout.InStockIsOneUnit | products/models.py:23-24 | `is_in_stock` is the checkout's test for a quantity of one |
| Checkout.InStockIsNotEnough | products/models.py:23-24 | a product in stock can still fail a line asking for two when it has one |
| Checkout.TotalIsListedSum | products/views_checkout.py:119-134 | the total equals the sum of the subtotals the message lists |
| CheckoutScenarios.WidgetOutOfStock | products/views_checkout.py:95-143 | asking 2 of a product with 1 in stock gives `ok` false, an entry not in stock, total 0.00 and a message with no item lines |
| CheckoutScenarios.GadgetForAna | products/views_checkout.py:95-143 | 2 units at 29.95 give subtotal and total 59.90 and a message greeting the customer by name with the one item |
| CheckoutScenarios.MissingShortCircuit | products/views_checkout.py:83-88 | a cart naming an unknown id twice reports it twice and prices nothing |
| WriteValidation.CheckOp | products/serializers.py:104-125 | one image operation passes exactly when it is well formed; each error kind (not an object, unknown keys, bad id, delete without id, nothing to create) is reported exactly when its check is the first to fail, and unknown keys are named |
| WriteValidation.FirstBadOp | products/serializers.py:104-125 | the reported element is the first ill-formed one, and all before it are well formed |
| WriteValidation.ValidateImages | products/serializers.py:96-127 | `None` passes, a non-list is refused, and a list passes exactly when every element is a well-formed operation; otherwise the first bad index is reported |
| WriteValidation.MissingCategories | products/serializers.py:88-89 | the missing list holds exactly the listed ids with no category, each as often as it was listed |
| WriteValidation.MissingCategoriesAppend | products/serializers.py:89 | the missing ids of two lists side by side are those of the first followed by those of the second, so the error follows input order |
| WriteValidation.ValidateCategoryIds | products/serializers.py:86-94 | the ids pass unchanged exactly when every one names a category; otherwise the missing ones are reported |
| WriteValidation.CategoryIdsValue | products/serializers.py:72-77 | `category_ids` is accepted exactly when it is a list of convertible ids that all exist, giving them in order; null and non-lists give their own errors, and a list goes to the list check |
| WriteValidation.BadUuidIndices | products/serializers.py:72-77 | `ListField` reports exactly the indices of the elements that are not UUIDs |
| WriteValidation.BadUuidIndicesIncreasing | products/serializers.py:72-77 | those indices are listed in increasing order, each once |
| WriteValidation.CategoryIdsList | products/serializers.py:72-94 | a list of ids is accepted exactly when every element converts and names a category, giving the ids in order; otherwise the error lists the non-UUID indices or, when all convert, the missing categories |
| WriteValidation.ImagesValue | products/serializers.py:79 | a JSON-body null is refused before `validate_images`; otherwise the field's result is that of `validate_images`, and `None` is accepted only from a multipart form |
| WriteValidation.ValidateWrite | products/serializers.py:72-127 | the write is accepted exactly when each sent field is valid, with the validated values; the error of each failing field is in the error list, category_ids' first, and no error names a field that passed |
| WriteValidation.ImagesExamples | products/serializers.py:96-127 | a delete without an id is reported at its index, an unknown key is reported with its name, and a non-list is refused |
| WriteValidation.MissingCategoriesExample | products/serializers.py:86-94 | `[a, b, a]` with only b existing reports `[a, a]` |
| Reconciler.ApplyPatch | products/serializers.py:171-173 | the fields sent are written and the others keep their values |
| Reconciler.InsertLinks | products/serializers.py:143-146 | `bulk_create` with ignored conflicts keeps existing links, adds only links of this product to listed categories, never duplicates a pair, and with fresh keys adds exactly the listed categories |
| Reconciler.ReplaceLinks | products/serializers.py:175-181 | with fresh keys, the product's categories become exactly the listed ones; other products' links are untouched and pairs stay unique |
| Reconciler.UploadedFile | products/serializers.py:129-133 | without a request nothing is found; a string key finds its file; a list or object key raises |
| Reconciler.FileFor | products/serializers.py:207-212 | a file key that names no upload fails with that key |
| Reconciler.NewImage | products/serializers.py:227-231 | a new image is stored under the next drawn key, which must be unused |
| Reconciler.UpdateOp | products/serializers.py:186-231 | one update operation changes only images of this product and draws at most one key |
| Reconciler.UpdateOps | products/serializers.py:186-231 | the update loop changes only images of this product; every image it leaves is an old one or one under a key drawn during the loop |
| Reconciler.CreateOp | products/serializers.py:149-162 | a create operation succeeds exactly when it has no id, names an uploaded file, has a non-null alt text and the drawn key is unused; it then adds that one image |
| Reconciler.CreateOps | products/serializers.py:149-162 | the create loop adds one image of the product per operation under the keys drawn, keeps every old image, and rejects any operation with an id |
| Reconciler.Commit | products/serializers.py:166-167 | the transaction commits exactly when every foreign key holds |
| Reconciler.Update | products/serializers.py:166-233 | a committed update writes the patch, keeps the categories table, and leaves links and images alone when their keys were not sent |
| Reconciler.UpdateStart | products/serializers.py:166-181 | the patched product is saved, the product set is unchanged and the other products are untouched; links of other products are kept, pairs stay unique, and with fresh keys the product's categories become exactly the listed ones |
| Reconciler.Create | products/serializers.py:135-164 | a committed create adds the product under a new key, keeps the categories table, and a `None` image list never commits |
| Reconciler.CreateStart | products/serializers.py:135-146 | the product is added under the first drawn key and the other products are untouched; existing links are kept, pairs stay unique, and with fresh keys the new product gains exactly the listed categories |
| Reconciler.CreateProduct | products/serializers.py:135-164 | a create is refused before any write exactly when field validation fails |
| Reconciler.UpdateProduct | products/serializers.py:166-233 | an update is refused before any write exactly when field validation fails |
| ReconcilerProperties.UpdateSetsCategories | products/serializers.py:175-181 | after an update the product's categories are exactly the set listed, other products' links are untouched, pairs stay unique, and an absent key changes no link |
| ReconcilerProperties.DuplicateCategoriesCollapse | products/serializers.py:175-181 | with fresh keys, replacing categories with `[A, A, B]` yields exactly `{A, B}`, each linked once |
| ReconcilerProperties.UpdateOpsForeignImage | products/serializers.py:194-198 | an operation naming an image the product does not own fails the loop, whatever the operations before it did, provided no key drawn during the loop equals that id |
| ReconcilerProperties.UpdateForeignImageFails | products/serializers.py:194-198 | such an update fails and leaves the database unchanged |
| ReconcilerProperties.RollbackExample | products/serializers.py:186-215 | updating owned image X's alt text and then naming a foreign image Y fails on Y, and X keeps its old alt text |
| ReconcilerProperties.UpdatePreservesValid | products/serializers.py:166-233 | an update with valid fields keeps every schema constraint |
| ReconcilerProperties.CreatePreservesValid | products/serializers.py:135-164 | a create with a valid product keeps every schema constraint |
| ReconcilerProperties.CreateRejectsImageIds | products/serializers.py:148-151 | on create, any image operation with a truthy id fails the request |
| ReconcilerProperties.CreateAddsImages | products/serializers.py:137-162 | a committed create gives the new product exactly one image per operation under the drawn keys, keeps all old images, and links exactly the listed categories |
| ReconcilerProperties.UpdateOpOnOwnedImage | products/serializers.py:194-215 | `delete: true` removes exactly the image; otherwise only its alt text (when non-null) and file (when a key is given) change |
| ReconcilerProperties.UpdateOpNewImage | products/serializers.py:217-231 | without an id, a delete is ignored, a missing file key fails, and otherwise one image is created with alt text `alt_text or ''` |
| ReconcilerProperties.ValidatedOpsSkipRechecks | products/serializers.py:113-125 | operations that passed `validate_images` never fail the update loop's own id conversion or file-key check |
| ReconcilerProperties.NullImagesByTransport | products/serializers.py:79 | a JSON body's `"images": null` makes create and update alike a validation error; the multipart `"null"` passes validation and create then fails |
| ReconcilerProperties.ValidatedUpdateNeverFailsChecks | products/serializers.py:86-125 | after validation, an update on a valid database never fails its foreign keys, id conversion or file-key check |

## Left out

- Field validation of `name`, `description`, `price` and `stock` by the model serializer. `Reconciler.Patch` and the created `Product` are taken as already validated values.
- Image storage. A file is an opaque blob, so `upload_to`, storage names and `get_image_url` are left out.
- The read serializers, the view sets, the admin and the URL configuration. They only route to the modelled code.
- The audit fields of the shared base model: timestamps, `created_by`/`updated_by`, `deleted_at`. No business logic reads them.
- The database length limit of 255 on `alt_text`. Whether it is enforced depends on the database engine. An alt text is kept as the JSON value sent, and Python's `str()` of non-string values is not modelled.
- Multipart parsing beyond the `multipart` flag. `images` is taken as already decoded JSON, and `category_ids` as a JSON list rather than repeated form fields.
- `request.FILES` is modelled as one file per key. With several files under one key, the last one is taken.
- JSON numbers with a fraction or exponent. Every modelled number is an integer.
- `uuid.UUID(hex=...)`, DRF's text-to-integer conversion and `urllib.parse.quote`. These are parameters of the model, because their grammars are foreign to it.
- `str.isdigit` is modelled on ASCII digits only. Python also accepts other Unicode digits.
- Concurrency. Checkout reads are not isolated from writes, and the model handles one request at a time.
- The error message texts, which are in Portuguese. Only the kind of each error is kept.
- Reconciler.UpdateStart: the product's resulting categories are stated only for freshly drawn, distinct link keys, as for `InsertLinks`.
- Reconciler.CreateStart: the categories the new product gains are stated only for freshly drawn, distinct link keys, as for `InsertLinks`.
- Reconciler.InsertLinks: the categories it adds are stated only for freshly drawn, distinct keys. With a colliding `uuid4` key the row would be skipped, which the model allows but does not describe further.
- ReconcilerProperties.UpdateSetsCategories: assumes the keys drawn for the new links are fresh and distinct, as `uuid4` gives in practice.
- ReconcilerProperties.CreateAddsImages: assumes fresh link keys, for the same reason.
- ReconcilerProperties.UpdateOpsForeignImage: assumes no key drawn from the loop's counter on equals the foreign image's id. If an earlier operation's `uuid4` key collided with it, that image would be owned and the source would accept the operation too.
- ReconcilerProperties.UpdateForeignImageFails: assumes no key drawn during the request equals the foreign image's id.
- Reconciler.ReplaceLinks: the product's resulting categories are stated only for freshly drawn, distinct link keys, as for `InsertLinks`.
- ReconcilerProperties.DuplicateCategoriesCollapse: assumes the three keys drawn for the links are fresh and distinct, as `uuid4` gives in practice.
- `CharField`'s refusal of lone surrogate code points in `customer_name` and `notes`. A Dafny string cannot hold a lone surrogate, so this error cannot arise in the model.
- Checkout.CheckoutOutcome: the total is compared with the 28-digit limit only once, after all lines. A sum of mixed-sign lines whose running total passes 10^28 midway and returns below it is not modelled.
