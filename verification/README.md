# Online store backend: orders, uploads and product request rules

A Dafny model of the sequential logic of an Express/Mongoose e-commerce
backend. The document database becomes a `Store` object holding one map per
collection (categories, products, order items, orders), a counter that hands
out fresh ids, and a ghost journal of the writes the handlers issue, so the
order of writes can be stated.

- `order_controller.dfy` (module `OrderController`): order creation, order
  status update and order deletion. Order creation has three phases. First a
  loop walks the requested line items and checks each one against the stored
  stock. It decrements a loaded copy of the product and adds to the total.
  Nothing is written until the loop ends. Then the order items are saved, then
  the order, then the products. Each phase is a method proved against
  specification functions: `StockCheck`, `Total`, `StockAfter`, `ItemRecords`.
  The lemmas beside those functions state what the order does to the store.
- `uploads.dfy` (module `Uploads`): the upload rules of the product routes.
  These are the mimetype check, the stored file name
  (`<stem>-<timestamp>.<ext>`) and the file-count limits of the single-image
  and gallery routes.
- `products_controller.dfy` (module `ProductsController`): the category filter,
  the featured-limit default and the upload URL. It also holds the checks and
  writes of product creation, product update and gallery update.
- `strings.dfy` (module `Strings`): JavaScript's `split`/`join` with a
  one-character separator, the `split(a).join(b)` replace-all idiom, and
  decimal rendering and reading of whole numbers, with their round trips.
- `models.dfy` (module `Models`): the entities, the error replies, and the
  `Store` class.

Behaviour kept from the code:

- Every stock check reads the product as stored. The products are written
  back only after the order is saved. So two line items for the same product
  are each checked against the original stock, and the customer pays for
  both. The stock written back is the original minus the quantity of the
  last such item (`RepeatedProductCheckedAgainstStoredStock`,
  `StockAfterLastOccurrence`). A line item of quantity 0 leaves its loaded
  copy unmodified. Saving an unmodified document writes nothing, so such an
  item does not overwrite the stock an earlier item wrote.
- A line item that names no stored product makes the handler read a field of
  `null`. That throws, so the reply is the generic 500, not 404.
- When the order save fails, the order items already saved stay saved. No
  product is written.
- An unknown order on update is reported with 500 ("Order was not found!"),
  while delete reports an unknown order with 404. `updateOrder` writes only
  `status`.

## Model

| member | source | states |
|---|---|---|
| `OrderController.StockCheck` | controllers/orderController.js:60-75 | the request passes the stock check exactly when every line item names a stored product whose stored stock minus the quantity is not negative; otherwise the error is the generic 500 or the insufficient-stock 500 |
| `OrderController.StockCheckReportsFirstMisfit` | controllers/orderController.js:60-75 | a refused request is refused for the first line item in request order that does not fit: insufficient stock if its product exists, the generic error if it does not |
| `OrderController.Total` | controllers/orderController.js:76 | the order total is the request-order sum of quantity times stored price; it is not negative when no named product has a negative price |
| `OrderController.TotalAppend` | controllers/orderController.js:76 | the total (sum of quantity times stored price in request order) of two requests joined is the sum of their totals |
| `OrderController.StockAfter` | controllers/orderController.js:106-108 | the product saves keep the set of stored products |
| `OrderController.StockAfterOnlyStock` | controllers/orderController.js:65 | the saves change a product's `countInStock` and no other field, because only stock and price were selected and only modified fields are written |
| `OrderController.StockAfterUntouched` | controllers/orderController.js:106-108 | a product that no line item of non-zero quantity names keeps its stored record |
| `OrderController.StockAfterLastOccurrence` | controllers/orderController.js:66-67 | after the saves a product's stock is its stored stock minus the quantity of the last line item of non-zero quantity naming it; a product named once loses exactly its quantity |
| `OrderController.StockAfterNonNegative` | controllers/orderController.js:66-67 | when every line item fits, every product the request names ends with stock >= 0 |
| `OrderController.RepeatedProductCheckedAgainstStoredStock` | controllers/orderController.js:65-67 | two line items for one product both pass whenever each alone fits the stored stock; the total charges both and the stock written back is reduced by the second quantity only, or by the first when the second is 0 |
| `OrderController.ItemIds` | controllers/orderController.js:77 | the order-item ids are one per line item, strictly increasing, all in the block of fresh ids |
| `OrderController.ItemRecords` | controllers/orderController.js:81-83 | the order-item records a request writes lie in its block of fresh ids; `ItemRecordAt` and `ItemRecordKeys` pin their contents and keys |
| `OrderController.ItemRecordAt` | controllers/orderController.js:61-64 | the order item saved under the k-th id holds the k-th line item's quantity and product |
| `OrderController.ItemRecordKeys` | controllers/orderController.js:81-83 | exactly the fresh ids of the request's order items are written to the order-item collection |
| `OrderController.OrderItemsFollowRequest` | controllers/orderController.js:87 | the order's id list has one id per line item in request order, each naming the record of that line item, and names every written record |
| `OrderController.WritesOrdered` | controllers/orderController.js:81-108 | in the writes of an accepted order every order-item save comes before the order save, and the order save before every product save |
| `OrderController.ResolveLineItems` | controllers/orderController.js:60-78 | the loop writes nothing; it refuses with `StockCheck`'s error, or yields the total, one id and one order item per line item, and the decremented product copies |
| `OrderController.SaveOrderItems` | controllers/orderController.js:81-83 | the order items are added under their ids, in order, and nothing else is written |
| `OrderController.SaveProducts` | controllers/orderController.js:106-108 | the products become `StockAfter` of the stored ones; each modified copy is saved, in request order, and a copy of a zero-quantity item writes nothing |
| `OrderController.CreateOrder` | controllers/orderController.js:49-115 | a refused request leaves the store unchanged; an accepted one saves the order items, then the order with `Total` as its price and the item ids in request order, then the products as `StockAfter`; a failed order save leaves the items saved and nothing else written |
| `OrderController.UpdateOrderStatus` | controllers/orderController.js:117-135 | only the status of the order changes, and items, shipping, total and user are kept; a malformed id gives the generic 500 and an unknown id "Order was not found!" (500), both without writing |
| `OrderController.DeleteOrderCascade` | controllers/orderController.js:137-161 | the order is deleted, then every order item its list names, in list order, and no product; an unknown id gives 404 and a malformed one 500, without writing |
| `Uploads.Destination` | routes/productsRouter.js:18-23 | a file is accepted, into `uploads`, exactly when its mimetype is image/png, image/jpeg or image/jpg; otherwise the error is the invalid-image-type error |
| `Uploads.DestinationAsWritten` | routes/productsRouter.js:18-20 | the property lookup as written also accepts every name inherited from `Object.prototype` |
| `Uploads.InheritedNameAccepted` | routes/productsRouter.js:7-11 | the lookup as written accepts the mimetypes "constructor" and "__proto__", and the own-key check refuses "constructor"; on every mimetype that is not an `Object.prototype` member the two agree |
| `Uploads.BaseName` | routes/productsRouter.js:26 | the stem is a prefix-length copy of the original name with each space turned into '-', cut just before its first '.' (or the whole name); it holds no space and no dot |
| `Uploads.ExtensionText` | routes/productsRouter.js:27 | the extension text is "undefined" exactly for a mimetype that is not an image type, is png, jpeg or jpg for an image type, and never holds a dot or a space |
| `Uploads.Filename` | routes/productsRouter.js:25-29 | the stored name has no spaces, ends with '.' and the extension, and that '.' is its only dot |
| `Uploads.BaseNameIdempotent` | routes/productsRouter.js:26 | sanitising an already sanitised stem leaves it unchanged |
| `Uploads.FilenameShape` | routes/productsRouter.js:26-28 | for an accepted mimetype the stored name splits at '.' into exactly two parts: the stem, '-' and the timestamp digits, then the mapped extension (png, jpeg or jpg); it has no spaces |
| `Uploads.StoreUpload` | routes/productsRouter.js:14-29 | a file is stored exactly when its mimetype is an image type, under `uploads` with the generated name; a refused file is never named |
| `Uploads.AcceptFiles` | routes/productsRouter.js:40 | an upload succeeds exactly when it has at most the limit of files and each is an image type; the stored files then match the incoming ones one to one, in order |
| `Uploads.AcceptFilesFirstError` | routes/productsRouter.js:40 | a refused upload reports the first failing file: one past the limit gives the unexpected-file error, a wrong type the invalid-image-type error |
| `Uploads.SingleUpload` | routes/productsRouter.js:35 | the single-image route takes at most one image file and yields no file exactly when none was sent |
| `Uploads.GalleryUpload` | routes/productsRouter.js:40 | the gallery route stores at most 8 files and refuses more than 8 |
| `Strings.Split` | controllers/productsController.js:9 | `split` gives at least one separator-free piece, the first being the prefix up to the first separator, and joining the pieces gives the input back |
| `Strings.Join` | routes/productsRouter.js:26 | `join` starts with the first part and puts the separator right after it when more parts follow; with `Split` it completes the round trip |
| `Strings.SplitJoin` | controllers/productsController.js:9 | splitting a join of separator-free pieces gives back the pieces |
| `Strings.ReplaceAll` | routes/productsRouter.js:26 | `split(' ').join('-')` keeps the length, turns every space into '-' and leaves every other character |
| `Strings.DecimalString` | routes/productsRouter.js:28 | the rendered timestamp is a non-empty string of decimal digits |
| `Strings.DecimalValue` | controllers/productsController.js:147 | a digit string reads as 0 exactly when every digit is '0' |
| `Strings.DecimalRoundTrip` | controllers/productsController.js:147 | reading back the decimal text of a number gives the number |
| `ProductsController.CategoryFilter` | controllers/productsController.js:7-10 | with no or an empty `categories` query the filter is empty; otherwise it is the comma-free pieces that join with commas to the query |
| `ProductsController.CategoryFilterRoundTrip` | controllers/productsController.js:8-10 | a list of comma-free category ids sent comma-separated yields that same list |
| `ProductsController.FeaturedLimit` | controllers/productsController.js:146-147 | an absent or empty limit becomes 0; a decimal limit becomes its value |
| `ProductsController.FeaturedLimitRoundTrip` | controllers/productsController.js:146-147 | the decimal text of a count is read as that count |
| `ProductsController.BasePath` | controllers/productsController.js:47 | the base path starts with the protocol and ends with "/uploads/" |
| `ProductsController.ImageUrl` | controllers/productsController.js:53 | the image URL is the base path immediately followed by the stored file name |
| `ProductsController.ImageUrlEndsWithExtension` | controllers/productsController.js:53 | the URL of an accepted upload ends with '.' and its mimetype's extension |
| `ProductsController.NewProduct` | controllers/productsController.js:38-61 | a missing category gives 500 whether or not an image came; with the category present, a missing image gives 400; otherwise the product takes the body's fields, the image URL and an empty gallery |
| `ProductsController.ApplyBody` | controllers/productsController.js:85-101 | an update writes the body's name, image, price, category and stock over the stored ones and keeps the stored gallery |
| `ProductsController.GalleryPaths` | controllers/productsController.js:163-171 | one path per uploaded file, in upload order, each the base path plus that file's name; no files give the empty list |
| `ProductsController.CreateProduct` | controllers/productsController.js:36-73 | a refused request writes nothing; an accepted one saves `NewProduct`'s record under a fresh id |
| `ProductsController.UpdateProductFields` | controllers/productsController.js:75-110 | a malformed id gives 404 before any other check or write; then a missing category and a missing product each give 500 without writing; otherwise only that product changes, to `ApplyBody` of it |
| `ProductsController.UpdateProductImages` | controllers/productsController.js:158-189 | a malformed id gives 404 before anything else; otherwise the gallery path list replaces the product's images (an empty list too), every other field is kept, and a missing product gives 500 without writing |

## Left out

- The read-only handlers are not modelled. These are `getAllOrders`, `getOneOrder`, `getTotalSales`, `getOrdersCount`, `getUserOrders`, `getOneProduct`, `countProducts`, and the queries of `getAllProducts` and `featuredProducts`. They are `find`/`populate`/`sort`/`aggregate`/`countDocuments`/`limit` calls whose meaning belongs to the database. Only the values the handlers pass to them are modelled: the filter and the limit.
- `deleteProduct` is a single delete by id with no logic of its own.
- The user and category handlers, the user schema, the process entry point and the routers other than the upload part of the product router are not part of this model. They are CRUD wrappers, library calls (password hashing, token signing) and wiring.
- The upload directory's creation on disk is left out. So is the removal of already stored files when an upload fails, and multer's field names.
- The clock is not modelled. `Date.now()` is the `uploadedAt` field of the incoming file.
- ObjectId syntax is abstracted. A route id is either `Parsed(id)` or `Malformed(text)`, and `isValidObjectId` is the test `Parsed?`.
- Concurrent requests are left out. The model covers one request at a time, so the read-then-write oversell between two simultaneous orders is not represented.
- Storage failures other than the order save are left out: the order-item saves, the product saves, and the lookups. Failures are modelled only where the handler itself fails. These are a missing product in the stock loop, which throws; a malformed id in `updateOrder`, where the id cast fails at the `await`; and a malformed id in `deleteOrder`, which reaches the callback as `err`.
- The document library's change tracking is taken as given, not modelled. A save writes only the fields assigned a value different from the loaded one, and a save with no such field writes nothing (`StockAfter`, `SaveProducts`).
- JavaScript number semantics are not modelled. Quantities are whole numbers (`nat`) and prices and stock are integers. Fractional, negative or string quantities and floating-point rounding are not represented. A missing `orderItems` list in the request behaves as the empty list.
- An absent `status` in an order update (`undefined`) is not modelled. The status is always a string.
- Response bodies, `console.log` and the generic catch-all 500 of each handler are left out. So is `createProduct`'s unreachable "Product was not created!" branch.
- Uploads.StoreUpload: it is built on the own-key lookup `Uploads.Destination`, not on the lookup as written. A part whose mimetype is an inherited name such as "constructor" is stored by the code but refused here (see "## Findings").
- Uploads.AcceptFiles: it uses the own-key lookup through `StoreUpload`, so it refuses inherited-name mimetypes that the code stores (see "## Findings").
- Uploads.Filename: it is stated over the own-key lookup through `ExtensionText`. For an inherited-name mimetype such as "constructor", which the code accepts, the code's name ends with the inherited member's text and holds spaces, while the model's ends with "undefined" (see "## Findings").
- Uploads.AcceptFilesFirstError: it is stated over the own-key lookup. A file with an inherited-name mimetype such as "constructor" before the limit is reported as `InvalidImageType`, while the code as written stores it (see "## Findings").
- Uploads.SingleUpload: it uses the own-key lookup through `AcceptFiles` (see "## Findings").
- Uploads.GalleryUpload: it uses the own-key lookup through `AcceptFiles` (see "## Findings").
- Uploads.ExtensionText: it models the own-key lookup. For an inherited name the code renders the inherited member instead, such as "function Object() { [native code] }" for "constructor", so the stored name as written can hold spaces (see "## Findings").
- ProductsController.ImageUrlEndsWithExtension: it is stated for the own-key image types only (see "## Findings").
- ProductsController.FeaturedLimit: the conversion `+limit` is modelled for decimal digit strings only. Other text is kept as `Unconverted`, because JavaScript's number parsing (whitespace, hexadecimal, exponents, NaN) is not modelled. Whether a limit of 0 means "no limit" or "no results" is left open.
- ProductsController.NewProduct: the contract names the fields that the checks and the URL decide (image, images, name, price, category, stock). The remaining body fields are copied as they are and are not listed.
- ProductsController.ApplyBody: the contract names the stored fields the update decides (name, image, price, category, stock, gallery). The other body fields are copied as they are and are not listed.
- ProductsController.BasePath: an absent `Host` header, which renders as "undefined", is not modelled.

## Findings

| source | as written | input that shows it | evidently intended | confidence | as-written member | corrected member |
|---|---|---|---|---|---|---|
| routes/productsRouter.js:18-20 | `FILE_TYPE_MAP[file.mimetype]` reads a property of a plain object literal. The lookup is truthy for every name inherited from `Object.prototype`, so such a mimetype passes the image check. | an upload whose part has mimetype `constructor` (or `__proto__`) | accept only image/png, image/jpeg and image/jpg | medium, not executed; it depends on the multipart parser passing the part's content type through unchanged | `Uploads.DestinationAsWritten` | `Uploads.Destination` |
