# ProductService — a Dafny model

This project models the business logic of a donation marketplace's product
service (`src/service/ProductService.js`). Users list donated products with
images. A pickup is scheduled for a product, and its owner concludes the
donation. Every operation is a chain of explicit guards followed by one
change to the product collection, or, for the three queries (`show`,
`showUserProducts`, `showRecieverProducts`), a read of it. The model keeps
the guards in their order, with their status codes (422 for validation and business-rule failures, 404 for a
missing product or an empty owner list). It keeps the collection as a
`map<Id, Product>` held in the `products` field of class
`Service.ProductService`.

- `wrappers.dfy`: `Option` and `Result`.
- `model.dfy` (module `Model`): products, users, uploads, requests and errors.
  It also holds the read-only half of the service as functions: the fail-fast
  validation chain, the identifier and existence guards of `show`, the
  lifecycle guards shared by `schedule` and `concludeDonation`, and the two
  list queries. The lemmas relating them are here too.
- `service.dfy` (module `Service`): class `ProductService`. Its methods
  `Create`, `Update`, `Delete`, `Schedule` and `ConcludeDonation` change
  `products`. Each says exactly which error it raises, in which order, and
  what the new table is. Each keeps the invariant `Valid()`: every stored
  product has its validated text fields, at least one image, is unavailable
  exactly when its donation date is set, and has no reciever other than its
  owner.

Outside pieces are inputs:
- The identifier check of the document store is the predicate `wellFormed`,
  fixed when the service object is built.
- The user lookup is `Request.principal`: the resolved acting user, or the
  error the lookup raises, passed on unchanged.
- The clock is the `now` parameter of `ConcludeDonation`.
- The identifier the store gives a new product is the `newId` parameter of
  `Create`. It must be well formed and unused.
- The upload middleware is `Request.files`: a list of file names, absent when
  the request carried none. Absent files count as an empty list.

A form field counts as missing when it is the empty string. This stands for
every falsy value the code tests with `!field`.

At these points the model follows the code as written:
- `schedule` refuses a user who is **not** the owner (line 280). This is the
  same polarity as `concludeDonation` (line 314). So only the owner can
  schedule, and the reciever it records is always the owner. `Valid()` keeps
  this, and `Model.RecieverListWithinOwnerList` draws its consequence.
- The confirmation of `schedule` carries the acting user's name and phone
  (line 289). Because of the guard, those are the owner's own details.
- `show` issues its lookup before checking the identifier (lines 105-107).
  The model checks the identifier first and gives 422 for every malformed
  id; "## Left out" says what the real store does at that lookup.
- `create` stores `state` but not `purchased_at` (line 73). `update` stores
  `purchased_at` but not `state` (lines 198-200).

## Model

| member | source | states |
|---|---|---|
| `Model.FirstMissing` | src/service/ProductService.js:22-70 | Validation fails exactly when some field is missing. The field it reports is missing, and every field checked before it (name, description, state, purchase date, images) is present. |
| `Model.Filenames` | src/service/ProductService.js:76 | The image list built from the uploads has one entry per upload, in upload order, each the upload's file name. |
| `Model.AppendFilenames` | src/service/ProductService.js:204 | Pushing the uploads' file names onto an image list yields the old list followed by the file names in upload order. |
| `Model.FilenamesAppend` | src/service/ProductService.js:198-204 | The names of two batches of uploads, listed one after the other, equal the names of the joined batches. So images from `create` and then `update` accumulate in upload order. |
| `Model.Show` | src/service/ProductService.js:104-120 | Success exactly when the id is well formed and stored, and then it returns the stored product unchanged. A malformed id gives 422. A well-formed absent id gives 404. |
| `Model.Eligible` | src/service/ProductService.js:260-318 | The lifecycle guards, shared by `schedule` (lines 260-284) and `concludeDonation` (lines 294-318). Id and existence errors come first, exactly as in `show`. Then an unavailable product gives 422 `NotAvailable`. Then a user other than the owner gives 422 `NotOwner`. Success exactly when every guard passes. |
| `Model.ShowUserProducts` | src/service/ProductService.js:232-243 | An auth failure is passed on. Otherwise it succeeds exactly when the user owns some product, and returns exactly the user's products as stored. Owning none gives 404. |
| `Model.ShowRecieverProducts` | src/service/ProductService.js:245-256 | An auth failure is passed on. Otherwise it succeeds exactly when some product has the user as reciever, and returns exactly those products as stored. Having none gives 422, not 404. |
| `Model.ConcludedIsFinal` | src/service/ProductService.js:308-320 | Once a donation is concluded, the lifecycle guards refuse any user on that id with 422 `NotAvailable`. So a second `concludeDonation` or `schedule` fails. |
| `Model.ScheduledStaysConcludable` | src/service/ProductService.js:274-287 | After a successful `schedule`, the same user still passes the lifecycle guards. Recording a reciever does not block conclusion. |
| `Model.RecieverListWithinOwnerList` | src/service/ProductService.js:280-287 | In a consistent table, if a user's reciever list is non-empty, their owner list is non-empty too and contains it. |
| `Service.ProductService.Create` | src/service/ProductService.js:7-83 | An auth failure is passed on, then the first missing field gives 422, and the table is unchanged. On success exactly one entry is added under the new id. It holds the given name, description and state, the acting user as owner, available, the upload names in order, and no reciever, purchase date or donation date. |
| `Service.ProductService.Update` | src/service/ProductService.js:122-211 | A malformed id gives 422 first, then an auth failure, then the first missing field (422), then an absent product (404), each leaving the table unchanged. There is no ownership check. On success only that entry changes: name, description and purchase date are replaced and the upload names are appended. Every other field is kept. |
| `Service.ProductService.Delete` | src/service/ProductService.js:213-230 | The same errors as `show`, with the table unchanged. On success exactly that id is removed and every other entry is kept. |
| `Service.ProductService.Schedule` | src/service/ProductService.js:258-290 | An auth failure is passed on, then the lifecycle guards' error, with the table unchanged. On success only that product's reciever changes, to the acting user. The confirmation carries the acting user's name and phone. |
| `Service.ProductService.ConcludeDonation` | src/service/ProductService.js:292-323 | An auth failure is passed on, then the lifecycle guards' error, with the table unchanged. On success only that product changes: it becomes unavailable with donation date `now`. |

## Left out

- `index` (lines 86-101): its meaning lies in the store's sort, skip and limit. The sort key `createdAt` and the other store-assigned timestamps are not part of this model.
- Persistence mechanics: population of `owner` and `reciever` with the password excluded, `save`, `findByIdAndUpdate` and the query builder. The collection is a plain map, and the lists return the matching entries as a map, so the order of the returned list is not modelled.
- `Model.Show`: the lookup issued before the id check (line 105) is not modelled. With the document store's default casting, that lookup already rejects a malformed id string with its own cast error, which carries no status code, before the 422 check at line 107 runs; only an undefined or null id reaches the 422. The model gives 422 for every malformed id.
- The identifier format behind `mongoose.isValidObjectId`: kept as the abstract predicate `wellFormed`.
- The user lookup and authentication (`UserService.getUser`): UserService is not part of this model. Its outcome is an input.
- The clock: `new Date()` is the `now` parameter.
- Upload middleware and file storage: only the uploaded file names are modelled.
- Casting of `purchased_at` to a date by the store: the value is kept as the submitted text.
- Asynchronous execution and races between concurrent read-then-write calls: each operation is modelled as one atomic step.
- Message texts: errors carry a status code and a reason, and the `schedule` confirmation carries the contact name and phone. The wording is not modelled.
