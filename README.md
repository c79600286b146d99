# Product catalog: request handler and list filter, modelled in Dafny

The product app has two pieces of logic with state and invariants:

- **The API server** (`product-app/src/backend/server.cjs`). It keeps a module-level
  list of product records and serves every request with one handler. The handler sets
  three CORS headers, then:
  - answers `OPTIONS` preflight requests;
  - lists the products on `GET /api/products`;
  - updates a product on `PUT /api/products/<id>`. It checks the JSON body, the name and
    the price, looks the id up, and shallow-merges the body into the record in place;
  - attempts to delete a product on `DELETE /api/products/<id>`. As written, this branch
    throws once the id is found (see "## Findings"). The model's handler performs the
    removal the code evidently intends (`Delete`); the code as written is `DeleteAsWritten`;
  - answers everything else with a plain-text 404.
- **The product list page** (`product-app/src/components/ProductList.jsx`). It holds
  the loaded products, a search term and a price range. The displayed list is derived
  from them: a case-insensitive name search, then an inclusive price filter. Loading
  seeds the range with the cheapest and dearest prices. "Clear Filters" resets the term
  and sets the range to 0..1000.

Files:

- `Sequences.dfy`: the stable filter `Select` (`Array.prototype.filter`) and the
  subsequence relation.
- `Strings.dfy`: `split("/")` and its inverse `join`, `startsWith`, ASCII `toLowerCase`,
  and `includes`.
- `ProductServer.dfy`:
  - JSON values and product records;
  - the request handler as the function `Respond`;
  - the class `ProductStore`, which holds the list and whose `Handle` method updates it
    in place.
- `ServerProperties.dfy`: what each route guarantees, proved about `Respond`.
- `ProductList.dfy`:
  - the filter `Filtered` and its properties;
  - `Math.min` and `Math.max` over prices;
  - the class `ProductListState`, which holds the five state variables of the page.

Modelling choices:

- A product's `id`, `name` and `price` are JSON values, not a string, a string and a
  number. A PUT body may overwrite them with any value that passes the checks: any
  value for `id`, a falsy non-number such as `""` for `price`.
- A request body is given already received. It is either text that `JSON.parse`
  rejects (`Unparsable`), or the parsed document.
- Prices on the page are `real`.

## Model

| member | source | states |
|---|---|---|
| `ProductServer.Respond` | product-app/src/backend/server.cjs:80-178 | every response carries the three CORS headers; the status is 200, 400 or 404; any non-200 answer leaves the list unchanged; the list never grows; records keep one value per key. Its DELETE route is the intended removal `Delete`; the code as written throws there (`DeleteAsWritten`) |
| `ProductServer.ProductStore.Handle` | product-app/src/backend/server.cjs:80-178 | the response and the new product list are those `Respond` gives for the old list; a successful DELETE replaces the list by the filtered one, as `Delete` intends, where the code as written throws (`DeleteAsWritten`) |
| `ProductServer.FirstIndex` | product-app/src/backend/server.cjs:124 | `findIndex` by strict id equality: the first position whose id is the string, and -1 exactly when no record has it |
| `ProductServer.Merge` | product-app/src/backend/server.cjs:132 | the shallow merge `{...p, ...body}`: each key of the body takes the body's value, every other key keeps the record's value, and no key is stored twice |
| `Strings.Split` | product-app/src/backend/server.cjs:99 | `split("/")` gives at least one piece and no piece contains '/' |
| `ProductServer.Put` | product-app/src/backend/server.cjs:108-140 | the PUT branch answers 200, 400 or 404; it answers 200 exactly when the body parses to a non-null value with a non-empty string name, a price that is falsy or a number, and the id is present; any other answer leaves the list unchanged; the list keeps its length, and records with other ids are untouched |
| `ProductServer.Delete` | product-app/src/backend/server.cjs:141-172 | the DELETE branch with the removal it intends: 200, 400 or 404; 200 exactly when the id is non-empty and present, and then the list holds exactly the records with other ids; any other answer leaves the list unchanged |
| `ProductServer.DeleteAsWritten` | product-app/src/backend/server.cjs:162-163 | as written, every answer DELETE sends is 400 or 404 and leaves the list unchanged; it throws only for a non-empty id that is present |
| `ProductServer.Truthy` | product-app/src/backend/server.cjs:113-118 | JavaScript truthiness of a JSON value: false exactly for null, false, 0 and the empty string |
| `ProductServer.ReadThrows` | product-app/src/backend/server.cjs:110-139 | reading the body's fields throws into the catch exactly when `JSON.parse` fails or returns `null` |
| `ProductServer.Member` | product-app/src/backend/server.cjs:113-118 | `productData[key]` of a parsed, non-null body: the value stored under the key for an object, undefined (`None`) for a missing key or a body that is not an object |
| `ProductServer.Members` | product-app/src/backend/server.cjs:132 | the own fields `...productData` copies from an object body: all its members (a body that is not an object never reaches the merge, since its `name` is undefined) |
| `ProductServer.ValidName` | product-app/src/backend/server.cjs:113 | a name escapes the "Invalid product name" rejection exactly when it is present and a non-empty string |
| `ProductServer.BadPrice` | product-app/src/backend/server.cjs:118 | a price is rejected exactly when it is present, truthy and not a number |
| `Strings.StartsWith` | product-app/src/backend/server.cjs:98 | `startsWith`: the prefix is no longer than the string and equals its first characters |
| `ProductServer.PutTarget` | product-app/src/backend/server.cjs:99-100 | the PUT id is the last piece of `split("/")` |
| `ProductServer.DeleteTarget` | product-app/src/backend/server.cjs:142 | the DELETE id is piece 3 of `split("/")`, with "" for a missing piece (both falsy) |
| `ProductServer.Without` | product-app/src/backend/server.cjs:163 | `filter((p) => p.id !== id)`: the records whose id is not the string `id`, in order |
| `ProductServer.Seed` | product-app/src/backend/server.cjs:4-77 | the eight sample products with their ids, names, prices, images, categories and `isNew` flags |
| `ProductServer.ProductStore.constructor` | product-app/src/backend/server.cjs:4 | the server starts with the given list, the sample list in the source |
| `ServerProperties.ItemTargets` | product-app/src/backend/server.cjs:98-100 | on a URL under "/api/products/", the split has at least four pieces; DELETE's `split("/")[3]` is the first piece after the prefix, and PUT's id is the last piece |
| `ServerProperties.ItemId` | product-app/src/backend/server.cjs:141-142 | for "/api/products/<id>" with no '/' in the id, both the PUT and the DELETE branch read exactly that id |
| `Strings.JoinSplit` | product-app/src/backend/server.cjs:99 | joining the pieces of `split("/")` with '/' gives back the URL |
| `Strings.SplitJoin` | product-app/src/backend/server.cjs:99 | splitting '/'-free pieces joined by '/' gives back the pieces |
| `ServerProperties.Preflight` | product-app/src/backend/server.cjs:88-92 | OPTIONS on any URL: 200, no content type, empty body, list unchanged, before any routing |
| `ServerProperties.ListAll` | product-app/src/backend/server.cjs:94-97 | GET on exactly "/api/products": 200 JSON with the whole list in order, list unchanged |
| `ServerProperties.Fallback` | product-app/src/backend/server.cjs:173-177 | the `text/plain` "404 Not Found" answer goes to exactly the requests no route takes, and leaves the list unchanged |
| `ServerProperties.PutUnreadableBody` | product-app/src/backend/server.cjs:136-139 | a PUT body that does not parse, or parses to `null`, gets 400 "Invalid JSON" and leaves the list unchanged |
| `ServerProperties.PutRejectsName` | product-app/src/backend/server.cjs:113-117 | a parsed PUT body gets 400 "Invalid product name", list unchanged, exactly when its name is missing, empty or not a string, whether or not the id exists |
| `ServerProperties.PutRejectsPrice` | product-app/src/backend/server.cjs:118-122 | with a valid name, 400 "Invalid product price" exactly when the price is truthy and not a number (a missing, 0, "", false or null price passes) |
| `ServerProperties.PutUnknownId` | product-app/src/backend/server.cjs:124-130 | a body that passes both checks, for an id no record has: 404 "Product not found", list unchanged |
| `ServerProperties.PutMergesFirstMatch` | product-app/src/backend/server.cjs:124-135 | a successful PUT changes only the first record with the id; there every body field wins and every other field stays; length and all other positions are unchanged; the answer is 200 with the merged record |
| `ServerProperties.PutEmptyObjectRejected` | product-app/src/backend/server.cjs:113-117 | an update with the empty object `{}` is rejected with 400 "Invalid product name" |
| `ServerProperties.PutKeepsUniqueIds` | product-app/src/backend/server.cjs:132 | a PUT whose body has no "id" keeps every record's id, so unique ids stay unique |
| `ServerProperties.PutCanDuplicateIds` | product-app/src/backend/server.cjs:132 | a PUT whose body carries another record's id succeeds and leaves two records with one id |
| `ServerProperties.DeleteEmptyId` | product-app/src/backend/server.cjs:142-149 | an empty fourth URL piece gets 400 `{error: "Invalid product ID"}`, list unchanged |
| `ServerProperties.DeleteUnknownId` | product-app/src/backend/server.cjs:151-159 | an id no record has gets 404 `{error: "Product not found"}`, list unchanged |
| `ServerProperties.DeleteRemovesMatches` | product-app/src/backend/server.cjs:161-172 | a successful DELETE (the intended removal `Delete`) returns 200 with the first record carrying the id; it removes every record with that id; it keeps every copy of every other record, in order; the list gets shorter |
| `ServerProperties.DeleteExactlyOne` | product-app/src/backend/server.cjs:161-163 | when ids are unique, a DELETE (the intended removal `Delete`) removes exactly the one matching record |
| `ServerProperties.DeleteAsWrittenThrows` | product-app/src/backend/server.cjs:162-163 | as written, DELETE throws instead of answering exactly when the id is non-empty and present; every answer it does send leaves the list unchanged |
| `ServerProperties.DeleteSampleThrows` | product-app/src/backend/server.cjs:163 | as written, DELETE of product "1" of the sample list throws |
| `ServerProperties.Session` | product-app/src/backend/server.cjs:94-172 | on any list with unique ids: GET lists it; a PUT of `{name: "Updated", price: 100}` changes only the first record; a DELETE of its id (the intended removal `Delete`) then removes one record and leaves none with that id |
| `ServerProperties.SampleSession` | product-app/src/backend/server.cjs:4-77 | the sample list has 8 products with unique ids and "1" first; GET lists all 8; a PUT of `{name: "Updated", price: 100}` to product "1" answers 200 and changes only that record; a DELETE of "1" (the intended removal `Delete`) then answers 200 and leaves 7 products, none with id "1" |
| `ServerProperties.SampleErrors` | product-app/src/backend/server.cjs:113-130 | on the sample list, a PUT for the unknown id 999 gets 404 and a PUT with an empty name gets 400 |
| `Sequences.Select` | product-app/src/components/ProductList.jsx:26-33 | `Array.prototype.filter`: the result is no longer than the input, holds only input elements that pass the test, and holds every one that does |
| `Sequences.SelectCounts` | product-app/src/backend/server.cjs:163 | `filter` keeps every copy of each element that passes the test and no copy of one that fails |
| `Strings.Lower` | product-app/src/components/ProductList.jsx:28 | `toLowerCase` keeps the length and lower-cases each character in place |
| `ProductList.Filtered` | product-app/src/components/ProductList.jsx:24-35 | the filter effect: the displayed list is no longer than the loaded one, and every displayed product is loaded, priced in range and, for a non-empty term, matches the name search |
| `ProductList.NameMatches` | product-app/src/components/ProductList.jsx:28 | the lower-cased name contains the lower-cased term |
| `ProductList.PriceWithin` | product-app/src/components/ProductList.jsx:32 | the price lies in [minPrice, maxPrice], both ends included |
| `ProductList.ProductListState.Valid` | product-app/src/components/ProductList.jsx:24-35 | the filter effect as a state invariant: `filteredList` is `Filtered` of the other four state variables |
| `ProductList.FilteredIsSubsequence` | product-app/src/components/ProductList.jsx:24-35 | the displayed list is a subsequence of the loaded list, in the original order |
| `ProductList.FilteredMembership` | product-app/src/components/ProductList.jsx:25-33 | a product is displayed exactly when it is loaded, its price is in [minPrice, maxPrice] with both ends included, and, for a non-empty term, its lower-cased name contains the lower-cased term |
| `ProductList.FilteredIsOneFilter` | product-app/src/components/ProductList.jsx:26-33 | the two filters in a row equal one stable filter by "name matches and price in range"; skipping the name filter for the empty term changes nothing |
| `ProductList.FilteredIdempotent` | product-app/src/components/ProductList.jsx:24-35 | filtering the displayed list again with the same term and range returns it unchanged |
| `ProductList.ShowsAllInRange` | product-app/src/components/ProductList.jsx:31-33 | with an empty term and every price in range, the whole list is displayed |
| `Strings.Contains` | product-app/src/components/ProductList.jsx:28 | `includes`: the string starts with the term, or its tail after the first character contains it |
| `Strings.ContainsAt` | product-app/src/components/ProductList.jsx:28 | `includes` holds exactly when the term occurs at some position of the name |
| `ProductList.MinPrice` | product-app/src/components/ProductList.jsx:18-19 | `Math.min` of the prices: no price is lower, and some product has it |
| `ProductList.MaxPrice` | product-app/src/components/ProductList.jsx:20 | `Math.max` of the prices: no price is higher, and some product has it |
| `ProductList.ProductListState.constructor` | product-app/src/components/ProductList.jsx:7-11 | the initial state: nothing loaded, empty term, range 0..1000, nothing displayed, so the placeholder shows (as after a failed fetch) |
| `ProductList.ProductListState.Load` | product-app/src/components/ProductList.jsx:16-20 | loading stores the data and sets the range to the observed cheapest and dearest prices, so every loaded price is in range; with an empty term every loaded product is displayed and no placeholder shows |
| `ProductList.ProductListState.SetSearchTerm` | product-app/src/components/ProductList.jsx:66 | typing sets the term and re-derives the displayed list; nothing else changes |
| `ProductList.ProductListState.SetMinPrice` | product-app/src/components/ProductList.jsx:78 | the lower slider sets minPrice and re-derives the displayed list |
| `ProductList.ProductListState.SetMaxPrice` | product-app/src/components/ProductList.jsx:85 | the upper slider sets maxPrice and re-derives the displayed list |
| `ProductList.ProductListState.ClearFilters` | product-app/src/components/ProductList.jsx:37-41 | clearing empties the term and sets the fixed range 0..1000; a product is displayed exactly when its price is in 0..1000; if all prices are, all products are displayed again |
| `ProductList.ClearedRangeIsNotObservedRange` | product-app/src/components/ProductList.jsx:37-41 | clearing does not restore the observed range: a product priced 4999 is displayed after loading and hidden after clearing |
| `ProductList.ProductListState.ShowsPlaceholder` | product-app/src/components/ProductList.jsx:92-93 | the "Loading products..." placeholder shows exactly when no loaded product passes the search and price filters |
| `ProductList.SearchExample` | product-app/src/__test__/ProductList.test.jsx:34-48 | on the page state: after two products load and "Product A" is typed, the displayed list is exactly "Product A" |

## Expected behaviour that the code does not have

Each point below is behaviour a reader of the API or the page would expect. The code
does something else, and the model follows the code.

- Ids are expected to be immutable. The PUT merge copies `id` from the body like any
  other field (`PutCanDuplicateIds`).
- An update without a name is expected to keep the old name, and `{}` to leave a product
  unchanged. The code rejects any body without a non-empty string name
  (`PutEmptyObjectRejected`).
- An unknown id is expected to get 404 whatever the body. The code validates the body
  first, so an unknown id with a bad name gets 400 (`PutRejectsName`).
- "Clear Filters" is expected to restore the observed price range. The code sets
  0..1000 (`ClearedRangeIsNotObservedRange`).
- A failed fetch is expected to be caught and logged. The page has no `catch`, so the
  rejection goes unhandled and the state stays as it was (the constructor's state).
- The page's tests expect edit and delete controls. The component has no such code. The
  edit and delete tests (`ProductList.test.jsx:77-124`) look for buttons it never
  renders.

## Left out

- The HTTP plumbing: creating and starting the server, the `PORT` lookup, and the body
  arriving chunk by chunk. A request is handled once its whole body is there, in one
  atomic step.
- `JSON.parse` and `JSON.stringify`. The body is given as already parsed or as
  unparsable. Responses are structured values, so the key order of the serialized
  records is not modelled.
- Arrays and nested objects inside JSON values are opaque. A top-level array body is
  treated like any non-object: reading `name` from it gives undefined.
- What Node does after the DELETE branch throws. An uncaught error in the request
  listener ends the process. The model only records that no response is sent
  (`DeleteAsWritten`).
- `product-app/src/backend/responseHelpers.cjs` is not part of this model. It only
  forwards fixed status codes, and `server.cjs` does not use it.
- `product-app/src/utils/apiUtils.js`, `App.jsx` and the test configuration are not part
  of this model. They have no logic of their own.
- The page's `fetch` and its hard-coded URL. Only the "data arrived" step is modelled
  (`Load`).
- Rendering: the markup, styling, and `price.toFixed(2)`. The only rendering decision
  modelled is placeholder versus cards.
- React's effect timing. Each transition re-derives `filteredList` at once. The render
  that shows a stale list before the effect runs is not modelled.
- Loaded records are assumed to carry a string `name` and a numeric `price`. A record
  whose `name` is not a string makes `toLowerCase` throw inside the filter effect when
  the term is non-empty, and a non-numeric `price` compares as NaN or by coercion; those
  shapes and that error path are not modelled.
- The test's mock products are not part of this model. `SearchExample` uses two products
  named as in the test, with ids and prices of its own.
- Lower-casing covers ASCII letters only. Other letters keep their case.
- ProductList.ProductListState.Load: requires non-empty data. With no prices,
  `Math.min` and `Math.max` give +Infinity and -Infinity, which `real` cannot hold.
  The displayed list is then empty whatever the range.
- The page's edit and delete round-trips are not modelled. Only the tests mention them;
  the component has no such code.

## Findings

| source | as written | input that shows it | evidently intended | confidence | as-written member | corrected member |
|---|---|---|---|---|---|---|
| product-app/src/backend/server.cjs:163 | the filtered list is assigned to `products`, which is declared `const` (line 4), so the assignment throws a TypeError and no response is sent | `DELETE /api/products/1` on the sample list | replace the list by the one without that id and answer 200 with the deleted record | not executed | `ServerProperties.DeleteSampleThrows` | `ServerProperties.DeleteRemovesMatches` |
