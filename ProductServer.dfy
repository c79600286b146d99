/** The product API server: a module-level list of product records and one request
    handler that answers CORS preflight, lists the products, updates a product by a
    shallow merge, and attempts to delete a product by id (the removal it intends is
    `Delete`; as written that branch throws, see `DeleteAsWritten`). */
module ProductServer {
  import opened Strings
  import opened Sequences

  datatype Option<T> = None | Some(value: T)

  /** A JSON value as it appears in a product record or a request body.
      Arrays and nested objects are never inspected, so they stay opaque (`Compound`). */
  datatype Value = Null | Bool(b: bool) | Num(n: real) | Str(s: string) | Compound(tag: nat)

  /** JavaScript truthiness (JSON has no NaN and no undefined). */
  predicate Truthy(v: Value)
  {
    match v
    case Null => false
    case Bool(b) => b
    case Num(n) => n != 0.0
    case Str(s) => s != ""
    case Compound(_) => true
  }

  /** A product record. The handler only looks at `id`, `name` and `price`; every other
      field (image, category, isNew, or whatever a PUT body adds) lives in `others`.
      The three named fields hold arbitrary JSON values because a PUT may overwrite them
      with anything that passes its checks. */
  datatype Product = Product(id: Value, name: Value, price: Value, others: map<string, Value>)

  const NamedKeys: set<string> := {"id", "name", "price"}

  /** No key is stored twice. */
  predicate WellFormed(p: Product)
  {
    p.others.Keys !! NamedKeys
  }

  predicate AllWellFormed(store: seq<Product>)
  {
    forall p :: p in store ==> WellFormed(p)
  }

  /** The record seen as a JavaScript object: `p[key]`, with None for undefined. */
  function Field(p: Product, key: string): Option<Value>
  {
    if key == "id" then Some(p.id)
    else if key == "name" then Some(p.name)
    else if key == "price" then Some(p.price)
    else if key in p.others then Some(p.others[key])
    else None
  }

  /** No two records share an id. */
  predicate UniqueIds(store: seq<Product>)
  {
    forall i, j :: 0 <= i < j < |store| ==> store[i].id != store[j].id
  }

  /** What `JSON.parse` returned for a request body. A parsed top-level object is always
      `Object(...)`; `NonObject(Compound(_))` stands only for a top-level array. */
  datatype Document = Object(members: map<string, Value>) | NonObject(value: Value)

  /** A fully received request body: either text that `JSON.parse` rejects, or its result. */
  datatype Body = Unparsable | Parsed(doc: Document)

  datatype Request = Request(verb: string, url: string, body: Body)

  type Header = (string, string)

  /** The three CORS headers set before any routing. */
  const CorsHeaders: seq<Header> := [
    ("Access-Control-Allow-Origin", "*"),
    ("Access-Control-Allow-Methods", "GET, POST, PUT, DELETE, OPTIONS"),
    ("Access-Control-Allow-Headers", "Content-Type, Authorization")
  ]

  const JsonType := "application/json"
  const TextType := "text/plain"

  /** The response body: nothing, plain text, or one of the JSON shapes the handler writes.
      `Problem(key, message)` is `{[key]: message}`: PUT errors use "message", DELETE errors "error". */
  datatype Payload =
    | Empty
    | PlainText(text: string)
    | Listing(products: seq<Product>)
    | Record(product: Product)
    | Problem(key: string, message: string)
    | Removal(message: string, product: Product)

  datatype Response = Response(status: nat, headers: seq<Header>, contentType: Option<string>, payload: Payload)

  /** A response together with the product list after the request. */
  datatype Outcome = Outcome(response: Response, store: seq<Product>)

  const ProductsPath := "/api/products"
  const ItemPrefix := "/api/products/"

  function Reply(status: nat, contentType: Option<string>, payload: Payload): Response
  {
    Response(status, CorsHeaders, contentType, payload)
  }

  function Reject(store: seq<Product>, status: nat, key: string, message: string): Outcome
  {
    Outcome(Reply(status, Some(JsonType), Problem(key, message)), store)
  }

  /** The position of the first record whose id is strictly equal to the string `id`,
      or -1 (`findIndex`). */
  function FirstIndex(store: seq<Product>, id: string): (i: int)
    ensures -1 <= i < |store|
    ensures i == -1 <==> forall j :: 0 <= j < |store| ==> store[j].id != Str(id)
    ensures 0 <= i ==> store[i].id == Str(id) && forall j :: 0 <= j < i ==> store[j].id != Str(id)
    decreases |store|
  {
    if store == [] then -1
    else if store[0].id == Str(id) then 0
    else
      var k := FirstIndex(store[1..], id);
      if k == -1 then -1 else k + 1
  }

  /** `{ ...p, ...patch }`: every key of the patch wins, every other key of `p` is kept. */
  function Merge(p: Product, patch: map<string, Value>): (r: Product)
    ensures forall key :: Field(r, key) == if key in patch then Some(patch[key]) else Field(p, key)
    ensures WellFormed(p) ==> WellFormed(r)
  {
    Product(
      if "id" in patch then patch["id"] else p.id,
      if "name" in patch then patch["name"] else p.name,
      if "price" in patch then patch["price"] else p.price,
      p.others + (patch - NamedKeys))
  }

  /** Reading a property of the parsed body throws inside the `try`: either `JSON.parse`
      threw, or it returned `null`. */
  predicate ReadThrows(body: Body)
  {
    body.Unparsable? || body.doc == NonObject(Null)
  }

  /** `productData[key]` for a parsed body that is not null; None is undefined. */
  function Member(doc: Document, key: string): Option<Value>
  {
    match doc
    case Object(members) => if key in members then Some(members[key]) else None
    case NonObject(_) => None
  }

  /** The own fields that a spread `...productData` copies. */
  function Members(doc: Document): map<string, Value>
  {
    match doc
    case Object(members) => members
    case NonObject(_) => map[]
  }

  /** Passes `!name || typeof name !== "string"` unrejected: a non-empty string. */
  predicate ValidName(name: Option<Value>)
  {
    name.Some? && name.value.Str? && name.value.s != ""
  }

  /** Rejected by `price && typeof price !== "number"`: truthy and not a number. */
  predicate BadPrice(price: Option<Value>)
  {
    price.Some? && Truthy(price.value) && !price.value.Num?
  }

  /** The PUT branch once the body has arrived: parse errors, name check, price check,
      lookup, then the merge in place. */
  function Put(store: seq<Product>, productId: string, body: Body): (out: Outcome)
    ensures out.response.status in {200, 400, 404}
    ensures out.response.status != 200 ==> out.store == store
    ensures out.response.status == 200
            <==> !ReadThrows(body) && ValidName(Member(body.doc, "name"))
                 && !BadPrice(Member(body.doc, "price"))
                 && exists j :: 0 <= j < |store| && store[j].id == Str(productId)
    ensures |out.store| == |store|
    ensures forall j :: 0 <= j < |store| && store[j].id != Str(productId) ==> out.store[j] == store[j]
  {
    if ReadThrows(body) then Reject(store, 400, "message", "Invalid JSON")
    else if !ValidName(Member(body.doc, "name")) then Reject(store, 400, "message", "Invalid product name")
    else if BadPrice(Member(body.doc, "price")) then Reject(store, 400, "message", "Invalid product price")
    else
      var index := FirstIndex(store, productId);
      if index == -1 then Reject(store, 404, "message", "Product not found")
      else
        var merged := Merge(store[index], Members(body.doc));
        Outcome(Reply(200, Some(JsonType), Record(merged)), store[index := merged])
  }

  /** The PUT id: the last '/'-separated piece of the URL. */
  function PutTarget(url: string): string
  {
    var parts := Split(url);
    parts[|parts| - 1]
  }

  /** The DELETE id: `url.split("/")[3]`, with "" standing for undefined (both are falsy). */
  function DeleteTarget(url: string): string
  {
    var parts := Split(url);
    if |parts| > 3 then parts[3] else ""
  }

  /** `store.filter((p) => p.id !== id)`. */
  function Without(store: seq<Product>, id: string): seq<Product>
  {
    Select(store, (p: Product) => p.id != Str(id))
  }

  /** The DELETE branch with the removal it evidently intends. */
  function Delete(store: seq<Product>, id: string): (out: Outcome)
    ensures out.response.status in {200, 400, 404}
    ensures out.response.status != 200 ==> out.store == store
    ensures out.response.status == 200
            <==> id != "" && exists j :: 0 <= j < |store| && store[j].id == Str(id)
    ensures out.response.status == 200 ==>
              forall p :: p in out.store <==> p in store && p.id != Str(id)
  {
    if id == "" then Reject(store, 400, "error", "Invalid product ID")
    else
      var index := FirstIndex(store, id);
      if index == -1 then Reject(store, 404, "error", "Product not found")
      else
        Outcome(Reply(200, Some(JsonType), Removal("Product deleted successfully", store[index])),
                Without(store, id))
  }

  /** How a request ends: a response is sent, or the handler throws before sending one. */
  datatype Completion = Sent(outcome: Outcome) | Threw(error: string)

  /** The DELETE branch as written. `products` is a `const` binding, so the assignment of
      the filtered list throws a TypeError after the lookup succeeds: no response is
      written and the list is not changed. The error paths before it are those of `Delete`. */
  function DeleteAsWritten(store: seq<Product>, id: string): (c: Completion)
    ensures c.Sent? ==> c.outcome.response.status in {400, 404} && c.outcome.store == store
    ensures c.Threw? ==> id != "" && exists j :: 0 <= j < |store| && store[j].id == Str(id)
  {
    var out := Delete(store, id);
    if out.response.status == 200 then Threw("TypeError: Assignment to constant variable.")
    else Sent(out)
  }

  /** The whole request handler: CORS headers, preflight, then the routes in source order.
      Its DELETE route is `Delete`, the removal the code evidently intends; the code as
      written throws there instead, which `DeleteAsWritten` models. */
  function Respond(store: seq<Product>, req: Request): (out: Outcome)
    ensures out.response.headers == CorsHeaders
    ensures out.response.status in {200, 400, 404}
    ensures out.response.status != 200 ==> out.store == store
    ensures |out.store| <= |store|
    ensures AllWellFormed(store) ==> AllWellFormed(out.store)
  {
    if req.verb == "OPTIONS" then Outcome(Reply(200, None, Empty), store)
    else if req.url == ProductsPath && req.verb == "GET" then
      Outcome(Reply(200, Some(JsonType), Listing(store)), store)
    else if StartsWith(req.url, ItemPrefix) && req.verb == "PUT" then
      Put(store, PutTarget(req.url), req.body)
    else if StartsWith(req.url, ItemPrefix) && req.verb == "DELETE" then
      Delete(store, DeleteTarget(req.url))
    else Outcome(Reply(404, Some(TextType), PlainText("404 Not Found")), store)
  }

  /** The eight sample products the server starts with. */
  function Seed(): seq<Product>
  {
    [ Sample("1", "Modern Ergonomic Chair", 149.99, ChairImage, "Furniture", true),
      Sample("2", "Minimalist Desk Lamp", 59.99, LampImage, "Lighting", false),
      Sample("3", "Wooden Coffee Table", 199.99, TableImage, "Furniture", false),
      Sample("4", "Decorative Wall Clock", 45.99, ClockImage, "Decor", true),
      Sample("5", "Ceramic Plant Pot", 29.99, PotImage, "Decor", false),
      Sample("6", "Leather Sofa", 899.99, SofaImage, "Furniture", true),
      Sample("7", "Smart LED TV", 549.99, TvImage, "Electronics", true),
      Sample("8", "Wireless Headphones", 129.99, HeadphonesImage, "Electronics", false) ]
  }

  function Sample(id: string, name: string, price: real, image: string, category: string, isNew: bool): Product
  {
    Product(Str(id), Str(name), Num(price),
            map["image" := Str(image), "category" := Str(category), "isNew" := Bool(isNew)])
  }

  /** Image URLs of the sample products. */
  const ChairImage: string := "https://images.unsplash.com/photo-1567538096630-e0c55bd6374c?w=400&q=80"
  const LampImage: string := "https://images.unsplash.com/photo-1507473885765-e6ed057f782c?w=400&q=80"
  const TableImage: string := "https://ik.imagekit.io/2xkwa8s1i/img/npl_modified_images/TableWardobe/WSCFTANTCIW/WSCFTANTCIW_LS_1.jpg?tr=w-1200"
  const ClockImage: string := "https://images.unsplash.com/photo-1563861826100-9cb868fdbe1c?w=400&q=80"
  const PotImage: string := "https://images.unsplash.com/photo-1485955900006-10f4d324d411?w=400&q=80"
  const SofaImage: string := "https://images.unsplash.com/photo-1555041469-a586c61ea9bc?w=400&q=80"
  const TvImage: string := "https://store.in.panasonic.com/media/catalog/product/cache/40b589206cef99ab7dca1586fe425968/t/h/th-32ms550dx_info_1_new.webp"
  const HeadphonesImage: string := "https://images.unsplash.com/photo-1505740420928-5e560c06d30e?w=400&q=80"

  /** The server process: the product list it mutates and the request listener. */
  class ProductStore {
    var products: seq<Product>

    constructor (seed: seq<Product>)
      ensures products == seed
    {
      products := seed;
    }

    /** Handles one request whose body has fully arrived. A successful DELETE replaces the
        list by the filtered one, as `Delete` intends; the code as written throws at that
        assignment (`DeleteAsWritten`). */
    method Handle(req: Request) returns (resp: Response)
      modifies this
      ensures resp == Respond(old(products), req).response
      ensures products == Respond(old(products), req).store
    {
      if req.verb == "OPTIONS" {
        resp := Reply(200, None, Empty);
        return;
      }
      if req.url == ProductsPath && req.verb == "GET" {
        resp := Reply(200, Some(JsonType), Listing(products));
      } else if StartsWith(req.url, ItemPrefix) && req.verb == "PUT" {
        var productId := PutTarget(req.url);
        if ReadThrows(req.body) {
          resp := Reply(400, Some(JsonType), Problem("message", "Invalid JSON"));
          return;
        }
        var productData := req.body.doc;
        if !ValidName(Member(productData, "name")) {
          resp := Reply(400, Some(JsonType), Problem("message", "Invalid product name"));
          return;
        }
        if BadPrice(Member(productData, "price")) {
          resp := Reply(400, Some(JsonType), Problem("message", "Invalid product price"));
          return;
        }
        var index := FirstIndex(products, productId);
        if index == -1 {
          resp := Reply(404, Some(JsonType), Problem("message", "Product not found"));
          return;
        }
        products := products[index := Merge(products[index], Members(productData))];
        resp := Reply(200, Some(JsonType), Record(products[index]));
      } else if StartsWith(req.url, ItemPrefix) && req.verb == "DELETE" {
        var id := DeleteTarget(req.url);
        if id == "" {
          resp := Reply(400, Some(JsonType), Problem("error", "Invalid product ID"));
          return;
        }
        var index := FirstIndex(products, id);
        if index == -1 {
          resp := Reply(404, Some(JsonType), Problem("error", "Product not found"));
          return;
        }
        var deleted := products[index];
        products := Without(products, id);
        resp := Reply(200, Some(JsonType), Removal("Product deleted successfully", deleted));
      } else {
        resp := Reply(404, Some(TextType), PlainText("404 Not Found"));
      }
    }
  }
}
