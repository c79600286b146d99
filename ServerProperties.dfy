/** What the request handler of the product API guarantees, stated over `Respond`,
    route by route, and what it does not guarantee. */
module ServerProperties {
  import opened Strings
  import opened Sequences
  import opened ProductServer

  /** The requests some route other than the final 404 fallback answers. */
  predicate Routed(req: Request)
  {
    || req.verb == "OPTIONS"
    || (req.url == ProductsPath && req.verb == "GET")
    || (StartsWith(req.url, ItemPrefix) && (req.verb == "PUT" || req.verb == "DELETE"))
  }

  predicate IsPut(req: Request)
  {
    req.verb == "PUT" && StartsWith(req.url, ItemPrefix)
  }

  predicate IsDelete(req: Request)
  {
    req.verb == "DELETE" && StartsWith(req.url, ItemPrefix)
  }

  // ---------------------------------------------------------------- URL pieces

  /** "/api/products/<rest>" splits into "", "api", "products" and the pieces of `rest`. */
  lemma ItemPathPieces(rest: string)
    ensures Split(ItemPrefix + rest) == ["", "api", "products"] + Split(rest)
  {
    var t1 := "products" + "/" + rest;
    var t2 := "api" + "/" + t1;
    var t3 := "" + "/" + t2;
    SplitAfterWord("products", rest);
    SplitAfterWord("api", t1);
    SplitAfterWord("", t2);
    assert ItemPrefix + rest == t3 by {
      assert |ItemPrefix + rest| == |t3|;
      forall k | 0 <= k < |t3|
        ensures (ItemPrefix + rest)[k] == t3[k]
      {
      }
    }
  }

  /** On an item URL, DELETE reads the first piece after the prefix and PUT the last piece. */
  lemma ItemTargets(url: string)
    requires StartsWith(url, ItemPrefix)
    ensures |Split(url)| >= 4
    ensures var rest := Split(url[|ItemPrefix|..]);
            DeleteTarget(url) == rest[0] && PutTarget(url) == rest[|rest| - 1]
  {
    assert url == ItemPrefix + url[|ItemPrefix|..];
    ItemPathPieces(url[|ItemPrefix|..]);
  }

  /** For "/api/products/<id>" with a '/'-free id, both branches use exactly that id. */
  lemma ItemId(id: string)
    requires '/' !in id
    ensures StartsWith(ItemPrefix + id, ItemPrefix)
    ensures DeleteTarget(ItemPrefix + id) == id && PutTarget(ItemPrefix + id) == id
  {
    assert (ItemPrefix + id)[..|ItemPrefix|] == ItemPrefix;
    assert (ItemPrefix + id)[|ItemPrefix|..] == id;
    ItemTargets(ItemPrefix + id);
    SplitWord(id);
  }

  // ---------------------------------------------------------------- routing

  /** OPTIONS on any URL: 200, no content type, empty body, before any routing. */
  lemma Preflight(store: seq<Product>, req: Request)
    requires req.verb == "OPTIONS"
    ensures Respond(store, req) == Outcome(Response(200, CorsHeaders, None, Empty), store)
  {
  }

  /** GET on exactly "/api/products": the whole list, in order, unchanged. */
  lemma ListAll(store: seq<Product>, req: Request)
    requires req.verb == "GET" && req.url == ProductsPath
    ensures Respond(store, req) == Outcome(Response(200, CorsHeaders, Some(JsonType), Listing(store)), store)
  {
  }

  /** The plain-text 404 is sent exactly to the requests no route takes, and changes nothing. */
  lemma Fallback(store: seq<Product>, req: Request)
    ensures Respond(store, req).response.contentType == Some(TextType) <==> !Routed(req)
    ensures !Routed(req) ==>
              Respond(store, req) == Outcome(Response(404, CorsHeaders, Some(TextType), PlainText("404 Not Found")), store)
  {
  }

  // ---------------------------------------------------------------- PUT

  /** A body `JSON.parse` rejects, or a body that is `null`: 400 "Invalid JSON". */
  lemma PutUnreadableBody(store: seq<Product>, req: Request)
    requires IsPut(req) && ReadThrows(req.body)
    ensures Respond(store, req) == Reject(store, 400, "message", "Invalid JSON")
  {
  }

  /** The name check comes first and does not depend on the id: a missing, empty or
      non-string name is 400 even when no product has the id. */
  lemma PutRejectsName(store: seq<Product>, req: Request)
    requires IsPut(req) && !ReadThrows(req.body)
    ensures Respond(store, req) == Reject(store, 400, "message", "Invalid product name")
            <==> !ValidName(Member(req.body.doc, "name"))
  {
  }

  /** The price check: a truthy non-number is 400; absent, 0, "", false and null pass. */
  lemma PutRejectsPrice(store: seq<Product>, req: Request)
    requires IsPut(req) && !ReadThrows(req.body) && ValidName(Member(req.body.doc, "name"))
    ensures Respond(store, req) == Reject(store, 400, "message", "Invalid product price")
            <==> (Member(req.body.doc, "price").Some? && Truthy(Member(req.body.doc, "price").value)
                  && !Member(req.body.doc, "price").value.Num?)
  {
  }

  /** A valid body for an id no product has: 404, nothing changes. */
  lemma PutUnknownId(store: seq<Product>, req: Request)
    requires IsPut(req) && !ReadThrows(req.body)
    requires ValidName(Member(req.body.doc, "name")) && !BadPrice(Member(req.body.doc, "price"))
    requires forall j :: 0 <= j < |store| ==> store[j].id != Str(PutTarget(req.url))
    ensures Respond(store, req) == Reject(store, 404, "message", "Product not found")
  {
  }

  /** A successful PUT replaces only the first record with the id, by a shallow merge in
      which the body's fields win; length and every other position are kept. */
  lemma PutMergesFirstMatch(store: seq<Product>, req: Request, i: nat)
    requires IsPut(req) && !ReadThrows(req.body)
    requires ValidName(Member(req.body.doc, "name")) && !BadPrice(Member(req.body.doc, "price"))
    requires i < |store| && store[i].id == Str(PutTarget(req.url))
    requires forall j :: 0 <= j < i ==> store[j].id != Str(PutTarget(req.url))
    ensures var out := Respond(store, req);
            && |out.store| == |store|
            && (forall j :: 0 <= j < |store| && j != i ==> out.store[j] == store[j])
            && (forall key :: Field(out.store[i], key) ==
                  if key in Members(req.body.doc) then Some(Members(req.body.doc)[key]) else Field(store[i], key))
            && out.response == Response(200, CorsHeaders, Some(JsonType), Record(out.store[i]))
  {
    assert FirstIndex(store, PutTarget(req.url)) == i;
  }

  /** An empty update `{}` is rejected with 400 for its missing name, not accepted as a no-op. */
  lemma PutEmptyObjectRejected(store: seq<Product>, id: string)
    requires '/' !in id
    ensures Respond(store, Request("PUT", ItemPrefix + id, Parsed(Object(map[]))))
            == Reject(store, 400, "message", "Invalid product name")
  {
    ItemId(id);
  }

  /** A PUT whose body has no "id" keeps every id, so ids stay unique. */
  lemma PutKeepsUniqueIds(store: seq<Product>, req: Request)
    requires IsPut(req) && UniqueIds(store)
    requires !ReadThrows(req.body) ==> "id" !in Members(req.body.doc)
    ensures UniqueIds(Respond(store, req).store)
  {
    var out := Respond(store, req);
    if out.store != store {
      var i := FirstIndex(store, PutTarget(req.url));
      assert out.store == store[i := Merge(store[i], Members(req.body.doc))];
      assert Field(out.store[i], "id") == Field(store[i], "id");
      assert forall j :: 0 <= j < |store| ==> out.store[j].id == store[j].id;
    }
  }

  /** The merge does not protect "id": a PUT can give a record the id of another one. */
  lemma PutCanDuplicateIds()
    ensures var store := [Product(Str("1"), Str("Chair"), Num(149.99), map[]),
                          Product(Str("2"), Str("Desk Lamp"), Num(59.99), map[])];
            var out := Respond(store, Request("PUT", ItemPrefix + "2",
                                              Parsed(Object(map["name" := Str("Lamp"), "id" := Str("1")]))));
            UniqueIds(store) && out.response.status == 200 && !UniqueIds(out.store)
  {
    var store := [Product(Str("1"), Str("Chair"), Num(149.99), map[]),
                  Product(Str("2"), Str("Desk Lamp"), Num(59.99), map[])];
    var req := Request("PUT", ItemPrefix + "2", Parsed(Object(map["name" := Str("Lamp"), "id" := Str("1")])));
    ItemId("2");
    PutMergesFirstMatch(store, req, 1);
    var out := Respond(store, req);
    assert Field(out.store[1], "id") == Some(Str("1"));
    assert out.store[0].id == out.store[1].id;
  }

  // ---------------------------------------------------------------- DELETE

  /** An empty id piece ("/api/products/", "/api/products//x"): 400 with an "error" key. */
  lemma DeleteEmptyId(store: seq<Product>, req: Request)
    requires IsDelete(req) && DeleteTarget(req.url) == ""
    ensures Respond(store, req) == Reject(store, 400, "error", "Invalid product ID")
  {
  }

  lemma DeleteUnknownId(store: seq<Product>, req: Request)
    requires IsDelete(req) && DeleteTarget(req.url) != ""
    requires forall j :: 0 <= j < |store| ==> store[j].id != Str(DeleteTarget(req.url))
    ensures Respond(store, req) == Reject(store, 404, "error", "Product not found")
  {
  }

  /** A successful DELETE (the intended removal `Delete`) answers with the first record
      carrying the id and removes every record with that id, keeping every copy of all
      the others in their order. */
  lemma DeleteRemovesMatches(store: seq<Product>, req: Request, i: nat)
    requires IsDelete(req) && DeleteTarget(req.url) != ""
    requires i < |store| && store[i].id == Str(DeleteTarget(req.url))
    requires forall j :: 0 <= j < i ==> store[j].id != Str(DeleteTarget(req.url))
    ensures var out := Respond(store, req);
            && out.response == Response(200, CorsHeaders, Some(JsonType),
                                        Removal("Product deleted successfully", store[i]))
            && (forall p :: p in out.store <==> p in store && p.id != Str(DeleteTarget(req.url)))
            && (forall p :: multiset(out.store)[p]
                              == if p.id != Str(DeleteTarget(req.url)) then multiset(store)[p] else 0)
            && IsSubsequence(out.store, store)
            && |out.store| < |store|
  {
    var id := DeleteTarget(req.url);
    assert FirstIndex(store, id) == i;
    SelectCounts(store, (p: Product) => p.id != Str(id));
    SelectIsSubsequence(store, (p: Product) => p.id != Str(id));
    SelectDropsRejected(store, (p: Product) => p.id != Str(id), i);
  }

  /** With unique ids, removing an id removes exactly the one record that has it. */
  lemma {:induction false} WithoutUnique(store: seq<Product>, id: string, i: nat)
    requires UniqueIds(store) && i < |store| && store[i].id == Str(id)
    ensures Without(store, id) == store[..i] + store[i + 1..]
    decreases |store|
  {
    if i == 0 {
      assert forall p :: p in store[1..] ==> p.id != Str(id);
      SelectKeepsAll(store[1..], (p: Product) => p.id != Str(id));
    } else {
      WithoutUnique(store[1..], id, i - 1);
      assert store[..i] == [store[0]] + store[1..][..i - 1];
      assert store[i + 1..] == store[1..][i..];
    }
  }

  /** With unique ids a DELETE (the intended removal `Delete`) removes exactly one record. */
  lemma DeleteExactlyOne(store: seq<Product>, req: Request, i: nat)
    requires IsDelete(req) && DeleteTarget(req.url) != "" && UniqueIds(store)
    requires i < |store| && store[i].id == Str(DeleteTarget(req.url))
    ensures Respond(store, req).store == store[..i] + store[i + 1..]
    ensures |Respond(store, req).store| == |store| - 1
  {
    WithoutUnique(store, DeleteTarget(req.url), i);
  }

  /** As written, every DELETE that gets past both checks throws instead of answering;
      the error answers are those of the intended `Delete`. */
  lemma DeleteAsWrittenThrows(store: seq<Product>, id: string)
    ensures DeleteAsWritten(store, id).Threw?
            <==> id != "" && exists j :: 0 <= j < |store| && store[j].id == Str(id)
    ensures DeleteAsWritten(store, id).Sent? ==>
            DeleteAsWritten(store, id).outcome.store == store && Delete(store, id).store == store
  {
  }

  /** The request that exposes it: deleting product "1" of the sample list. */
  lemma DeleteSampleThrows()
    ensures DeleteAsWritten(Seed(), DeleteTarget("/api/products/1")).Threw?
  {
    assert "/api/products/1" == ItemPrefix + "1";
    ItemId("1");
  }

  // ---------------------------------------------------------------- a session

  /** A GET, then a PUT renaming and repricing the first record, then a DELETE of its id
      (the intended removal `Delete`), on any list whose ids are unique. */
  lemma {:induction false} Session(store: seq<Product>, id: string)
    requires '/' !in id && id != "" && |store| >= 1 && store[0].id == Str(id) && UniqueIds(store)
    ensures var get := Respond(store, Request("GET", ProductsPath, Unparsable));
            get.response.status == 200 && get.response.payload == Listing(store) && get.store == store
    ensures var put := Respond(store, Request("PUT", ItemPrefix + id, Parsed(Object(UpdateBody()))));
            && put.response.status == 200
            && put.store[0].name == Str("Updated") && put.store[0].price == Num(100.0)
            && put.store[1..] == store[1..]
            && var del := Respond(put.store, Request("DELETE", ItemPrefix + id, Unparsable));
               del.response.status == 200 && |del.store| == |store| - 1
               && forall p :: p in del.store ==> p.id != Str(id)
  {
    ItemId(id);
    var putReq := Request("PUT", ItemPrefix + id, Parsed(Object(UpdateBody())));
    PutMergesFirstMatch(store, putReq, 0);
    var put := Respond(store, putReq);
    assert Field(put.store[0], "name") == Some(Str("Updated"));
    assert Field(put.store[0], "price") == Some(Num(100.0));
    assert Field(put.store[0], "id") == Some(Str(id));
    assert put.store[1..] == store[1..];
    assert UniqueIds(put.store) by {
      assert forall j :: 0 <= j < |store| ==> put.store[j].id == store[j].id;
    }
    var delReq := Request("DELETE", ItemPrefix + id, Unparsable);
    DeleteExactlyOne(put.store, delReq, 0);
    DeleteRemovesMatches(put.store, delReq, 0);
  }

  function UpdateBody(): map<string, Value>
  {
    map["name" := Str("Updated"), "price" := Num(100.0)]
  }

  /** End to end on the sample list: it has 8 products, its ids are unique and
      "1" comes first, so by `Session` a PUT renaming and repricing "1" followed by a
      DELETE of "1" (the intended removal `Delete`) leaves 7 products, none with id "1". */
  lemma SampleSession()
    ensures |Seed()| == 8 && UniqueIds(Seed()) && Seed()[0].id == Str("1")
    ensures var get := Respond(Seed(), Request("GET", ProductsPath, Unparsable));
            get.response.status == 200 && get.response.payload == Listing(Seed())
    ensures var put := Respond(Seed(), Request("PUT", ItemPrefix + "1", Parsed(Object(UpdateBody()))));
            && put.response.status == 200
            && put.store[0].name == Str("Updated") && put.store[0].price == Num(100.0)
            && put.store[1..] == Seed()[1..]
            && var del := Respond(put.store, Request("DELETE", ItemPrefix + "1", Unparsable));
               del.response.status == 200 && |del.store| == 7
               && forall p :: p in del.store ==> p.id != Str("1")
  {
    assert |Seed()| == 8 && UniqueIds(Seed()) && Seed()[0].id == Str("1");
    Session(Seed(), "1");
  }

  /** On the sample list an unknown id is 404 and an empty name 400. */
  lemma SampleErrors()
    ensures Respond(Seed(), Request("PUT", ItemPrefix + "999", Parsed(Object(map["name" := Str("x")])))).response.status == 404
    ensures Respond(Seed(), Request("PUT", ItemPrefix + "1", Parsed(Object(map["name" := Str("")])))).response.status == 400
  {
    UnknownPut(Seed(), "999");
    EmptyNamePut(Seed(), "1");
  }

  lemma UnknownPut(store: seq<Product>, id: string)
    requires '/' !in id && forall j :: 0 <= j < |store| ==> store[j].id != Str(id)
    ensures Respond(store, Request("PUT", ItemPrefix + id, Parsed(Object(map["name" := Str("x")])))).response.status == 404
  {
    ItemId(id);
  }

  lemma EmptyNamePut(store: seq<Product>, id: string)
    requires '/' !in id
    ensures Respond(store, Request("PUT", ItemPrefix + id, Parsed(Object(map["name" := Str("")])))).response.status == 400
  {
    ItemId(id);
  }
}
