/**
 * Client code exercising the resource layer on an example store, in the
 * way the package is meant to be used. Each assertion follows from the
 * contracts of the resource methods; the concrete URLs are worked out in
 * small lemmas of their own.
 */

/** The literal strings of the examples, joined once in a context of their own. */
module ExampleText {

  lemma Origin()
    ensures "https" + "://" + "store.example.com" + "/api/v2" == "https://store.example.com/api/v2"
  {
  }

  lemma ProductsListText()
    ensures "https://store.example.com/api/v2" + "/products?limit=10&" + ".json"
         == "https://store.example.com/api/v2/products?limit=10&.json"
  {
  }

  lemma ProductText()
    ensures "https://store.example.com/api/v2" + "/products/42" + ".json"
         == "https://store.example.com/api/v2/products/42.json"
  {
  }

  lemma OrderText()
    ensures "https://store.example.com/api/v2" + "/orders/7" + ".json"
         == "https://store.example.com/api/v2/orders/7.json"
  {
  }

  lemma BrandsText()
    ensures "https://store.example.com/api/v2" + "/brands" + ".json"
         == "https://store.example.com/api/v2/brands.json"
  {
  }

  lemma Authorization()
    ensures "YWRt" + "aW46" + "c2Vj" + "cmV0" == "YWRtaW46c2VjcmV0"
    ensures "Basic " + "YWRtaW46c2VjcmV0" == "Basic YWRtaW46c2VjcmV0"
  {
  }
}

/** The example credentials `admin` and `secret`, worked out in base 64. */
module CredentialsExample {
  import Base64
  import ExampleText

  const ADMIN: seq<Base64.Byte> := [97, 100, 109, 105, 110]
  const SECRET: seq<Base64.Byte> := [115, 101, 99, 114, 101, 116]

  lemma UserPassBytes(user: seq<Base64.Byte>, key: seq<Base64.Byte>)
    requires user == ADMIN && key == SECRET
    ensures user + [58] + key == [97, 100, 109, 105, 110, 58, 115, 101, 99, 114, 101, 116]
  {
  }

  lemma EncodeFourGroups(b: seq<Base64.Byte>)
    requires |b| == 12
    ensures Base64.Encode(b) == Base64.EncodeGroup(b[0], b[1], b[2]) + Base64.EncodeGroup(b[3], b[4], b[5])
      + Base64.EncodeGroup(b[6], b[7], b[8]) + Base64.EncodeGroup(b[9], b[10], b[11])
  {
    Base64.EncodeLeadingGroup(b);
    Base64.EncodeLeadingGroup(b[3..]);
    Base64.EncodeLeadingGroup(b[6..]);
    Base64.EncodeLeadingGroup(b[9..]);
    assert b[9..][3..] == [];
  }

  lemma Groups()
    ensures Base64.EncodeGroup(97, 100, 109) == "YWRt"
    ensures Base64.EncodeGroup(105, 110, 58) == "aW46"
    ensures Base64.EncodeGroup(115, 101, 99) == "c2Vj"
    ensures Base64.EncodeGroup(114, 101, 116) == "cmV0"
  {
  }

  /** The bytes of `admin`, a colon, and the bytes of `secret`. */
  lemma AdminSecret(b: seq<Base64.Byte>)
    requires b == [97, 100, 109, 105, 110, 58, 115, 101, 99, 114, 101, 116]
    ensures Base64.Encode(b) == "YWRtaW46c2VjcmV0"
  {
    EncodeFourGroups(b);
    assert b[0] == 97 && b[1] == 100 && b[2] == 109 && b[3] == 105 && b[4] == 110 && b[5] == 58;
    assert b[6] == 115 && b[7] == 101 && b[8] == 99 && b[9] == 114 && b[10] == 101 && b[11] == 116;
    Groups();
    ExampleText.Authorization();
  }
}

module Scenarios {
  import CredentialsExample
  import ExampleText
  import opened Wrappers
  import opened Values
  import opened Errors
  import opened Connection
  import opened Resources

  /** The example store: `https://store.example.com/api/v2`, with any credentials. */
  predicate IsExampleStore(store: Config)
  {
    store.protocol == "https" && store.host == "store.example.com" && store.basePath == "/api/v2" && store.user != []
  }

  lemma ExampleUrl(store: Config, path: string)
    requires IsExampleStore(store)
    ensures Url(store, path) == "https://store.example.com/api/v2" + path + ".json"
  {
    ExampleText.Origin();
  }

  lemma LimitQuery()
    ensures Query(Some([("limit", "10")])) == "?limit=10&"
  {
    assert Params([("limit", "10")]) == Pair("limit", "10") + Params([]);
  }

  /** The listing URL keeps the trailing `&` and puts `.json` after the query string. */
  lemma ProductsListUrl(store: Config)
    requires IsExampleStore(store)
    ensures Url(store, Ext(Products) + Query(Some([("limit", "10")])))
         == "https://store.example.com/api/v2/products?limit=10&.json"
  {
    LimitQuery();
    ExampleUrl(store, "/products?limit=10&");
    ExampleText.ProductsListText();
  }

  lemma ProductUrl(store: Config)
    requires IsExampleStore(store)
    ensures Url(store, ItemPath(Ext(Products), IntId(42))) == "https://store.example.com/api/v2/products/42.json"
  {
    assert IdToString(IntId(42)) == "42";
    ExampleUrl(store, "/products/42");
    ExampleText.ProductText();
  }

  lemma OrderUrl(store: Config)
    requires IsExampleStore(store)
    ensures Url(store, ItemPath(Ext(Orders), IntId(7))) == "https://store.example.com/api/v2/orders/7.json"
  {
    assert IdToString(IntId(7)) == "7";
    ExampleUrl(store, "/orders/7");
    ExampleText.OrderText();
  }

  lemma BrandsUrl(store: Config)
    requires IsExampleStore(store)
    ensures Url(store, Ext(Brands)) == "https://store.example.com/api/v2/brands.json"
  {
    ExampleUrl(store, "/brands");
    ExampleText.BrandsText();
  }

  /** Listing products with a limit. */
  method ListProducts(store: Config)
    requires IsExampleStore(store)
  {
    var products := new Resource(Products, store);
    var reply := Reply(200, JArray([JObject([("id", JNumber(1))])]));
    var r := products.Get(Some([("limit", "10")]), reply);
    ProductsListUrl(store);
    assert r.Success? && r.value.sent.verb == GET;
    assert r.value.sent.url == "https://store.example.com/api/v2/products?limit=10&.json";
    assert r.value.result == reply.body;
    assert products.selected == None;
  }

  /** After fetching item 42, an update without an id (or with id 0) goes to item 42. */
  method UpdateRemembersFetchedId(store: Config)
    requires IsExampleStore(store)
  {
    var products := new Resource(Products, store);
    var fetched := products.GetById(IntId(42), Reply(200, JObject([("id", JNumber(42))])));
    assert products.selected == Some(IntId(42));
    UpdateSelected(products);
  }

  method UpdateSelected(products: Resource)
    requires IsExampleStore(products.client) && products.ext == Ext(Products)
    requires products.selected == Some(IntId(42))
  {
    var reply := Reply(200, JObject([("id", JNumber(42))]));
    var payload := JObject([("name", JString("x"))]);
    var updated := products.Update(payload, NoneId, reply);
    ProductUrl(products.client);
    assert updated.Success? && updated.value.sent.verb == PUT;
    assert updated.value.sent.url == "https://store.example.com/api/v2/products/42.json";
    assert updated.value.sent.body == Some(payload);

    var again := products.Update(payload, IntId(0), reply);
    assert again == updated;
  }

  /** Deleting order 7 sends no body and hands back the decoded reply as it is. */
  method DeleteOrder(store: Config)
    requires IsExampleStore(store)
  {
    var orders := new Resource(Orders, store);
    var reply := Reply(200, JNull);
    var r := orders.Delete(IntId(7), reply);
    OrderUrl(store);
    assert r.Success? && r.value.sent.verb == DELETE && r.value.sent.body == None;
    assert r.value.sent.url == "https://store.example.com/api/v2/orders/7.json";
    assert r.value.result == JNull;

    var missing := orders.Delete(IntId(8), Reply(404, JString("not found")));
    assert missing.Success? && missing.value.result == JObject([("Error", JString("not found"))]);
  }

  /** The user `admin` with the key `secret` is sent as `Basic YWRtaW46c2VjcmV0`. */
  method BasicCredentials(store: Config)
    requires store.user == CredentialsExample.ADMIN && store.apiKey == CredentialsExample.SECRET
  {
    CredentialsExample.UserPassBytes(store.user, store.apiKey);
    CredentialsExample.AdminSecret(UserPass(store));
    ExampleText.Authorization();
    var headers := BuildRequestHeaders(store);
    assert headers.value["Authorization"] == "Basic YWRtaW46c2VjcmV0";
  }

  /** Without a fetched id, an update with a falsy id fails before anything is sent. */
  method UpdateWithoutId(store: Config)
    requires IsExampleStore(store)
  {
    var products := new Resource(Products, store);
    var r := products.Update(JObject([("name", JString("x"))]), StrId(""), Reply(200, JNull));
    assert r == Failure(MissingIdentifier);
  }

  /** The shipped configuration has no store address, so every request fails at once. */
  method UnconfiguredStore()
  {
    var coupons := new Resource(Coupons, DefaultConfig());
    var r := coupons.Get(None, Reply(200, JNull));
    assert r == Failure(MissingStoreAddress);
    var fetched := coupons.GetById(IntId(1), Reply(200, JNull));
    assert fetched == Failure(MissingStoreAddress);
    assert coupons.selected == None;
  }

  /** A create with an empty payload is sent as a GET of the collection. */
  method CreateWithEmptyPayload(store: Config)
    requires IsExampleStore(store)
  {
    var brands := new Resource(Brands, store);
    var r := brands.Create(JObject([]), Reply(200, JArray([])));
    BrandsUrl(store);
    assert r.Success? && r.value.sent.verb == GET && r.value.sent.body == None;
    assert r.value.sent.url == "https://store.example.com/api/v2/brands.json";
  }
}
