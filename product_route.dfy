/** The response building of `receive_product` in `routes/product.py`: the
    pipeline's result is flattened into the fields the browser extension
    reads, with five recommendation slots `link1` to `link5`. The pipeline,
    `json.dumps` and `str` are parameters. */
module ProductRoute {
  import opened Wrappers
  import opened JsonValue

  // ---------------------------------------------------------------------
  // _rec_field
  // ---------------------------------------------------------------------

  /** The first truthy value among `keys` in a dict, or "". */
  function FirstTruthy(ms: Fields, keys: seq<string>): Json
    decreases |keys|
  {
    if keys == [] then JStr("")
    else
      var v := GetOr(ms, keys[0], JNull);
      if Truthy(v) then v else FirstTruthy(ms, keys[1..])
  }

  /** `_rec_field(r, *keys)`: "" for a falsy record; `.get` raises on anything
      but a dict. */
  function RecField(r: Json, keys: seq<string>): Result<Json> {
    if !Truthy(r) || keys == [] then Ok(JStr(""))
    else if !r.JObj? then Raised
    else Ok(FirstTruthy(r.members, keys))
  }

  method RecFieldRun(r: Json, keys: seq<string>) returns (res: Result<Json>)
    ensures res == RecField(r, keys)
  {
    if !Truthy(r) {
      return Ok(JStr(""));
    }
    for i := 0 to |keys|
      invariant i > 0 ==> r.JObj?
      invariant r.JObj? ==> FirstTruthy(r.members, keys) == FirstTruthy(r.members, keys[i..])
    {
      if !r.JObj? {
        return Raised;
      }
      assert keys[i..][1..] == keys[i + 1..];
      var v := GetOr(r.members, keys[i], JNull);
      if Truthy(v) {
        return Ok(v);
      }
    }
    return Ok(JStr(""));
  }

  /** `_rec_field` on a dict yields the value of the first key whose value is
      truthy, none of the keys before it having a truthy value, and "" when no
      key has one. */
  lemma {:induction false} FirstTruthyMeaning(ms: Fields, keys: seq<string>)
    ensures var v := FirstTruthy(ms, keys);
      && ((exists j :: 0 <= j < |keys| && Truthy(GetOr(ms, keys[j], JNull))) ==>
            exists j :: 0 <= j < |keys| && v == GetOr(ms, keys[j], JNull) && Truthy(v)
                        && forall i :: 0 <= i < j ==> !Truthy(GetOr(ms, keys[i], JNull)))
      && ((forall j :: 0 <= j < |keys| ==> !Truthy(GetOr(ms, keys[j], JNull))) ==> v == JStr(""))
    decreases |keys|
  {
    if keys != [] {
      FirstTruthyMeaning(ms, keys[1..]);
      var v := FirstTruthy(ms, keys);
      if !Truthy(GetOr(ms, keys[0], JNull)) {
        if exists j :: 0 <= j < |keys| && Truthy(GetOr(ms, keys[j], JNull)) {
          var j :| 0 <= j < |keys| && Truthy(GetOr(ms, keys[j], JNull));
          assert j > 0 && keys[1..][j - 1] == keys[j];
          var j' :| 0 <= j' < |keys[1..]| && v == GetOr(ms, keys[1..][j'], JNull) && Truthy(v)
                    && forall i :: 0 <= i < j' ==> !Truthy(GetOr(ms, keys[1..][i], JNull));
          assert v == GetOr(ms, keys[j' + 1], JNull);
          forall i | 0 <= i < j' + 1 ensures !Truthy(GetOr(ms, keys[i], JNull)) {
            if i > 0 {
              assert keys[i] == keys[1..][i - 1];
            }
          }
        }
        forall j | 0 <= j < |keys[1..]| ensures keys[1..][j] == keys[j + 1] {
        }
      }
    }
  }

  // ---------------------------------------------------------------------
  // The five recommendation slots
  // ---------------------------------------------------------------------

  /** `json.dumps(debug, ensure_ascii=False)`, which may raise, and `str(debug)`. */
  datatype Printer = Printer(dumps: Json -> Outcome<string>, show: Json -> string)

  /** The fields of one slot. */
  datatype Link = Link(url: Json, score: Json, explanation: Json, image: Json)

  const SlotCount: nat := 5

  /** The slot for a missing recommendation. */
  const EmptyLink: Link := Link(JStr(""), JNull, JStr(""), JStr(""))

  /** `recs[idx] if idx < len(recs) else {}`: `len` raises on a number or a
      boolean, and indexing a dict with an integer raises. */
  function Element(recs: Json, i: nat): Result<Json> {
    match recs
    case JArr(items) => if i < |items| then Ok(items[i]) else Ok(JObj([]))
    case JStr(s) => if i < |s| then Ok(JStr([s[i]])) else Ok(JObj([]))
    case JObj(ms) => if i < |ms| then Raised else Ok(JObj([]))
    case _ => Raised
  }

  /** `linkNExplanation`: "" for a falsy record; the serialised `_rec_debug`
      when it is present and not null (its `str` when serialising raises);
      otherwise the first truthy explanation field, or "". */
  function Explanation(p: Printer, r: Json): Result<Json> {
    if !Truthy(r) then Ok(JStr(""))
    else if !r.JObj? then Raised
    else
      match Get(r.members, "_rec_debug")
      case Some(debug) =>
        if debug != JNull then
          match p.dumps(debug)
          case Returned(s) => Ok(JStr(s))
          case Threw(_) => Ok(JStr(p.show(debug)))
        else ExplanationFields(r)
      case None => ExplanationFields(r)
  }

  function ExplanationFields(r: Json): Result<Json> {
    var f :- RecField(r, ["explanation", "reason", "_explanation"]);
    Ok(if Truthy(f) then f else JStr(""))
  }

  /** One slot from one recommendation; `r.get("cf_value")` raises on a non-dict. */
  function Slot(p: Printer, r: Json): Result<Link> {
    var url :- RecField(r, ["web_url", "url"]);
    var score :- if r.JObj? then Ok(GetOr(r.members, "cf_value", JNull)) else Raised;
    var explanation :- Explanation(p, r);
    var image :- RecField(r, ["image_url", "image"]);
    Ok(Link(url, score, explanation, image))
  }

  method SlotRun(p: Printer, r: Json) returns (res: Result<Link>)
    ensures res == Slot(p, r)
  {
    var url := RecFieldRun(r, ["web_url", "url"]);
    if url.Raised? || !r.JObj? {
      return Raised;
    }
    var score := GetOr(r.members, "cf_value", JNull);
    var explanation := Explanation(p, r);
    var image := RecFieldRun(r, ["image_url", "image"]);
    if explanation.Raised? || image.Raised? {
      return Raised;
    }
    res := Ok(Link(url.value, score, explanation.value, image.value));
  }

  /** The slot of a padded index. */
  lemma EmptySlot(p: Printer)
    ensures Slot(p, JObj([])) == Ok(EmptyLink)
  {
  }

  /** `Slot` with the serialiser fixed, as the loop over the slots applies it. */
  function SlotWith(p: Printer): Json -> Result<Link> {
    r => Slot(p, r)
  }

  /** The first `n` slots, each built by `slot` from the element at its index. */
  function Links(slot: Json -> Result<Link>, recs: Json, n: nat): (r: Result<seq<Link>>)
    ensures r.Ok? ==> |r.value| == n
  {
    if n == 0 then Ok([])
    else
      var before :- Links(slot, recs, n - 1);
      var r :- Element(recs, n - 1);
      var link :- slot(r);
      Ok(before + [link])
  }

  // ---------------------------------------------------------------------
  // The response
  // ---------------------------------------------------------------------

  /** `resp` before flattening. */
  datatype Response = Response(status: Json, messages: Json, product: Fields, score: Json, links: seq<Link>,
                               recommendations: Json)

  /** `x or d`. */
  function Or(x: Json, d: Json): Json {
    if Truthy(x) then x else d
  }

  const ProductKeys: seq<string> := ["sku", "name", "category", "brand", "price", "cf_value"]

  /** The minimal product: the six keys read with `.get`. */
  function Minimal(ms: Fields): (r: Fields)
    ensures Keys(r) == ProductKeys
    ensures forall i :: 0 <= i < |ProductKeys| ==> r[i].value == GetOr(ms, ProductKeys[i], JNull)
  {
    seq(|ProductKeys|, i requires 0 <= i < |ProductKeys| => Member(ProductKeys[i], GetOr(ms, ProductKeys[i], JNull)))
  }

  /** The response built from the pipeline's result. */
  function BuildResponse(p: Printer, result: Json): Result<Response> {
    if !result.JObj? then Raised
    else
      var product := Or(GetOr(result.members, "product", JObj([])), JObj([]));
      var recs := Or(GetOr(result.members, "recommendations", JArr([])), JArr([]));
      if !product.JObj? then Raised
      else
        var links :- Links(SlotWith(p), recs, SlotCount);
        Ok(Response(GetOr(result.members, "status", JNull), GetOr(result.members, "messages", JNull),
                    Minimal(product.members), GetOr(product.members, "cf_value", JNull), links, recs))
  }

  method BuildResponseRun(p: Printer, result: Json) returns (res: Result<Response>)
    ensures res == BuildResponse(p, result)
  {
    if !result.JObj? {
      return Raised;
    }
    var product := Or(GetOr(result.members, "product", JObj([])), JObj([]));
    var recs := Or(GetOr(result.members, "recommendations", JArr([])), JArr([]));
    if !product.JObj? {
      return Raised;
    }
    var links: seq<Link> := [];
    for i := 0 to SlotCount
      invariant Links(SlotWith(p), recs, i) == Ok(links)
    {
      var r := Element(recs, i);
      if r.Raised? {
        LinksRaiseOnward(SlotWith(p), recs, i + 1, SlotCount);
        return Raised;
      }
      var link := SlotRun(p, r.value);
      if link.Raised? {
        LinksRaiseOnward(SlotWith(p), recs, i + 1, SlotCount);
        return Raised;
      }
      links := links + [link.value];
    }
    res := Ok(Response(GetOr(result.members, "status", JNull), GetOr(result.members, "messages", JNull),
                       Minimal(product.members), GetOr(product.members, "cf_value", JNull), links, recs));
  }

  lemma {:induction false} LinksRaiseOnward(slot: Json -> Result<Link>, recs: Json, k: nat, n: nat)
    requires k <= n && Links(slot, recs, k).Raised?
    ensures Links(slot, recs, n).Raised?
    decreases n - k
  {
    if k < n {
      LinksRaiseOnward(slot, recs, k + 1, n);
    }
  }

  /** One more slot: the slots before it, then the slot of element `n - 1`. */
  lemma LinksStep(slot: Json -> Result<Link>, recs: Json, n: nat)
    requires n > 0 && Links(slot, recs, n).Ok?
    ensures Links(slot, recs, n - 1).Ok? && Element(recs, n - 1).Ok? && slot(Element(recs, n - 1).value).Ok?
    ensures Links(slot, recs, n).value == Links(slot, recs, n - 1).value + [slot(Element(recs, n - 1).value).value]
  {
  }

  /** Slot `i` is the empty slot past the end of the recommendations and the
      slot of `recs[i]` before it. */
  lemma LinksMeaning(slot: Json -> Result<Link>, recs: Json, n: nat)
    requires Links(slot, recs, n).Ok? && PyLen(recs).Some? && slot(JObj([])) == Ok(EmptyLink)
    ensures forall i :: 0 <= i < n && i >= PyLen(recs).value ==> Links(slot, recs, n).value[i] == EmptyLink
    ensures forall i :: 0 <= i < n && i < PyLen(recs).value ==>
      Element(recs, i).Ok? && Ok(Links(slot, recs, n).value[i]) == slot(Element(recs, i).value)
  {
    LinksSlots(slot, recs, n);
    forall i | 0 <= i < n && i >= PyLen(recs).value
      ensures Links(slot, recs, n).value[i] == EmptyLink
    {
      assert Element(recs, i) == Ok(JObj([]));
    }
  }

  /** Each of the first `n` slots is the slot of the element at its index. */
  lemma LinksSlots(slot: Json -> Result<Link>, recs: Json, n: nat)
    requires Links(slot, recs, n).Ok?
    ensures forall i :: 0 <= i < n ==>
      Element(recs, i).Ok? && Ok(Links(slot, recs, n).value[i]) == slot(Element(recs, i).value)
  {
    forall i | 0 <= i < n
      ensures Element(recs, i).Ok? && Ok(Links(slot, recs, n).value[i]) == slot(Element(recs, i).value)
    {
      LinksPrefix(slot, recs, n, i);
      LinksStep(slot, recs, i + 1);
    }
  }

  /** The slot after `i` leaves slot `i` as it was. */
  lemma LinksKeep(slot: Json -> Result<Link>, recs: Json, n: nat, i: nat)
    requires i + 1 < n && Links(slot, recs, n).Ok?
    ensures Links(slot, recs, n - 1).Ok? && Links(slot, recs, n).value[i] == Links(slot, recs, n - 1).value[i]
  {
  }

  /** Later slots leave the earlier ones as they were. */
  lemma {:induction false} LinksPrefix(slot: Json -> Result<Link>, recs: Json, n: nat, i: nat)
    requires Links(slot, recs, n).Ok? && i < n
    ensures Links(slot, recs, i + 1).Ok? && Links(slot, recs, n).value[i] == Links(slot, recs, i + 1).value[i]
    decreases n
  {
    if n == i + 1 {
    } else {
      LinksKeep(slot, recs, n, i);
      LinksPrefix(slot, recs, n - 1, i);
    }
  }

  /** What the response promises: five slots, each empty past the end of the
      recommendations and otherwise taken from the recommendation at its
      index (the link from `web_url` then `url`, the image from `image_url`
      then `image`); `C0Score` is the product's `cf_value`, which the minimal
      product also carries; the recommendations come back as they were. */
  lemma ResponseMeaning(p: Printer, result: Json)
    requires BuildResponse(p, result).Ok?
    ensures var resp := BuildResponse(p, result).value;
      var recs := Or(GetOr(result.members, "recommendations", JArr([])), JArr([]));
      var product := Or(GetOr(result.members, "product", JObj([])), JObj([]));
      && |resp.links| == SlotCount
      && resp.recommendations == recs
      && resp.score == GetOr(product.members, "cf_value", JNull)
      && resp.product[5] == Member("cf_value", resp.score)
      && PyLen(recs).Some?
      && (forall i :: 0 <= i < SlotCount && i >= PyLen(recs).value ==> resp.links[i] == EmptyLink)
      && (forall i :: 0 <= i < SlotCount && recs.JArr? && i < |recs.items| && Truthy(recs.items[i]) ==>
            && recs.items[i].JObj?
            && resp.links[i].url == FirstTruthy(recs.items[i].members, ["web_url", "url"])
            && resp.links[i].image == FirstTruthy(recs.items[i].members, ["image_url", "image"])
            && resp.links[i].score == GetOr(recs.items[i].members, "cf_value", JNull))
  {
    var recs := Or(GetOr(result.members, "recommendations", JArr([])), JArr([]));
    var resp := BuildResponse(p, result).value;
    ResponseParts(p, result);
    EmptySlot(p);
    LinksMeaning(SlotWith(p), recs, SlotCount);
    forall i | 0 <= i < SlotCount && recs.JArr? && i < |recs.items| && Truthy(recs.items[i])
      ensures && recs.items[i].JObj?
              && resp.links[i].url == FirstTruthy(recs.items[i].members, ["web_url", "url"])
              && resp.links[i].image == FirstTruthy(recs.items[i].members, ["image_url", "image"])
              && resp.links[i].score == GetOr(recs.items[i].members, "cf_value", JNull)
    {
      assert Element(recs, i) == Ok(recs.items[i]);
      SlotOfRecord(p, recs.items[i]);
    }
  }

  lemma ResponseParts(p: Printer, result: Json)
    requires BuildResponse(p, result).Ok?
    ensures var resp := BuildResponse(p, result).value;
      var recs := Or(GetOr(result.members, "recommendations", JArr([])), JArr([]));
      var product := Or(GetOr(result.members, "product", JObj([])), JObj([]));
      && Links(SlotWith(p), recs, SlotCount) == Ok(resp.links)
      && resp.recommendations == recs
      && resp.score == GetOr(product.members, "cf_value", JNull)
      && resp.product[5] == Member("cf_value", resp.score)
      && PyLen(recs).Some?
  {
    var recs := Or(GetOr(result.members, "recommendations", JArr([])), JArr([]));
    var resp := BuildResponse(p, result).value;
    assert Keys(resp.product)[5] == "cf_value";
    if PyLen(recs).None? {
      assert Element(recs, 0).Raised?;
      LinksRaiseOnward(SlotWith(p), recs, 1, SlotCount);
    }
  }

  /** The slot of a truthy recommendation exists only for a dict, and reads
      its link, image and score from it. */
  lemma SlotOfRecord(p: Printer, r: Json)
    requires Truthy(r) && Slot(p, r).Ok?
    ensures r.JObj?
    ensures Slot(p, r).value.url == FirstTruthy(r.members, ["web_url", "url"])
    ensures Slot(p, r).value.image == FirstTruthy(r.members, ["image_url", "image"])
    ensures Slot(p, r).value.score == GetOr(r.members, "cf_value", JNull)
  {
  }

  // ---------------------------------------------------------------------
  // The flat reply
  // ---------------------------------------------------------------------

  const SlotNames: seq<string> := ["link1", "link2", "link3", "link4", "link5"]

  /** The four keys of slot `i`: `link{i+1}`, `link{i+1}C0Score`,
      `link{i+1}Explanation` and `link{i+1}Image`. */
  function SlotMembers(i: nat, l: Link): (r: Fields)
    requires i < |SlotNames|
  {
    [Member(SlotNames[i], l.url), Member(SlotNames[i] + "C0Score", l.score),
     Member(SlotNames[i] + "Explanation", l.explanation), Member(SlotNames[i] + "Image", l.image)]
  }

  /** The four key names of slot `i`, in order. */
  function SlotKeyNames(i: nat): seq<string>
    requires i < |SlotNames|
  {
    [SlotNames[i], SlotNames[i] + "C0Score", SlotNames[i] + "Explanation", SlotNames[i] + "Image"]
  }

  function FlatSlots(links: seq<Link>): Fields
    requires |links| <= |SlotNames|
    decreases |links|
  {
    if links == [] then []
    else FlatSlots(links[..|links| - 1]) + SlotMembers(|links| - 1, links[|links| - 1])
  }

  /** `resp` in its insertion order. */
  function Flatten(resp: Response): Fields
    requires |resp.links| == SlotCount
  {
    [Member("status", resp.status), Member("messages", resp.messages), Member("product", JObj(resp.product)),
     Member("C0Score", resp.score)]
    + FlatSlots(resp.links)
    + [Member("recommendations", resp.recommendations)]
  }

  lemma KeysAppend(a: Fields, b: Fields)
    ensures Keys(a + b) == Keys(a) + Keys(b)
  {
    assert forall i :: 0 <= i < |a + b| ==> Keys(a + b)[i] == (Keys(a) + Keys(b))[i];
  }

  lemma SlotKeys(i: nat, l: Link)
    requires i < |SlotNames|
    ensures Keys(SlotMembers(i, l)) == SlotKeyNames(i)
  {
  }

  /** The slot keys in order: four per slot. */
  lemma {:induction false} FlatSlotKeys(links: seq<Link>)
    requires |links| <= |SlotNames|
    ensures |Keys(FlatSlots(links))| == 4 * |links|
    ensures forall i :: 0 <= i < |links| ==>
      Keys(FlatSlots(links))[4 * i..4 * i + 4]
        == SlotKeyNames(i)
    decreases |links|
  {
    if links != [] {
      var n := |links| - 1;
      FlatSlotKeys(links[..n]);
      KeysAppend(FlatSlots(links[..n]), SlotMembers(n, links[n]));
      SlotKeys(n, links[n]);
      var prev := Keys(FlatSlots(links[..n]));
      var ks := Keys(FlatSlots(links));
      assert ks == prev + SlotKeyNames(n);
      forall i | 0 <= i < |links|
        ensures ks[4 * i..4 * i + 4] == SlotKeyNames(i)
      {
        if i < n {
          SliceOfLeft(prev, SlotKeyNames(n), 4 * i, 4 * i + 4);
          assert prev[4 * i..4 * i + 4] == SlotKeyNames(i);
        } else {
          assert i == n && 4 * i == |prev| && 4 * i + 4 == |prev| + |SlotKeyNames(n)|;
          SliceOfRight(prev, SlotKeyNames(n));
        }
      }
    }
  }

  lemma SliceOfLeft<T>(a: seq<T>, b: seq<T>, lo: nat, hi: nat)
    requires lo <= hi <= |a|
    ensures (a + b)[lo..hi] == a[lo..hi]
  {
  }

  lemma SliceOfRight<T>(a: seq<T>, b: seq<T>)
    ensures (a + b)[|a|..|a| + |b|] == b
  {
  }

  /** The response dict's keys are always the same 25, in insertion order,
      whatever the recommendations: every slot key is present. */
  lemma FlattenKeys(resp: Response)
    requires |resp.links| == SlotCount
    ensures var ks := Keys(Flatten(resp));
      && |ks| == 25
      && ks[..4] == ["status", "messages", "product", "C0Score"]
      && ks[24] == "recommendations"
      && forall i :: 0 <= i < SlotCount ==>
           ks[4 + 4 * i..8 + 4 * i]
             == SlotKeyNames(i)
  {
    var head := [Member("status", resp.status), Member("messages", resp.messages), Member("product", JObj(resp.product)),
                 Member("C0Score", resp.score)];
    var tail := [Member("recommendations", resp.recommendations)];
    KeysAppend(head + FlatSlots(resp.links), tail);
    KeysAppend(head, FlatSlots(resp.links));
    FlatSlotKeys(resp.links);
    var ks := Keys(Flatten(resp));
    var mid := Keys(FlatSlots(resp.links));
    assert ks == Keys(head) + mid + Keys(tail);
    forall i | 0 <= i < SlotCount
      ensures ks[4 + 4 * i..8 + 4 * i]
        == SlotKeyNames(i)
    {
      assert ks[4 + 4 * i..8 + 4 * i] == mid[4 * i..4 * i + 4];
    }
  }

  // ---------------------------------------------------------------------
  // receive_product
  // ---------------------------------------------------------------------

  datatype Reply = Reply(code: nat, body: Fields)

  const NoData: Reply := Reply(400, [Member("error", JStr("No data provided"))])
  const ServerError: Reply := Reply(500, [Member("error", JStr("Internal server error")), Member("status", JStr("error"))])

  const CopiedKeys: seq<string> := ["platform", "url", "image", "name", "price", "rating", "shipper", "seller",
                                    "reviews", "shippingFrom", "fulfilledBy", "availability", "brand"]

  /** `product_data`: the copied keys (`reviews` defaulting to an empty list)
      and `sku`, which falls back on `id` when falsy. */
  function ProductData(d: Fields): (r: Fields)
    ensures |r| == |CopiedKeys| + 1
    ensures forall i :: 0 <= i < |CopiedKeys| ==> r[i].key == CopiedKeys[i]
    ensures r[|CopiedKeys|] == Member("sku", Or(GetOr(d, "sku", JNull), GetOr(d, "id", JNull)))
  {
    seq(|CopiedKeys|, i requires 0 <= i < |CopiedKeys| =>
      Member(CopiedKeys[i], GetOr(d, CopiedKeys[i], if CopiedKeys[i] == "reviews" then JArr([]) else JNull)))
    + [Member("sku", Or(GetOr(d, "sku", JNull), GetOr(d, "id", JNull)))]
  }

  /** `receive_product`: `body` is `request.get_json()` (which may raise),
      `pipeline` is `process_and_store_product`, absent when its import failed.
      Any exception is answered with status 500. */
  function ReceiveProduct(p: Printer, body: Outcome<Json>, pipeline: Option<Json -> Outcome<Json>>): Reply {
    match body
    case Threw(_) => ServerError
    case Returned(data) =>
      if !Truthy(data) then NoData
      else if !data.JObj? then ServerError
      else
        var productData := ProductData(data.members);
        match pipeline
        case None =>
          Reply(200, [Member("message", JStr("Pipeline not available on server. Received product data.")),
                      Member("data", JObj(productData)), Member("status", JStr("ok"))])
        case Some(run) =>
          match run(JObj(productData))
          case Threw(_) => ServerError
          case Returned(result) =>
            match BuildResponse(p, result)
            case Raised => ServerError
            case Ok(resp) => Reply(200, Flatten(resp))
  }

  /** A missing or empty body is answered 400 "No data provided", and only
      such a body. Every reply is 200, 400 or 500, and a 500 reply is the
      generic error body. */
  lemma ReplyCodes(p: Printer, body: Outcome<Json>, pipeline: Option<Json -> Outcome<Json>>)
    ensures var reply := ReceiveProduct(p, body, pipeline);
      && (reply.code == 400 <==> body.Returned? && !Truthy(body.value))
      && (reply.code == 400 ==> reply == NoData)
      && (reply.code == 500 ==> reply == ServerError)
      && reply.code in {200, 400, 500}
  {
  }
}
