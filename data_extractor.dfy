/** `data_extractor.py`: ask the language model to pull field values out of
    a search digest, decode the first brace span of its answer, and fold
    every decoded pair into the record through `update_carbon_data`. */
module DataExtractor {
  import opened Wrappers
  import opened JsonValue
  import BraceSpan
  import CarbonUpdate

  /** The provenance tag of a value read off the web. */
  const WebSource: string := "retrieved from web"

  /** The model call, given what its prompt is built from: the digest, the
      missing fields, the brand and the product name. */
  type ExtractLlm = (string, seq<string>, string, string) -> Outcome<string>

  /** `json.loads`; `None` stands for the decode error. */
  type Decoder = string -> Option<Json>

  /** The two keys callers read: `extracted` and `updated_data`. */
  datatype Extraction = Extraction(extracted: Json, updated: Fields)

  /** `extracted` before the fold: the decoded first brace span, or `{}` when
      nothing matches or decoding fails. */
  function Decoded(decode: Decoder, response: string): Json {
    match BraceSpan.Candidate(response)
    case None => JObj([])
    case Some(t) => decode(t).GetOr(JObj([]))
  }

  /** `for field_path, value in pairs: r = update_carbon_data(r, field_path, value, src)`. */
  function FoldUpdates(r: Fields, pairs: Fields, src: string): Result<Fields>
    decreases |pairs|
  {
    if pairs == [] then Ok(r)
    else
      var before :- FoldUpdates(r, pairs[..|pairs| - 1], src);
      CarbonUpdate.Update(before, pairs[|pairs| - 1].key, pairs[|pairs| - 1].value, src)
  }

  function Unchanged(current: Fields): Extraction {
    Extraction(JObj([]), current)
  }

  /** `extract_data_from_search`. A model call that raises, a truthy decoded
      value that is not a dict (`.items()` raises) and an update that raises
      all land in the `except` branch: nothing extracted, record unchanged. */
  function Extract(llm: ExtractLlm, decode: Decoder, text: string, missing: seq<string>,
                   brand: string, product: string, current: Fields): Extraction
  {
    if missing == [] then Unchanged(current)
    else
      match llm(text, missing, brand, product)
      case Threw(_) => Unchanged(current)
      case Returned(response) =>
        var extracted := Decoded(decode, response);
        if !Truthy(extracted) then Extraction(extracted, current)
        else if !extracted.JObj? then Unchanged(current)
        else
          match FoldUpdates(current, extracted.members, WebSource)
          case Raised => Unchanged(current)
          case Ok(updated) => Extraction(extracted, updated)
  }

  method ExtractDataFromSearch(llm: ExtractLlm, decode: Decoder, text: string, missing: seq<string>,
                               brand: string, product: string, current: Fields)
    returns (e: Extraction)
    ensures e == Extract(llm, decode, text, missing, brand, product, current)
  {
    if missing == [] {
      return Unchanged(current);
    }
    var response;
    match llm(text, missing, brand, product) {
      case Threw(_) => return Unchanged(current);
      case Returned(rsp) => response := rsp;
    }
    var extracted := Decoded(decode, response);
    var updated := current;
    if Truthy(extracted) {
      if !extracted.JObj? {
        return Unchanged(current);
      }
      var pairs := extracted.members;
      var i := 0;
      while i < |pairs|
        invariant 0 <= i <= |pairs|
        invariant FoldUpdates(current, pairs[..i], WebSource) == Ok(updated)
      {
        assert pairs[..i + 1][..i] == pairs[..i];
        var next := CarbonUpdate.UpdateCarbonData(updated, pairs[i].key, pairs[i].value, WebSource);
        if next.Raised? {
          FoldRaisesOnward(current, pairs, i + 1, WebSource);
          return Unchanged(current);
        }
        updated := next.value;
        i := i + 1;
      }
      assert pairs[..i] == pairs;
    }
    e := Extraction(extracted, updated);
  }

  /** An update that raises part-way makes the whole fold raise. */
  lemma {:induction false} FoldRaisesOnward(r: Fields, pairs: Fields, k: nat, src: string)
    requires k <= |pairs| && FoldUpdates(r, pairs[..k], src).Raised?
    ensures FoldUpdates(r, pairs, src).Raised?
    decreases |pairs| - k
  {
    if k < |pairs| {
      assert pairs[..k + 1][..k] == pairs[..k];
      FoldRaisesOnward(r, pairs, k + 1, src);
    } else {
      assert pairs[..k] == pairs;
    }
  }

  // ---------------------------------------------------------------------
  // Properties
  // ---------------------------------------------------------------------

  /** The fold over two lists of pairs is the fold over the first, then the
      fold over the second from where the first left the record. */
  lemma {:induction false} FoldAppend(r: Fields, a: Fields, b: Fields, src: string)
    ensures FoldUpdates(r, a + b, src)
         == match FoldUpdates(r, a, src)
            case Raised => Raised
            case Ok(mid) => FoldUpdates(mid, b, src)
    decreases |b|
  {
    if b == [] {
      assert a + b == a;
    } else {
      var b' := b[..|b| - 1];
      assert (a + b)[..|a + b| - 1] == a + b';
      assert (a + b)[|a + b| - 1] == b[|b| - 1];
      FoldAppend(r, a, b', src);
    }
  }

  /** One decoded pair is one `update_carbon_data` call with the web tag. */
  lemma FoldOne(r: Fields, k: string, v: Json, src: string)
    ensures FoldUpdates(r, [Member(k, v)], src) == CarbonUpdate.Update(r, k, v, src)
  {
    assert [Member(k, v)][..0] == [];
  }

  /** With nothing missing the model is never consulted: any two model
      answers give the same result, the record unchanged and nothing extracted. */
  lemma NothingMissingNoCall(llm1: ExtractLlm, llm2: ExtractLlm, decode: Decoder, text: string,
                             brand: string, product: string, current: Fields)
    ensures Extract(llm1, decode, text, [], brand, product, current)
         == Extract(llm2, decode, text, [], brand, product, current)
         == Extraction(JObj([]), current)
  {
  }

  /** Whenever the record changes, the model answered, its first brace span
      decoded to a non-empty dict, and the new record is the fold of that
      dict's pairs with the web tag. */
  lemma ChangeMeansFold(llm: ExtractLlm, decode: Decoder, text: string, missing: seq<string>,
                        brand: string, product: string, current: Fields)
    requires Extract(llm, decode, text, missing, brand, product, current).updated != current
    ensures missing != [] && llm(text, missing, brand, product).Returned?
    ensures var response := llm(text, missing, brand, product).value;
      var e := Extract(llm, decode, text, missing, brand, product, current);
      && BraceSpan.Candidate(response).Some?
      && decode(BraceSpan.Candidate(response).value) == Some(e.extracted)
      && e.extracted.JObj? && e.extracted.members != []
      && FoldUpdates(current, e.extracted.members, WebSource) == Ok(e.updated)
  {
  }

  /** Fail-soft: a raising model call, a response without a brace span, a
      span that does not decode, a truthy decoded value that is not a dict,
      or an update that raises part-way leave the record as it was and
      extract `{}`. */
  lemma FailSoft(llm: ExtractLlm, decode: Decoder, text: string, missing: seq<string>,
                 brand: string, product: string, current: Fields)
    requires missing != []
    requires || llm(text, missing, brand, product).Threw?
             || BraceSpan.Candidate(llm(text, missing, brand, product).value).None?
             || decode(BraceSpan.Candidate(llm(text, missing, brand, product).value).value).None?
             || (var d := Decoded(decode, llm(text, missing, brand, product).value);
                 Truthy(d) && (!d.JObj? || FoldUpdates(current, d.members, WebSource).Raised?))
    ensures Extract(llm, decode, text, missing, brand, product, current) == Extraction(JObj([]), current)
  {
  }

  /** Decoded keys are not filtered against the missing list: two non-empty
      missing lists that draw the same answer give the same result. */
  lemma KeysNotFiltered(llm: ExtractLlm, decode: Decoder, text: string, m1: seq<string>, m2: seq<string>,
                        brand: string, product: string, current: Fields)
    requires m1 != [] && m2 != []
    requires llm(text, m1, brand, product) == llm(text, m2, brand, product)
    ensures Extract(llm, decode, text, m1, brand, product, current)
         == Extract(llm, decode, text, m2, brand, product, current)
  {
  }
}
