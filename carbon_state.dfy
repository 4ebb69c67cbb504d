/** The carbon-footprint record and its completeness tracker:
    `get_missing_fields`, `update_carbon_data` and `get_carbon_data_status`. */
module CarbonState {
  import opened Wrappers
  import opened JsonValue
  import Text
  import FieldPath

  // ---------------------------------------------------------------------
  // Missing fields
  // ---------------------------------------------------------------------

  const MaterialLeaves: seq<string> := ["name", "weight", "emission_factor"]
  const ManufacturingLeaves: seq<string> := ["value"]
  const TransportLeaves: seq<string> := ["origin", "distance_km", "mode", "emission_factor_ton_km"]
  const PackagingLeaves: seq<string> := ["weight", "emission_factor"]
  const ProductWeightLeaves: seq<string> := ["value"]

  /** The name a material entry is reported under: `materials[i]`. */
  function MaterialPrefix(i: nat): string {
    "materials[" + Text.NatToString(i) + "]"
  }

  /** `prefix.leaf` for every leaf (in order) that `leaf not in x` reports as
      missing; `Raised` when `in` raises on `x`. */
  function LeavesMissing(x: Json, prefix: string, leaves: seq<string>): (r: Result<seq<string>>)
    ensures r.Ok? <==> PyIn("", x).Some?
    ensures r.Ok? ==> |r.value| <= |leaves|
    decreases |leaves|
  {
    if leaves == [] then (if PyIn("", x).Some? then Ok([]) else Raised)
    else
      var rest :- LeavesMissing(x, prefix, leaves[1..]);
      var present := PyIn(leaves[0], x).value;
      Ok((if present then [] else [prefix + "." + leaves[0]]) + rest)
  }

  /** The entries for the material list `elems`, element by element. */
  function MaterialsMissing(elems: seq<Json>): Result<seq<string>>
    decreases |elems|
  {
    if elems == [] then Ok([])
    else
      var init :- MaterialsMissing(elems[..|elems| - 1]);
      var last :- LeavesMissing(elems[|elems| - 1], MaterialPrefix(|elems| - 1), MaterialLeaves);
      Ok(init + last)
  }

  /** An exception on some element is an exception for the whole list. */
  lemma {:induction false} MaterialsRaisedPrefix(elems: seq<Json>, n: nat)
    requires n <= |elems|
    requires MaterialsMissing(elems[..n]).Raised?
    ensures MaterialsMissing(elems).Raised?
    decreases |elems| - n
  {
    if n < |elems| {
      assert elems[..n + 1][..n] == elems[..n];
      MaterialsRaisedPrefix(elems, n + 1);
    } else {
      assert elems[..n] == elems;
    }
  }

  /** Entries for the `materials` section: the single entry `materials` when it
      is absent or falsy, otherwise the per-element entries. */
  function MaterialsPart(r: Fields): Result<seq<string>> {
    var m := Get(r, "materials");
    if m.None? || !Truthy(m.value) then Ok(["materials"])
    else
      match PyIter(m.value)
      case None => Raised
      case Some(elems) => MaterialsMissing(elems)
  }

  /** Entries for a fixed section: its own name when absent, else its absent leaves. */
  function SectionPart(r: Fields, name: string, leaves: seq<string>): Result<seq<string>> {
    if !HasKey(r, name) then Ok([name])
    else LeavesMissing(Get(r, name).value, name, leaves)
  }

  /** `get_missing_fields`: materials, manufacturing_factor, transport,
      packaging and product_weight, in that order. */
  function MissingFields(r: Fields): Result<seq<string>> {
    var m :- MaterialsPart(r);
    var mf :- SectionPart(r, "manufacturing_factor", ManufacturingLeaves);
    var t :- SectionPart(r, "transport", TransportLeaves);
    var p :- SectionPart(r, "packaging", PackagingLeaves);
    var w :- SectionPart(r, "product_weight", ProductWeightLeaves);
    Ok(m + mf + t + p + w)
  }

  /** One `if leaf not in x: missing.append(...)` per leaf. */
  method AppendAbsentLeaves(x: Json, prefix: string, leaves: seq<string>, missing: seq<string>)
    returns (r: Result<seq<string>>)
    ensures r.Ok? <==> LeavesMissing(x, prefix, leaves).Ok?
    ensures r.Ok? ==> r.value == missing + LeavesMissing(x, prefix, leaves).value
  {
    if PyIn("", x).None? {
      return Raised;
    }
    var acc := missing;
    var j := 0;
    while j < |leaves|
      invariant 0 <= j <= |leaves|
      invariant LeavesMissing(x, prefix, leaves[j..]).Ok?
      invariant acc + LeavesMissing(x, prefix, leaves[j..]).value
                == missing + LeavesMissing(x, prefix, leaves).value
    {
      assert leaves[j..][1..] == leaves[j + 1..];
      var tail := LeavesMissing(x, prefix, leaves[j + 1..]).value;
      if !PyIn(leaves[j], x).value {
        Text.AppendAssoc(acc, [prefix + "." + leaves[j]], tail);
        acc := acc + [prefix + "." + leaves[j]];
      } else {
        assert LeavesMissing(x, prefix, leaves[j..]).value == tail;
      }
      j := j + 1;
    }
    assert leaves[j..] == [];
    return Ok(acc);
  }

  /** `get_missing_fields` as the source writes it: a list appended to while
      walking the materials and then the four fixed sections. */
  method GetMissingFields(r: Fields) returns (res: Result<seq<string>>)
    ensures res == MissingFields(r)
  {
    var step := AppendMaterials(r);
    if step.Raised? { return Raised; }
    step := AppendSection(r, "manufacturing_factor", ManufacturingLeaves, step.value);
    if step.Raised? { return Raised; }
    step := AppendSection(r, "transport", TransportLeaves, step.value);
    if step.Raised? { return Raised; }
    step := AppendSection(r, "packaging", PackagingLeaves, step.value);
    if step.Raised? { return Raised; }
    step := AppendSection(r, "product_weight", ProductWeightLeaves, step.value);
    if step.Raised? { return Raised; }
    return step;
  }

  /** The `materials` test, with its loop over the material entries. */
  method AppendMaterials(r: Fields) returns (res: Result<seq<string>>)
    ensures res == MaterialsPart(r)
  {
    var m := Get(r, "materials");
    if m.None? || !Truthy(m.value) {
      return Ok(["materials"]);
    }
    var it := PyIter(m.value);
    if it.None? {
      return Raised;
    }
    var elems := it.value;
    var missing: seq<string> := [];
    var i := 0;
    while i < |elems|
      invariant 0 <= i <= |elems|
      invariant MaterialsMissing(elems[..i]) == Ok(missing)
    {
      assert elems[..i + 1][..i] == elems[..i];
      var step := AppendAbsentLeaves(elems[i], MaterialPrefix(i), MaterialLeaves, missing);
      if step.Raised? {
        MaterialsRaisedPrefix(elems, i + 1);
        return Raised;
      }
      missing := step.value;
      i := i + 1;
    }
    assert elems[..i] == elems;
    return Ok(missing);
  }

  /** `if name not in r: missing.append(name) else: <one test per leaf>`. */
  method AppendSection(r: Fields, name: string, leaves: seq<string>, missing: seq<string>)
    returns (res: Result<seq<string>>)
    ensures res.Ok? <==> SectionPart(r, name, leaves).Ok?
    ensures res.Ok? ==> res.value == missing + SectionPart(r, name, leaves).value
  {
    if !HasKey(r, name) {
      return Ok(missing + [name]);
    }
    res := AppendAbsentLeaves(Get(r, name).value, name, leaves, missing);
  }

  // ---------------------------------------------------------------------
  // What the missing list says
  // ---------------------------------------------------------------------

  /** Every reported leaf entry is `prefix.leaf` for one of the leaves. */
  lemma {:induction false} LeafEntriesHavePrefix(x: Json, prefix: string, leaves: seq<string>)
    requires LeavesMissing(x, prefix, leaves).Ok?
    ensures forall e :: e in LeavesMissing(x, prefix, leaves).value ==>
      exists l :: l in leaves && e == prefix + "." + l
    decreases |leaves|
  {
    if leaves != [] {
      LeafEntriesHavePrefix(x, prefix, leaves[1..]);
    }
  }

  lemma DotAfterPrefix(prefix: string, l: string)
    ensures '.' in prefix + "." + l
  {
    assert (prefix + "." + l)[|prefix|] == '.';
  }

  lemma PrefixCancel(prefix: string, l: string, l': string)
    requires prefix + "." + l == prefix + "." + l'
    ensures l == l'
  {
    assert l == (prefix + "." + l)[|prefix| + 1..];
    assert l' == (prefix + "." + l')[|prefix| + 1..];
  }

  /** On a dict, `prefix.l` is reported exactly for the leaves `l` it lacks. */
  lemma {:induction false} LeavesMissingOfDict(x: Json, prefix: string, leaves: seq<string>)
    requires x.JObj?
    ensures LeavesMissing(x, prefix, leaves).Ok?
    ensures forall l :: l in leaves ==>
      (prefix + "." + l in LeavesMissing(x, prefix, leaves).value <==> !HasKey(x.members, l))
    decreases |leaves|
  {
    if leaves != [] {
      LeavesMissingOfDict(x, prefix, leaves[1..]);
      var rest := LeavesMissing(x, prefix, leaves[1..]).value;
      LeafEntriesHavePrefix(x, prefix, leaves[1..]);
      forall l | l in leaves
        ensures prefix + "." + l in LeavesMissing(x, prefix, leaves).value <==> !HasKey(x.members, l)
      {
        if prefix + "." + l == prefix + "." + leaves[0] {
          PrefixCancel(prefix, l, leaves[0]);
        }
        if l != leaves[0] {
          assert l in leaves[1..];
        } else if prefix + "." + l in rest {
          var l' :| l' in leaves[1..] && prefix + "." + l == prefix + "." + l';
          PrefixCancel(prefix, l, l');
        }
      }
    }
  }

  /** The entry text of material `i`'s leaf is the field path that addresses it. */
  lemma MaterialEntryIsPath(i: nat, l: string)
    requires '.' !in l && '[' !in l
    ensures MaterialPrefix(i) + "." + l == FieldPath.FormatPath([FieldPath.Indexed("materials", i), FieldPath.Key(l)])
    ensures FieldPath.ParsePath(MaterialPrefix(i) + "." + l)
            == Ok(FieldPath.Dotted([FieldPath.Indexed("materials", i), FieldPath.Key(l)]))
  {
    var segs := [FieldPath.Indexed("materials", i), FieldPath.Key(l)];
    var parts := seq(2, k requires 0 <= k < 2 => FieldPath.FormatSegment(segs[k]));
    assert "materials" + "[" == "materials[";
    assert parts[0] == MaterialPrefix(i);
    assert parts == [MaterialPrefix(i), l];
    assert Text.JoinChar(parts, '.') == MaterialPrefix(i) + "." + l;
    FieldPath.PathRoundTrip(segs);
  }

  /** Entries of different materials or different leaves are different strings. */
  lemma MaterialEntriesDistinct(i: nat, l: string, j: nat, l': string)
    requires l in MaterialLeaves && l' in MaterialLeaves
    requires MaterialPrefix(i) + "." + l == MaterialPrefix(j) + "." + l'
    ensures i == j && l == l'
  {
    MaterialLeafPlain(l);
    MaterialLeafPlain(l');
    MaterialEntryIsPath(i, l);
    MaterialEntryIsPath(j, l');
  }

  /** No material leaf holds a path separator. */
  lemma MaterialLeafPlain(l: string)
    requires l in MaterialLeaves
    ensures '.' !in l && '[' !in l
  {
  }

  /** For a list of material dicts, `materials[i].l` is reported exactly when
      element `i` lacks `l`. */
  lemma {:induction false} MaterialsMissingOfDicts(elems: seq<Json>)
    requires forall k :: 0 <= k < |elems| ==> elems[k].JObj?
    ensures MaterialsMissing(elems).Ok?
    ensures forall i, l :: 0 <= i < |elems| && l in MaterialLeaves ==>
      (MaterialPrefix(i) + "." + l in MaterialsMissing(elems).value <==> !HasKey(elems[i].members, l))
    ensures forall e :: e in MaterialsMissing(elems).value ==>
      exists i, l :: 0 <= i < |elems| && l in MaterialLeaves && e == MaterialPrefix(i) + "." + l
    decreases |elems|
  {
    if elems != [] {
      var n := |elems| - 1;
      var init := elems[..n];
      MaterialsMissingOfDicts(init);
      LeavesMissingOfDict(elems[n], MaterialPrefix(n), MaterialLeaves);
      LeafEntriesHavePrefix(elems[n], MaterialPrefix(n), MaterialLeaves);
      var a := MaterialsMissing(init).value;
      var b := LeavesMissing(elems[n], MaterialPrefix(n), MaterialLeaves).value;
      assert MaterialsMissing(elems) == Ok(a + b);
      forall i, l | 0 <= i < |elems| && l in MaterialLeaves
        ensures MaterialPrefix(i) + "." + l in a + b <==> !HasKey(elems[i].members, l)
      {
        var e := MaterialPrefix(i) + "." + l;
        if e in a {
          var i', l' :| 0 <= i' < n && l' in MaterialLeaves && e == MaterialPrefix(i') + "." + l';
          MaterialEntriesDistinct(i, l, i', l');
        }
        if e in b {
          var l' :| l' in MaterialLeaves && e == MaterialPrefix(n) + "." + l';
          MaterialEntriesDistinct(i, l, n, l');
        }
        if i < n {
          assert init[i] == elems[i];
        }
      }
      forall e | e in a + b
        ensures exists i, l :: 0 <= i < |elems| && l in MaterialLeaves && e == MaterialPrefix(i) + "." + l
      {
        if e in b {
          var l' :| l' in MaterialLeaves && e == MaterialPrefix(n) + "." + l';
          assert 0 <= n < |elems|;
        }
      }
    }
  }

  lemma {:induction false} MaterialEntriesHaveDot(elems: seq<Json>)
    requires MaterialsMissing(elems).Ok?
    ensures forall e :: e in MaterialsMissing(elems).value ==> '.' in e
    decreases |elems|
  {
    if elems != [] {
      var n := |elems| - 1;
      MaterialEntriesHaveDot(elems[..n]);
      LeafEntriesHavePrefix(elems[n], MaterialPrefix(n), MaterialLeaves);
      forall l | l in MaterialLeaves { DotAfterPrefix(MaterialPrefix(n), l); }
    }
  }

  lemma SectionEntriesHaveDot(r: Fields, name: string, leaves: seq<string>)
    requires HasKey(r, name) && SectionPart(r, name, leaves).Ok?
    ensures forall e :: e in SectionPart(r, name, leaves).value ==> '.' in e
  {
    LeafEntriesHavePrefix(Get(r, name).value, name, leaves);
    forall l | l in leaves { DotAfterPrefix(name, l); }
  }

  /** A present dict section contributes exactly its absent leaves, an absent
      section exactly its own name. */
  lemma SectionContribution(r: Fields, name: string, leaves: seq<string>)
    ensures !HasKey(r, name) ==> SectionPart(r, name, leaves) == Ok([name])
    ensures HasKey(r, name) && Get(r, name).value.JObj? ==>
      && SectionPart(r, name, leaves).Ok?
      && (forall l :: l in leaves ==>
            (name + "." + l in SectionPart(r, name, leaves).value <==> !HasKey(Get(r, name).value.members, l)))
      && (forall e :: e in SectionPart(r, name, leaves).value ==> exists l :: l in leaves && e == name + "." + l)
  {
    if HasKey(r, name) && Get(r, name).value.JObj? {
      LeavesMissingOfDict(Get(r, name).value, name, leaves);
      LeafEntriesHavePrefix(Get(r, name).value, name, leaves);
    }
  }

  /** The only dot-free entry a section can contribute is its own name. */
  lemma SectionDotFreeEntries(r: Fields, name: string, leaves: seq<string>)
    requires SectionPart(r, name, leaves).Ok?
    ensures forall x :: '.' !in x ==> (x in SectionPart(r, name, leaves).value <==> x == name && !HasKey(r, name))
  {
    if HasKey(r, name) {
      SectionEntriesHaveDot(r, name, leaves);
    }
  }

  lemma MaterialsDotFreeEntries(r: Fields)
    requires MaterialsPart(r).Ok?
    ensures forall x :: '.' !in x ==>
      (x in MaterialsPart(r).value <==> x == "materials" && (!HasKey(r, "materials") || !Truthy(Get(r, "materials").value)))
  {
    var g := Get(r, "materials");
    if !(g.None? || !Truthy(g.value)) {
      MaterialEntriesHaveDot(PyIter(g.value).value);
    }
  }

  /** The dot-free entries of the missing list are exactly the names of the
      absent sections, with `materials` standing for an absent or empty list. */
  lemma SectionNamedIffAbsent(r: Fields)
    requires MissingFields(r).Ok?
    ensures forall x :: '.' !in x ==> (x in MissingFields(r).value <==>
      || (x == "materials" && (!HasKey(r, "materials") || !Truthy(Get(r, "materials").value)))
      || (x == "manufacturing_factor" && !HasKey(r, x))
      || (x == "transport" && !HasKey(r, x))
      || (x == "packaging" && !HasKey(r, x))
      || (x == "product_weight" && !HasKey(r, x)))
  {
    MaterialsDotFreeEntries(r);
    SectionDotFreeEntries(r, "manufacturing_factor", ManufacturingLeaves);
    SectionDotFreeEntries(r, "transport", TransportLeaves);
    SectionDotFreeEntries(r, "packaging", PackagingLeaves);
    SectionDotFreeEntries(r, "product_weight", ProductWeightLeaves);
  }

  /** `materials` holding `k` empty dicts gives `3k` entries. */
  lemma {:induction false} EmptyMaterialsCount(elems: seq<Json>)
    requires forall i :: 0 <= i < |elems| ==> elems[i] == JObj([])
    ensures MaterialsMissing(elems).Ok? && |MaterialsMissing(elems).value| == 3 * |elems|
    decreases |elems|
  {
    if elems != [] {
      EmptyMaterialsCount(elems[..|elems| - 1]);
    }
  }

  // ---------------------------------------------------------------------
  // Status
  // ---------------------------------------------------------------------

  /** The fixed denominator of `get_carbon_data_status`. */
  const TotalFields: int := 20

  /** `round((20 - n) / 20 * 100, 1)`. Every such value is a whole number, so it
      is kept as an integer; it is not clamped. */
  function Completeness(n: nat): (c: int)
    ensures c == 5 * (TotalFields - n)
    ensures c == 100 <==> n == 0
    ensures c < 0 <==> n > TotalFields
  {
    (TotalFields - n) * 100 / TotalFields
  }

  /** `[k for k in r.keys() if k not in ["materials"]]`. */
  function AvailableKeys(r: Fields): (ks: seq<string>)
    ensures forall k :: k in ks <==> HasKey(r, k) && k != "materials"
    ensures |ks| <= |r|
  {
    if r == [] then []
    else (if r[0].key == "materials" then [] else [r[0].key]) + AvailableKeys(r[1..])
  }

  /** The available keys keep the record's order: those of a concatenation
      are those of its first part followed by those of its second. */
  lemma {:induction false} AvailableKeysInOrder(a: Fields, b: Fields)
    ensures AvailableKeys(a + b) == AvailableKeys(a) + AvailableKeys(b)
    ensures forall m :: AvailableKeys([m]) == if m.key == "materials" then [] else [m.key]
    decreases |a|
  {
    if a == [] {
      assert a + b == b;
    } else {
      assert (a + b)[1..] == a[1..] + b;
      AvailableKeysInOrder(a[1..], b);
    }
  }

  datatype Status = Status(available: seq<string>, missing: seq<string>, completeness: int, hasMaterials: bool)

  /** `get_carbon_data_status`. `len(r.get("materials", []))` raises when
      `materials` is present without a length. */
  function CarbonDataStatus(r: Fields): (st: Result<Status>)
    ensures st.Ok? <==> MissingFields(r).Ok? && (HasKey(r, "materials") ==> PyLen(Get(r, "materials").value).Some?)
  {
    var missing :- MissingFields(r);
    var hasMaterials :-
      if !HasKey(r, "materials") then Ok(false)
      else match PyLen(Get(r, "materials").value)
        case None => Raised
        case Some(n) => Ok(n > 0);
    Ok(Status(AvailableKeys(r), missing, Completeness(|missing|), hasMaterials))
  }

  /** Completeness is 100 exactly when nothing is missing, and has_materials
      holds exactly when `materials` is not itself reported missing. */
  lemma StatusMeaning(r: Fields)
    requires CarbonDataStatus(r).Ok?
    ensures CarbonDataStatus(r).value.missing == MissingFields(r).value
    ensures CarbonDataStatus(r).value.completeness == 100 <==> MissingFields(r).value == []
    ensures CarbonDataStatus(r).value.completeness == 5 * (20 - |MissingFields(r).value|)
    ensures CarbonDataStatus(r).value.hasMaterials <==> "materials" !in MissingFields(r).value
    ensures CarbonDataStatus(r).value.hasMaterials <==>
      HasKey(r, "materials") && PyLen(Get(r, "materials").value).value > 0
  {
    SectionNamedIffAbsent(r);
    assert '.' !in "materials";
    if HasKey(r, "materials") {
      TruthyIsNonEmpty(Get(r, "materials").value);
    }
  }

  /** An empty record reports the five sections and counts as 75% complete. */
  lemma EmptyRecordStatus()
    ensures MissingFields([]) == Ok(["materials", "manufacturing_factor", "transport", "packaging", "product_weight"])
    ensures CarbonDataStatus([]).Ok? && CarbonDataStatus([]).value.completeness == 75
  {
    assert MaterialsPart([]) == Ok(["materials"]);
    assert SectionPart([], "manufacturing_factor", ManufacturingLeaves) == Ok(["manufacturing_factor"]);
    assert SectionPart([], "transport", TransportLeaves) == Ok(["transport"]);
    assert SectionPart([], "packaging", PackagingLeaves) == Ok(["packaging"]);
    assert SectionPart([], "product_weight", ProductWeightLeaves) == Ok(["product_weight"]);
    assert MissingFields([]) == Ok(["materials"] + ["manufacturing_factor"] + ["transport"] + ["packaging"] + ["product_weight"]);
    assert ["materials"] + ["manufacturing_factor"] + ["transport"] + ["packaging"] + ["product_weight"]
      == ["materials", "manufacturing_factor", "transport", "packaging", "product_weight"];
  }

  /** The record `{"product_weight": {"value": ...}}` misses the four other
      sections and counts as 80% complete. */
  lemma ProductWeightOnlyStatus(weight: Json)
    ensures
      var r := [Member("product_weight", JObj([Member("value", weight)]))];
      && MissingFields(r) == Ok(["materials", "manufacturing_factor", "transport", "packaging"])
      && CarbonDataStatus(r).Ok? && CarbonDataStatus(r).value.completeness == 80
  {
    var r := [Member("product_weight", JObj([Member("value", weight)]))];
    assert Get(r, "materials") == None;
    assert !HasKey(r, "transport") && !HasKey(r, "packaging") && !HasKey(r, "manufacturing_factor");
    assert Get(r, "product_weight") == Some(JObj([Member("value", weight)]));
    assert HasKey([Member("value", weight)], "value");
    assert MaterialsPart(r) == Ok(["materials"]);
    assert SectionPart(r, "manufacturing_factor", ManufacturingLeaves) == Ok(["manufacturing_factor"]);
    assert SectionPart(r, "transport", TransportLeaves) == Ok(["transport"]);
    assert SectionPart(r, "packaging", PackagingLeaves) == Ok(["packaging"]);
    assert LeavesMissing(JObj([Member("value", weight)]), "product_weight", ProductWeightLeaves) == Ok([]);
    assert SectionPart(r, "product_weight", ProductWeightLeaves) == Ok([]);
    assert MissingFields(r) == Ok(["materials"] + ["manufacturing_factor"] + ["transport"] + ["packaging"] + []);
    assert ["materials"] + ["manufacturing_factor"] + ["transport"] + ["packaging"] + []
      == ["materials", "manufacturing_factor", "transport", "packaging"];
  }

  /** Six or more empty material entries and no sections drive completeness below zero. */
  lemma CompletenessGoesNegative(k: nat)
    requires k >= 6
    ensures
      var r := [Member("materials", JArr(seq(k, i => JObj([]))))];
      && CarbonDataStatus(r).Ok?
      && CarbonDataStatus(r).value.completeness == 5 * (20 - (3 * k + 4))
      && CarbonDataStatus(r).value.completeness < 0
  {
    var elems := seq(k, i => JObj([]));
    var r := [Member("materials", JArr(elems))];
    EmptyMaterialsCount(elems);
    assert Get(r, "materials") == Some(JArr(elems));
    assert !HasKey(r, "transport") && !HasKey(r, "packaging") && !HasKey(r, "manufacturing_factor")
      && !HasKey(r, "product_weight");
    assert |MissingFields(r).value| == 3 * k + 4;
  }
}
