/** JSON-like values as the engine's Python code sees them. An object is an
    ordered list of members: Python dicts keep insertion order, assigning to
    an existing key keeps its position, assigning a new key appends it. */
module JsonValue {
  import opened Wrappers
  import Text

  datatype Json =
    | JNull
    | JBool(b: bool)
    | JNum(n: int)
    | JStr(s: string)
    | JArr(items: seq<Json>)
    | JObj(members: seq<Member>)

  datatype Member = Member(key: string, value: Json)

  /** The members of a dict, in insertion order. */
  type Fields = seq<Member>

  function Keys(fs: Fields): (ks: seq<string>)
    ensures |ks| == |fs|
    ensures forall i :: 0 <= i < |fs| ==> ks[i] == fs[i].key
  {
    if fs == [] then [] else [fs[0].key] + Keys(fs[1..])
  }

  predicate HasKey(fs: Fields, k: string) {
    k in Keys(fs)
  }

  /** `d.get(k)`: the value under the first member with key `k`. */
  function Get(fs: Fields, k: string): (r: Option<Json>)
    ensures r.Some? <==> HasKey(fs, k)
  {
    if fs == [] then None
    else if fs[0].key == k then Some(fs[0].value)
    else Get(fs[1..], k)
  }

  /** `d.get(k, default)`. */
  function GetOr(fs: Fields, k: string, default: Json): Json {
    Get(fs, k).GetOr(default)
  }

  /** `d[k] = v`: replaces the value in place when `k` is present, appends otherwise. */
  function Set(fs: Fields, k: string, v: Json): (r: Fields)
    ensures Get(r, k) == Some(v)
    ensures forall k' :: k' != k ==> Get(r, k') == Get(fs, k')
  {
    if fs == [] then [Member(k, v)]
    else if fs[0].key == k then [Member(k, v)] + fs[1..]
    else [fs[0]] + Set(fs[1..], k, v)
  }

  /** Assignment keeps the key order and appends a new key at the end. */
  lemma {:induction false} SetKeys(fs: Fields, k: string, v: Json)
    ensures Keys(Set(fs, k, v)) == if HasKey(fs, k) then Keys(fs) else Keys(fs) + [k]
  {
    if fs != [] {
      assert [fs[0]] + fs[1..] == fs;
      if fs[0].key == k {
        KeysCons(fs[0], fs[1..]);
        KeysCons(Member(k, v), fs[1..]);
      } else {
        SetKeys(fs[1..], k, v);
        KeysStep(fs[0], fs[1..], Set(fs[1..], k, v), k);
      }
    }
  }

  /** The step of the induction above, past a member with another key. */
  lemma KeysStep(m: Member, fs: Fields, rest: Fields, k: string)
    requires m.key != k
    requires Keys(rest) == if HasKey(fs, k) then Keys(fs) else Keys(fs) + [k]
    ensures Keys([m] + rest) == if HasKey([m] + fs, k) then Keys([m] + fs) else Keys([m] + fs) + [k]
  {
    KeysCons(m, fs);
    KeysCons(m, rest);
    if !HasKey(fs, k) {
      assert [m.key] + (Keys(fs) + [k]) == [m.key] + Keys(fs) + [k];
    }
  }

  lemma KeysCons(m: Member, fs: Fields)
    ensures Keys([m] + fs) == [m.key] + Keys(fs)
  {
    assert ([m] + fs)[1..] == fs;
  }

  /** `if k not in d: d[k] = v`. */
  function SetIfAbsent(fs: Fields, k: string, v: Json): (r: Fields)
    ensures Get(r, k) == if HasKey(fs, k) then Get(fs, k) else Some(v)
    ensures forall k' :: k' != k ==> Get(r, k') == Get(fs, k')
  {
    if HasKey(fs, k) then fs else Set(fs, k, v)
  }

  predicate DistinctKeys(fs: Fields) {
    forall i, j :: 0 <= i < j < |fs| ==> fs[i].key != fs[j].key
  }

  /** Assignment keeps a dict's keys distinct. */
  lemma SetKeepsKeysDistinct(fs: Fields, k: string, v: Json)
    requires DistinctKeys(fs)
    ensures DistinctKeys(Set(fs, k, v))
  {
    var r := Set(fs, k, v);
    SetKeys(fs, k, v);
    forall i, j | 0 <= i < j < |r| ensures r[i].key != r[j].key {
      assert Keys(r)[i] == r[i].key && Keys(r)[j] == r[j].key;
      if !HasKey(fs, k) && j == |fs| {
        assert Keys(fs)[i] == fs[i].key;
      }
    }
  }

  /** Python truthiness of a JSON value (`0`, `""`, `[]`, `{}`, `False`, `None` are false). */
  predicate Truthy(j: Json) {
    match j
    case JNull => false
    case JBool(b) => b
    case JNum(n) => n != 0
    case JStr(s) => |s| > 0
    case JArr(items) => |items| > 0
    case JObj(ms) => |ms| > 0
  }

  /** Python's `k in x` for a string `k`: key test on a dict, element test on a
      list, substring test on a string; `None` is the `TypeError` raised for
      numbers, booleans and `None`. */
  function PyIn(k: string, x: Json): (r: Option<bool>)
    ensures r.Some? <==> (x.JObj? || x.JArr? || x.JStr?)
    ensures x.JObj? ==> r == Some(HasKey(x.members, k))
  {
    match x
    case JObj(ms) => Some(HasKey(ms, k))
    case JArr(items) => Some(JStr(k) in items)
    case JStr(s) => Some(Text.IsSubstring(k, s))
    case _ => None
  }

  /** The elements `for e in x` visits: list items, the one-character strings
      of a string, the keys of a dict; `None` is the `TypeError` for the rest. */
  function PyIter(x: Json): (r: Option<seq<Json>>)
    ensures x.JArr? ==> r == Some(x.items)
    ensures r.Some? <==> (x.JObj? || x.JArr? || x.JStr?)
  {
    match x
    case JArr(items) => Some(items)
    case JStr(s) => Some(CharStrings(s))
    case JObj(ms) => Some(KeyStrings(ms))
    case _ => None
  }

  /** The keys of a dict as strings, in order. */
  function KeyStrings(ms: Fields): (r: seq<Json>)
    ensures |r| == |ms|
    ensures forall i :: 0 <= i < |ms| ==> r[i] == JStr(ms[i].key)
  {
    seq(|ms|, i requires 0 <= i < |ms| => JStr(ms[i].key))
  }

  /** The one-character strings of `s`, in order. */
  function CharStrings(s: string): (r: seq<Json>)
    ensures |r| == |s|
    ensures forall i :: 0 <= i < |s| ==> r[i] == JStr([s[i]])
  {
    seq(|s|, i requires 0 <= i < |s| => JStr([s[i]]))
  }

  /** Python's `len(x)`; `None` is the `TypeError` for values without a length. */
  function PyLen(x: Json): (r: Option<nat>)
    ensures r.Some? <==> (x.JObj? || x.JArr? || x.JStr?)
  {
    match x
    case JArr(items) => Some(|items|)
    case JStr(s) => Some(|s|)
    case JObj(ms) => Some(|ms|)
    case _ => None
  }

  lemma TruthyIsNonEmpty(x: Json)
    requires PyLen(x).Some?
    ensures Truthy(x) <==> PyLen(x).value > 0
  {
  }
}
