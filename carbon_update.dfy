/** `update_carbon_data`: write a value through a field path into a copy of
    the record. The record is a value, so the deep copy the source makes is
    implicit: the caller's record is never changed. */
module CarbonUpdate {
  import opened Wrappers
  import opened JsonValue
  import Text
  import opened FieldPath

  /** The provenance tag written next to a leaf `k`. */
  function SourceKey(k: string): (sk: string)
    ensures sk != k
  {
    k + "_source"
  }

  /** The list after `while len(items) <= index: items.append({})`. */
  function Pad(items: seq<Json>, index: nat): (r: seq<Json>)
    ensures |r| == if |items| > index then |items| else index + 1
    ensures r[..|items|] == items
    ensures forall j :: |items| <= j < |r| ==> r[j] == JObj([])
  {
    if |items| > index then items else items + seq(index + 1 - |items|, _ => JObj([]))
  }

  /** Where the walk went down: into the value of `key`, or into element
      `index` of the list under `key`. */
  datatype Frame =
    | InKey(fields: Fields, key: string)
    | InItem(fields: Fields, key: string, items: seq<Json>, index: nat)

  /** Put the rewritten child back into the container it was taken from. */
  function Fill(f: Frame, x: Json): (r: Json)
    ensures r.JObj?
  {
    match f
    case InKey(fs, k) => JObj(Set(fs, k, x))
    case InItem(fs, k, items, i) => JObj(Set(fs, k, JArr(if i < |items| then items[i := x] else items)))
  }

  /** Rebuild the record around `x`, innermost frame last. */
  function Plug(ctx: seq<Frame>, x: Json): (r: Json)
    ensures x.JObj? ==> r.JObj?
    decreases |ctx|
  {
    if ctx == [] then x else Plug(ctx[..|ctx| - 1], Fill(ctx[|ctx| - 1], x))
  }

  /** One step of the walk over a non-final part: `key[i]` creates the list if
      absent and pads it; a plain key creates `{}` if absent. Raises when the
      current value is not a dict or the indexed value is not a list. */
  function Descend(cur: Json, seg: Segment): (r: Result<(Frame, Json)>)
    ensures r.Ok? ==> cur.JObj? && r.value.0.fields == cur.members
    ensures r.Ok? && r.value.0.InItem? ==> r.value.0.index < |r.value.0.items|
  {
    if !cur.JObj? then Raised
    else
      match seg
      case Key(k) => Ok((InKey(cur.members, k), GetOr(cur.members, k, JObj([]))))
      case Indexed(k, i) =>
        var list := GetOr(cur.members, k, JArr([]));
        if !list.JArr? then Raised
        else
          var items := Pad(list.items, i);
          Ok((InItem(cur.members, k, items, i), items[i]))
  }

  /** The final part: `key[i]` replaces the (padded) element with the value
      and writes no tag; a plain key is overwritten and gets `<key>_source`
      only if that tag is absent. */
  function WriteLast(cur: Json, seg: Segment, v: Json, src: string): (r: Result<Json>)
    ensures r.Ok? ==> cur.JObj? && r.value.JObj?
  {
    if !cur.JObj? then Raised
    else
      match seg
      case Key(k) => Ok(JObj(SetIfAbsent(Set(cur.members, k, v), SourceKey(k), JStr(src))))
      case Indexed(k, i) =>
        var list := GetOr(cur.members, k, JArr([]));
        if !list.JArr? then Raised
        else Ok(JObj(Set(cur.members, k, JArr(Pad(list.items, i)[i := v]))))
  }

  function WriteSegs(cur: Json, segs: seq<Segment>, v: Json, src: string): (r: Result<Json>)
    requires |segs| > 0
    ensures r.Ok? ==> cur.JObj? && r.value.JObj?
    decreases |segs|
  {
    if |segs| == 1 then WriteLast(cur, segs[0], v, src)
    else
      var (f, child) :- Descend(cur, segs[0]);
      var w :- WriteSegs(child, segs[1..], v, src);
      Ok(Fill(f, w))
  }

  /** The record after `update_carbon_data(r, path, v, src)`; `Raised` for a
      malformed path or a walk through a value that is not a dict or list. */
  function Update(r: Fields, path: string, v: Json, src: string): Result<Fields> {
    match ParsePath(path)
    case Raised => Raised
    case Ok(TopLevel(k)) => Ok(SetIfAbsent(Set(r, k, v), SourceKey(k), JStr(src)))
    case Ok(Dotted(segs)) =>
      if |segs| == 0 then Raised
      else
        var w :- WriteSegs(JObj(r), segs, v, src);
        Ok(w.members)
  }

  /** `while len(items) <= index: items.append({})`. */
  method PadList(items: seq<Json>, index: nat) returns (padded: seq<Json>)
    ensures padded == Pad(items, index)
  {
    padded := items;
    while |padded| <= index
      invariant |items| <= |padded| <= if |items| > index then |items| else index + 1
      invariant padded[..|items|] == items
      invariant forall j :: |items| <= j < |padded| ==> padded[j] == JObj([])
    {
      padded := padded + [JObj([])];
    }
  }

  /** Read the value a path addresses, if every step exists. */
  function Read(cur: Json, segs: seq<Segment>): Option<Json>
    decreases |segs|
  {
    if segs == [] then Some(cur)
    else if !cur.JObj? then None
    else
      match segs[0]
      case Key(k) =>
        (match Get(cur.members, k)
         case None => None
         case Some(c) => Read(c, segs[1..]))
      case Indexed(k, i) =>
        (match Get(cur.members, k)
         case Some(JArr(items)) => if i < |items| then Read(items[i], segs[1..]) else None
         case _ => None)
  }

  function PlugResult(ctx: seq<Frame>, r: Result<Json>): Result<Json> {
    match r
    case Raised => Raised
    case Ok(x) => Ok(Plug(ctx, x))
  }

  /** One step of the walk: `current = current[part]` or
      `current = current[key][index]`, creating and padding on the way. */
  method DescendStep(cur: Json, seg: Segment) returns (r: Result<(Frame, Json)>)
    ensures r == Descend(cur, seg)
  {
    if !cur.JObj? {
      return Raised;
    }
    match seg {
      case Key(k) =>
        if !HasKey(cur.members, k) {
          return Ok((InKey(cur.members, k), JObj([])));
        }
        return Ok((InKey(cur.members, k), Get(cur.members, k).value));
      case Indexed(k, index) =>
        var list := GetOr(cur.members, k, JArr([]));
        if !list.JArr? {
          return Raised;
        }
        var items := PadList(list.items, index);
        return Ok((InItem(cur.members, k, items, index), items[index]));
    }
  }

  /** The write at the last part, with the first-write-wins tag. */
  method WriteLastStep(cur: Json, seg: Segment, v: Json, src: string) returns (r: Result<Json>)
    ensures r == WriteLast(cur, seg, v, src)
  {
    if !cur.JObj? {
      return Raised;
    }
    match seg {
      case Key(k) =>
        var fs := Set(cur.members, k, v);
        if !HasKey(fs, SourceKey(k)) {
          fs := Set(fs, SourceKey(k), JStr(src));
        }
        return Ok(JObj(fs));
      case Indexed(k, index) =>
        var list := GetOr(cur.members, k, JArr([]));
        if !list.JArr? {
          return Raised;
        }
        var items := PadList(list.items, index);
        return Ok(JObj(Set(cur.members, k, JArr(items[index := v]))));
    }
  }

  /** Put the rewritten value back into each enclosing container, innermost first. */
  method Rebuild(ctx: seq<Frame>, x: Json) returns (y: Json)
    ensures y == Plug(ctx, x)
  {
    var frames := ctx;
    y := x;
    while |frames| > 0
      invariant Plug(frames, y) == Plug(ctx, x)
    {
      y := Fill(frames[|frames| - 1], y);
      frames := frames[..|frames| - 1];
    }
  }

  lemma UpdateOfDotted(r: Fields, path: string, v: Json, src: string)
    requires '.' in path
    ensures ParseSegments(Text.Split(path, '.')).Raised? ==> Update(r, path, v, src) == Raised
    ensures ParseSegments(Text.Split(path, '.')).Ok? ==>
      var segs := ParseSegments(Text.Split(path, '.')).value;
      && |segs| >= 2
      && Update(r, path, v, src) == (match WriteSegs(JObj(r), segs, v, src)
                                    case Raised => Raised
                                    case Ok(w) => Ok(w.members))
  {
    Text.SplitAtSeparator(path, '.');
  }

  lemma WalkStep(ctx: seq<Frame>, cur: Json, segs: seq<Segment>, v: Json, src: string)
    requires |segs| >= 2
    ensures Descend(cur, segs[0]).Raised? ==> WriteSegs(cur, segs, v, src) == Raised
    ensures Descend(cur, segs[0]).Ok? ==>
      var (f, child) := Descend(cur, segs[0]).value;
      PlugResult(ctx + [f], WriteSegs(child, segs[1..], v, src)) == PlugResult(ctx, WriteSegs(cur, segs, v, src))
  {
    if Descend(cur, segs[0]).Ok? {
      var (f, child) := Descend(cur, segs[0]).value;
      assert (ctx + [f])[..|ctx|] == ctx;
    }
  }

  lemma WalkEnd(ctx: seq<Frame>, cur: Json, segs: seq<Segment>, v: Json, src: string)
    requires |segs| == 1
    ensures PlugResult(ctx, WriteSegs(cur, segs, v, src)) == PlugResult(ctx, WriteLast(cur, segs[0], v, src))
  {
  }

  /** One part of `parts[:-1]`: parse it and step the cursor down. */
  method WalkPart(parts: seq<string>, i: nat, cur: Json, ctx: seq<Frame>, ghost root: Json, v: Json, src: string)
    returns (res: Result<(seq<Frame>, Json)>)
    requires i < |parts| - 1
    requires ParseSegments(parts).Ok? ==>
      PlugResult(ctx, WriteSegs(cur, ParseSegments(parts).value[i..], v, src)) == WriteSegs(root, ParseSegments(parts).value, v, src)
    ensures res.Raised? && ParseSegments(parts).Ok? ==> WriteSegs(root, ParseSegments(parts).value, v, src) == Raised
    ensures res.Ok? ==> ParseSegment(parts[i]).Ok?
    ensures res.Ok? && ParseSegments(parts).Ok? ==>
      PlugResult(res.value.0, WriteSegs(res.value.1, ParseSegments(parts).value[i + 1..], v, src))
      == WriteSegs(root, ParseSegments(parts).value, v, src)
  {
    var seg := ParseSegment(parts[i]);
    if seg.Raised? {
      return Raised;
    }
    ghost var parsed := ParseSegments(parts);
    if parsed.Ok? {
      assert parsed.value[i..][0] == seg.value && parsed.value[i..][1..] == parsed.value[i + 1..];
      WalkStep(ctx, cur, parsed.value[i..], v, src);
    }
    var step := DescendStep(cur, seg.value);
    if step.Raised? {
      return Raised;
    }
    return Ok((ctx + [step.value.0], step.value.1));
  }

  /** The walk over `parts[:-1]` and the write at `parts[-1]`. */
  method WalkAndWrite(root: Json, parts: seq<string>, v: Json, src: string) returns (res: Result<Json>)
    requires |parts| >= 2
    ensures ParseSegments(parts).Raised? ==> res == Raised
    ensures ParseSegments(parts).Ok? ==> res == WriteSegs(root, ParseSegments(parts).value, v, src)
  {
    ghost var parsed := ParseSegments(parts);
    var cur := root;
    var ctx: seq<Frame> := [];
    var i := 0;
    while i < |parts| - 1
      invariant 0 <= i <= |parts| - 1
      invariant forall k :: 0 <= k < i ==> ParseSegment(parts[k]).Ok?
      invariant parsed.Ok? ==> PlugResult(ctx, WriteSegs(cur, parsed.value[i..], v, src))
                               == WriteSegs(root, parsed.value, v, src)
    {
      var step := WalkPart(parts, i, cur, ctx, root, v, src);
      if step.Raised? {
        return Raised;
      }
      ctx, cur := step.value.0, step.value.1;
      i := i + 1;
    }
    var seg := ParseSegment(parts[i]);
    if seg.Raised? {
      return Raised;
    }
    assert parsed.Ok?;
    assert parsed.value[i..] == [seg.value];
    WalkEnd(ctx, cur, parsed.value[i..], v, src);
    var written := WriteLastStep(cur, seg.value, v, src);
    if written.Raised? {
      return Raised;
    }
    var x := Rebuild(ctx, written.value);
    return Ok(x);
  }

  /** `update_carbon_data` as the source runs it: a path without `.` is a
      top-level key; otherwise split the path, walk a cursor down through the
      copy creating and padding as it goes, write at the last part, and put
      the copy back together. */
  method UpdateCarbonData(r: Fields, path: string, v: Json, src: string) returns (res: Result<Fields>)
    ensures res == Update(r, path, v, src)
  {
    if '.' !in path {
      var updated := Set(r, path, v);
      if !HasKey(updated, SourceKey(path)) {
        updated := Set(updated, SourceKey(path), JStr(src));
      }
      return Ok(updated);
    }
    var parts := Text.Split(path, '.');
    Text.SplitAtSeparator(path, '.');
    UpdateOfDotted(r, path, v, src);
    var w := WalkAndWrite(JObj(r), parts, v, src);
    if w.Raised? {
      return Raised;
    }
    return Ok(w.value.members);
  }

  // ---------------------------------------------------------------------
  // What a write does
  // ---------------------------------------------------------------------

  function SegKey(seg: Segment): string {
    match seg
    case Key(k) => k
    case Indexed(k, _) => k
  }

  /** Reading through the container a step went down gives what was put there. */
  lemma FillRead(cur: Json, seg: Segment, rest: seq<Segment>, x: Json)
    requires Descend(cur, seg).Ok?
    ensures Read(Fill(Descend(cur, seg).value.0, x), [seg] + rest) == Read(x, rest)
  {
    assert ([seg] + rest)[1..] == rest;
  }

  /** Below the first step, the old record reads as the cursor does. */
  lemma DescendRead(cur: Json, seg: Segment, rest: seq<Segment>)
    requires Descend(cur, seg).Ok? && |rest| > 0
    ensures Read(cur, [seg] + rest) == Read(Descend(cur, seg).value.1, rest)
  {
    assert ([seg] + rest)[1..] == rest;
    assert ([seg] + rest)[0] == seg;
  }

  /** A write through two or more parts is a step down, a write below it,
      and the step back up. */
  lemma WriteSegsStep(cur: Json, segs: seq<Segment>, v: Json, src: string)
    requires |segs| >= 2 && WriteSegs(cur, segs, v, src).Ok?
    ensures Descend(cur, segs[0]).Ok?
    ensures WriteSegs(Descend(cur, segs[0]).value.1, segs[1..], v, src).Ok?
    ensures WriteSegs(cur, segs, v, src).value
         == Fill(Descend(cur, segs[0]).value.0, WriteSegs(Descend(cur, segs[0]).value.1, segs[1..], v, src).value)
  {
  }

  /** The value written is what the path then reads. */
  lemma {:induction false} WriteReadsBack(cur: Json, segs: seq<Segment>, v: Json, src: string)
    requires |segs| > 0 && WriteSegs(cur, segs, v, src).Ok?
    ensures Read(WriteSegs(cur, segs, v, src).value, segs) == Some(v)
    decreases |segs|
  {
    if |segs| == 1 {
      var w := WriteSegs(cur, segs, v, src).value;
      assert segs == [segs[0]] + [];
      FillRead(JObj(cur.members), segs[0], [], v);
      match segs[0] {
        case Key(k) =>
          assert Get(w.members, k) == Some(v);
        case Indexed(k, i) =>
          var items := Pad(GetOr(cur.members, k, JArr([])).items, i);
          assert Get(w.members, k) == Some(JArr(items[i := v]));
      }
    } else {
      var (f, child) := Descend(cur, segs[0]).value;
      WriteReadsBack(child, segs[1..], v, src);
      assert [segs[0]] + segs[1..] == segs;
      FillRead(cur, segs[0], segs[1..], WriteSegs(child, segs[1..], v, src).value);
    }
  }

  /** The path of the provenance tag that sits next to the final key. */
  function TagPath(segs: seq<Segment>): (t: seq<Segment>)
    requires |segs| > 0 && segs[|segs| - 1].Key?
    ensures |t| == |segs|
  {
    segs[..|segs| - 1] + [Key(SourceKey(segs[|segs| - 1].name))]
  }

  lemma TagFirstWriteWinsLast(cur: Json, k: string, v: Json, src: string)
    requires WriteLast(cur, Key(k), v, src).Ok?
    ensures Read(WriteLast(cur, Key(k), v, src).value, [Key(SourceKey(k))])
         == if Read(cur, [Key(SourceKey(k))]).Some? then Read(cur, [Key(SourceKey(k))]) else Some(JStr(src))
  {
    var fs := Set(cur.members, k, v);
    var w := JObj(SetIfAbsent(fs, SourceKey(k), JStr(src)));
    assert Get(fs, SourceKey(k)) == Get(cur.members, SourceKey(k));
    assert [Key(SourceKey(k))][1..] == [];
  }

  /** First write wins: after a write through a path ending in a plain key,
      the tag beside it keeps its old value if it had one, and is the given
      source otherwise. */
  lemma {:induction false} SourceTagFirstWriteWins(cur: Json, segs: seq<Segment>, v: Json, src: string)
    requires |segs| > 0 && segs[|segs| - 1].Key? && WriteSegs(cur, segs, v, src).Ok?
    ensures Read(WriteSegs(cur, segs, v, src).value, TagPath(segs))
         == if Read(cur, TagPath(segs)).Some? then Read(cur, TagPath(segs)) else Some(JStr(src))
    decreases |segs|
  {
    if |segs| == 1 {
      assert segs[0].Key?;
      TagFirstWriteWinsLast(cur, segs[0].name, v, src);
      assert TagPath(segs) == [Key(SourceKey(segs[0].name))];
    } else {
      WriteSegsStep(cur, segs, v, src);
      var rest := segs[1..];
      LastOfTail(segs);
      var child := Descend(cur, segs[0]).value.1;
      SourceTagFirstWriteWins(child, rest, v, src);
      TagStep(cur, segs, v, src);
    }
  }

  /** Dropping the first part keeps the last one. */
  lemma LastOfTail(segs: seq<Segment>)
    requires |segs| >= 2
    ensures |segs[1..]| > 0 && segs[1..][|segs[1..]| - 1] == segs[|segs| - 1]
  {
  }

  /** The step of the induction above: the tag is read through the first
      part on both sides. */
  lemma TagStep(cur: Json, segs: seq<Segment>, v: Json, src: string)
    requires |segs| > 1 && segs[|segs| - 1].Key? && WriteSegs(cur, segs, v, src).Ok?
    requires Descend(cur, segs[0]).Ok?
    requires
      var child := Descend(cur, segs[0]).value.1;
      var rest := segs[1..];
      && WriteSegs(child, rest, v, src).Ok?
      && Read(WriteSegs(child, rest, v, src).value, TagPath(rest))
         == if Read(child, TagPath(rest)).Some? then Read(child, TagPath(rest)) else Some(JStr(src))
    ensures Read(WriteSegs(cur, segs, v, src).value, TagPath(segs))
         == if Read(cur, TagPath(segs)).Some? then Read(cur, TagPath(segs)) else Some(JStr(src))
  {
    var d := Descend(cur, segs[0]).value;
    var rest := segs[1..];
    var inner := WriteSegs(d.1, rest, v, src).value;
    var tp := TagPath(rest);
    assert Read(WriteSegs(cur, segs, v, src).value, TagPath(segs)) == Read(inner, tp) by {
      WriteSegsStep(cur, segs, v, src);
      assert TagPath(segs) == [segs[0]] + tp;
      FillRead(cur, segs[0], tp, inner);
    }
    assert Read(cur, TagPath(segs)) == Read(d.1, tp) by {
      assert TagPath(segs) == [segs[0]] + tp;
      DescendRead(cur, segs[0], tp);
    }
  }

  /** Writing the same dotted path twice: the value is the second one, the tag
      is the one the first write left. */
  lemma SecondWriteKeepsSource(r: Fields, path: string, segs: seq<Segment>, v1: Json, a: string, v2: Json, b: string)
    requires ParsePath(path) == Ok(Dotted(segs)) && |segs| > 0 && segs[|segs| - 1].Key?
    requires Update(r, path, v1, a).Ok?
    requires Update(Update(r, path, v1, a).value, path, v2, b).Ok?
    ensures
      var r1 := Update(r, path, v1, a).value;
      var r2 := Update(r1, path, v2, b).value;
      && Read(JObj(r2), segs) == Some(v2)
      && Read(JObj(r2), TagPath(segs)) == Read(JObj(r1), TagPath(segs))
      && Read(JObj(r1), TagPath(segs)) == if Read(JObj(r), TagPath(segs)).Some? then Read(JObj(r), TagPath(segs)) else Some(JStr(a))
  {
    var r1 := Update(r, path, v1, a).value;
    var w1 := WriteSegs(JObj(r), segs, v1, a).value;
    assert JObj(r1) == w1;
    var w2 := WriteSegs(JObj(r1), segs, v2, b).value;
    assert JObj(Update(r1, path, v2, b).value) == w2;
    WriteReadsBack(JObj(r1), segs, v2, b);
    SourceTagFirstWriteWins(JObj(r), segs, v1, a);
    SourceTagFirstWriteWins(JObj(r1), segs, v2, b);
  }

  /** A path without `.` writes the literal top-level key (brackets and all)
      and its tag, first write winning, and changes no other key. */
  lemma TopLevelWrite(r: Fields, path: string, v: Json, src: string)
    requires '.' !in path
    ensures Update(r, path, v, src).Ok?
    ensures Get(Update(r, path, v, src).value, path) == Some(v)
    ensures Get(Update(r, path, v, src).value, SourceKey(path))
         == if HasKey(r, SourceKey(path)) then Get(r, SourceKey(path)) else Some(JStr(src))
    ensures forall k :: k != path && k != SourceKey(path) ==> Get(Update(r, path, v, src).value, k) == Get(r, k)
  {
  }

  /** A dotted write changes no top-level key other than its first part's. */
  lemma DottedWriteFrame(r: Fields, path: string, segs: seq<Segment>, v: Json, src: string)
    requires ParsePath(path) == Ok(Dotted(segs)) && |segs| >= 2
    requires Update(r, path, v, src).Ok?
    ensures forall k :: k != SegKey(segs[0]) ==> Get(Update(r, path, v, src).value, k) == Get(r, k)
  {
    var (f, child) := Descend(JObj(r), segs[0]).value;
    var w := WriteSegs(child, segs[1..], v, src).value;
    assert Update(r, path, v, src).value == Fill(f, w).members;
  }

  /** An indexed part creates the list if absent and pads it with `{}` until
      it is long enough; elements other than the addressed one keep their
      values; when the indexed part is last, no tag is written. */
  lemma IndexedWriteShape(cur: Json, segs: seq<Segment>, v: Json, src: string)
    requires |segs| > 0 && segs[0].Indexed? && WriteSegs(cur, segs, v, src).Ok?
    ensures
      var k, i := segs[0].key, segs[0].index;
      var before := GetOr(cur.members, k, JArr([])).items;
      var w := WriteSegs(cur, segs, v, src).value;
      && Get(w.members, k).Some? && Get(w.members, k).value.JArr?
      && var now := Get(w.members, k).value.items;
      && |now| == (if |before| > i then |before| else i + 1)
      && (forall j :: 0 <= j < |now| && j != i ==> now[j] == if j < |before| then before[j] else JObj([]))
      && (|segs| == 1 ==> now[i] == v && forall x :: HasKey(w.members, x) <==> HasKey(cur.members, x) || x == k)
  {
    var k, i := segs[0].key, segs[0].index;
    var items := Pad(GetOr(cur.members, k, JArr([])).items, i);
    var w := WriteSegs(cur, segs, v, src).value;
    if |segs| == 1 {
      assert w == JObj(Set(cur.members, k, JArr(items[i := v])));
      forall x ensures HasKey(w.members, x) <==> HasKey(cur.members, x) || x == k {
        if x != k {
          assert Get(w.members, x) == Get(cur.members, x);
        }
      }
    } else {
      var (f, child) := Descend(cur, segs[0]).value;
      assert f == InItem(cur.members, k, items, i);
    }
  }

  /** `p` follows `segs` for a while and then leaves it inside the container
      the write passes through: at a key other than the one the write takes
      (and other than the tag a final plain key gets), or at an element of
      the same list other than the addressed one that the list already had. */
  predicate Leaves(cur: Json, segs: seq<Segment>, p: seq<Segment>)
    decreases |segs|
  {
    && |segs| > 0 && |p| > 0 && cur.JObj?
    && (|| (&& SegKey(p[0]) != SegKey(segs[0])
            && (|segs| == 1 && segs[0].Key? ==> SegKey(p[0]) != SourceKey(segs[0].name)))
        || (&& p[0].Indexed? && segs[0].Indexed? && p[0].key == segs[0].key
            && p[0].index != segs[0].index
            && match Get(cur.members, p[0].key)
               case Some(JArr(items)) => p[0].index < |items|
               case _ => false)
        || (&& |segs| >= 2 && p[0] == segs[0] && Descend(cur, segs[0]).Ok?
            && Leaves(Descend(cur, segs[0]).value.1, segs[1..], p[1..])))
  }

  /** Two containers that agree on the entry `p` takes first agree on `p`. */
  lemma ReadSameEntry(a: Json, b: Json, p: seq<Segment>)
    requires |p| > 0 && a.JObj? && b.JObj?
    requires Get(a.members, SegKey(p[0])) == Get(b.members, SegKey(p[0]))
    ensures Read(a, p) == Read(b, p)
  {
  }

  /** Two containers whose lists under `k` agree at element `j` agree on a
      path through `k[j]`. */
  lemma ReadSameElement(a: Json, b: Json, p: seq<Segment>, before: seq<Json>, after: seq<Json>)
    requires |p| > 0 && p[0].Indexed? && a.JObj? && b.JObj?
    requires Get(a.members, p[0].key) == Some(JArr(after)) && Get(b.members, p[0].key) == Some(JArr(before))
    requires p[0].index < |before| && p[0].index < |after| && after[p[0].index] == before[p[0].index]
    ensures Read(a, p) == Read(b, p)
  {
  }

  /** The last part of a write keeps everything the path leaves. */
  lemma LastKeepsLeaving(cur: Json, seg: Segment, p: seq<Segment>, v: Json, src: string)
    requires WriteLast(cur, seg, v, src).Ok? && Leaves(cur, [seg], p)
    ensures Read(WriteLast(cur, seg, v, src).value, p) == Read(cur, p)
  {
    var w := WriteLast(cur, seg, v, src).value;
    if SegKey(p[0]) != SegKey(seg) && (seg.Key? ==> SegKey(p[0]) != SourceKey(seg.name)) {
      ReadSameEntry(w, cur, p);
    } else {
      var k, i, j := seg.key, seg.index, p[0].index;
      var before := Get(cur.members, k).value.items;
      var after := Pad(before, i)[i := v];
      assert Get(w.members, k) == Some(JArr(after));
      ReadSameElement(w, cur, p, before, after);
    }
  }

  /** A step back up keeps everything the path leaves at this level. */
  lemma FillKeepsLeaving(cur: Json, seg: Segment, p: seq<Segment>, x: Json)
    requires Descend(cur, seg).Ok? && |p| > 0
    requires SegKey(p[0]) != SegKey(seg)
          || (&& p[0].Indexed? && seg.Indexed? && p[0].key == seg.key && p[0].index != seg.index
              && match Get(cur.members, p[0].key)
                 case Some(JArr(items)) => p[0].index < |items|
                 case _ => false)
    ensures Read(Fill(Descend(cur, seg).value.0, x), p) == Read(cur, p)
  {
    var w := Fill(Descend(cur, seg).value.0, x);
    if SegKey(p[0]) != SegKey(seg) {
      ReadSameEntry(w, cur, p);
    } else {
      var k, i := seg.key, seg.index;
      var before := Get(cur.members, k).value.items;
      var after := Pad(before, i)[i := x];
      assert Get(w.members, k) == Some(JArr(after));
      ReadSameElement(w, cur, p, before, after);
    }
  }

  /** Nothing but the written path changes: a path that leaves it, at any
      depth, at another key or at another element the list already had,
      reads the same before and after the write. */
  lemma {:induction false} WriteKeepsLeaving(cur: Json, segs: seq<Segment>, p: seq<Segment>, v: Json, src: string)
    requires |segs| > 0 && WriteSegs(cur, segs, v, src).Ok? && Leaves(cur, segs, p)
    ensures Read(WriteSegs(cur, segs, v, src).value, p) == Read(cur, p)
    decreases |segs|
  {
    if |segs| == 1 {
      LastKeepsLeaving(cur, segs[0], p, v, src);
    } else {
      WriteSegsStep(cur, segs, v, src);
      var (f, child) := Descend(cur, segs[0]).value;
      var inner := WriteSegs(child, segs[1..], v, src).value;
      if p[0] == segs[0] && Leaves(child, segs[1..], p[1..]) {
        WriteKeepsLeaving(child, segs[1..], p[1..], v, src);
        assert [segs[0]] + p[1..] == p;
        FillRead(cur, segs[0], p[1..], inner);
        DescendRead(cur, segs[0], p[1..]);
      } else {
        FillKeepsLeaving(cur, segs[0], p, inner);
      }
    }
  }

  /** Writing `materials[0].weight` keeps `materials[0].name`; writing
      `transport.distance` keeps `transport.mode`: a sibling of the final key
      that is not its tag is unchanged. */
  lemma {:induction false} SiblingKept(cur: Json, segs: seq<Segment>, x: string, v: Json, src: string)
    requires |segs| > 0 && segs[|segs| - 1].Key? && WriteSegs(cur, segs, v, src).Ok?
    requires x != segs[|segs| - 1].name && x != SourceKey(segs[|segs| - 1].name)
    ensures Read(WriteSegs(cur, segs, v, src).value, segs[..|segs| - 1] + [Key(x)])
         == Read(cur, segs[..|segs| - 1] + [Key(x)])
  {
    SiblingLeaves(cur, segs, x, v, src);
    WriteKeepsLeaving(cur, segs, segs[..|segs| - 1] + [Key(x)], v, src);
  }

  /** The sibling path of the lemma above leaves the written one. */
  lemma {:induction false} SiblingLeaves(cur: Json, segs: seq<Segment>, x: string, v: Json, src: string)
    requires |segs| > 0 && segs[|segs| - 1].Key? && WriteSegs(cur, segs, v, src).Ok?
    requires x != segs[|segs| - 1].name && x != SourceKey(segs[|segs| - 1].name)
    ensures Leaves(cur, segs, segs[..|segs| - 1] + [Key(x)])
    decreases |segs|
  {
    if |segs| == 1 {
      LeavesAtLast(cur, segs[0], x);
    } else {
      WriteSegsStep(cur, segs, v, src);
      var child := Descend(cur, segs[0]).value.1;
      var rest := segs[1..];
      LastOfTail(segs);
      SiblingLeaves(child, rest, x, v, src);
      LeavesBelow(cur, segs, segs[..|segs| - 1] + [Key(x)], rest[..|rest| - 1] + [Key(x)]);
    }
  }

  /** A sibling of a final plain key leaves the write. */
  lemma LeavesAtLast(cur: Json, seg: Segment, x: string)
    requires cur.JObj? && seg.Key? && x != seg.name && x != SourceKey(seg.name)
    ensures Leaves(cur, [seg], [] + [Key(x)])
  {
    assert ([] + [Key(x)])[0] == Key(x);
  }

  /** A path that takes the write's first step and leaves it below, leaves it. */
  lemma LeavesBelow(cur: Json, segs: seq<Segment>, p: seq<Segment>, q: seq<Segment>)
    requires |segs| >= 2 && |p| > 0 && p[0] == segs[0] && p[1..] == q && Descend(cur, segs[0]).Ok?
    requires Leaves(Descend(cur, segs[0]).value.1, segs[1..], q)
    ensures Leaves(cur, segs, p)
  {
  }

  /** `materials[2].name` written into an empty record. */
  lemma PaddingExample(x: Json, src: string)
    ensures Update([], "materials[2].name", x, src)
         == Ok([Member("materials", JArr([JObj([]), JObj([]),
                                          JObj([Member("name", x), Member("name_source", JStr(src))])]))])
  {
    ExamplePathParses();
    ExampleWrite(x, src);
  }

  lemma ExamplePathParses()
    ensures ParsePath("materials[2].name") == Ok(Dotted([Indexed("materials", 2), Key("name")]))
  {
    var segs := [Indexed("materials", 2), Key("name")];
    assert Text.NatToString(2) == "2";
    assert FormatSegment(segs[0]) == "materials[2]";
    var parts := seq(2, k requires 0 <= k < 2 => FormatSegment(segs[k]));
    assert parts == ["materials[2]", "name"];
    assert Text.JoinChar(["name"], '.') == "name";
    assert FormatPath(segs) == "materials[2]" + ['.'] + "name";
    assert "materials[2]" + ['.'] + "name" == "materials[2].name";
    PathRoundTrip(segs);
  }

  lemma ExampleWrite(x: Json, src: string)
    ensures WriteSegs(JObj([]), [Indexed("materials", 2), Key("name")], x, src)
         == Ok(JObj([Member("materials", JArr([JObj([]), JObj([]),
                                               JObj([Member("name", x), Member("name_source", JStr(src))])]))]))
  {
    var segs := [Indexed("materials", 2), Key("name")];
    var padded := [JObj([]), JObj([]), JObj([])];
    assert Pad([], 2) == padded;
    assert Descend(JObj([]), segs[0]) == Ok((InItem([], "materials", padded, 2), JObj([])));
    assert SourceKey("name") == "name_source";
    var leaf := JObj([Member("name", x), Member("name_source", JStr(src))]);
    assert Set([Member("name", x)], "name_source", JStr(src)) == leaf.members;
    assert WriteLast(JObj([]), Key("name"), x, src) == Ok(leaf);
    assert segs[1..] == [Key("name")];
    assert WriteSegs(JObj([]), segs[1..], x, src) == Ok(leaf);
    var list := JArr([JObj([]), JObj([]), leaf]);
    assert padded[2 := leaf] == list.items;
    assert Fill(InItem([], "materials", padded, 2), leaf) == JObj([Member("materials", list)]);
  }

  /** A path without `.` is a literal key even when it holds brackets. */
  lemma LiteralBracketKeyExample(v: Json, src: string)
    ensures Update([], "materials[0]", v, src)
         == Ok([Member("materials[0]", v), Member("materials[0]_source", JStr(src))])
  {
    var k := "materials[0]";
    assert '.' !in k;
    assert SourceKey(k) == "materials[0]_source";
    var fs := Set([], k, v);
    assert fs == [Member(k, v)];
    assert !HasKey(fs, SourceKey(k));
    assert Set(fs[1..], SourceKey(k), JStr(src)) == [Member(SourceKey(k), JStr(src))];
    assert SetIfAbsent(fs, SourceKey(k), JStr(src)) == [Member(k, v), Member(SourceKey(k), JStr(src))];
  }
}
