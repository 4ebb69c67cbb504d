/** Field paths as `update_carbon_data` reads them: a path without `.` is a
    top-level key taken literally; otherwise the path is split on `.` and each
    part is a plain key or `key[index]`. */
module FieldPath {
  import opened Wrappers
  import Text

  datatype Segment = Key(name: string) | Indexed(key: string, index: nat)

  datatype Path =
    | TopLevel(key: string)
    | Dotted(segs: seq<Segment>)

  /** A part is indexed when it contains both `[` and `]`. It must then split
      on `[` into exactly two pieces, and the second piece, stripped of trailing
      `]`, must be a decimal index; anything else raises `ValueError`. */
  function ParseSegment(part: string): (r: Result<Segment>)
    ensures ('[' !in part || ']' !in part) ==> r == Ok(Key(part))
    ensures r.Ok? && r.value.Indexed? ==> '[' in part && ']' in part && '[' !in r.value.key
  {
    if '[' in part && ']' in part then
      var pieces := Text.Split(part, '[');
      if |pieces| != 2 then Raised
      else
        Text.SplitPiecesAvoidSeparator(part, '[');
        match Text.ParseNat(Text.RStrip(pieces[1], ']'))
        case None => Raised
        case Some(i) => Ok(Indexed(pieces[0], i))
    else Ok(Key(part))
  }

  function ParseSegments(parts: seq<string>): (r: Result<seq<Segment>>)
    ensures r.Ok? ==> |r.value| == |parts|
    ensures r.Ok? <==> forall k :: 0 <= k < |parts| ==> ParseSegment(parts[k]).Ok?
    ensures r.Ok? ==> forall k :: 0 <= k < |parts| ==> r.value[k] == ParseSegment(parts[k]).value
    decreases |parts|
  {
    if parts == [] then Ok([])
    else
      var head :- ParseSegment(parts[0]);
      var tail :- ParseSegments(parts[1..]);
      Ok([head] + tail)
  }

  function ParsePath(p: string): (r: Result<Path>)
    ensures '.' !in p ==> r == Ok(TopLevel(p))
    ensures '.' in p && r.Ok? ==> r.value.Dotted? && |r.value.segs| >= 2
  {
    if '.' !in p then Ok(TopLevel(p))
    else
      var parts := Text.Split(p, '.');
      assert |parts| >= 2 by {
        if |parts| == 1 {
          Text.JoinSplit(p, '.');
          Text.SplitPiecesAvoidSeparator(p, '.');
        }
      }
      var segs :- ParseSegments(parts);
      Ok(Dotted(segs))
  }

  /** The text of a segment, as the engine's own messages write it (`materials[2]`). */
  function FormatSegment(seg: Segment): string {
    match seg
    case Key(k) => k
    case Indexed(k, i) => k + "[" + Text.NatToString(i) + "]"
  }

  function FormatPath(segs: seq<Segment>): string
    requires |segs| > 0
  {
    Text.JoinChar(seq(|segs|, k requires 0 <= k < |segs| => FormatSegment(segs[k])), '.')
  }

  /** Segments that survive formatting and parsing: no `.` anywhere; a plain
      key holding not both brackets; an indexed key without `[`. */
  predicate Printable(seg: Segment) {
    match seg
    case Key(k) => '.' !in k && ('[' !in k || ']' !in k)
    case Indexed(k, _) => '.' !in k && '[' !in k
  }

  lemma RStripDigits(d: string)
    requires |d| > 0 && Text.AllDigits(d)
    ensures Text.RStrip(d + "]", ']') == d
  {
    assert (d + "]")[..|d|] == d;
  }

  lemma SegmentRoundTrip(seg: Segment)
    requires Printable(seg)
    ensures ParseSegment(FormatSegment(seg)) == Ok(seg)
  {
    if seg.Indexed? {
      var k, i := seg.key, seg.index;
      var d := Text.NatToString(i);
      var part := k + "[" + d + "]";
      assert part[|k|] == '[' && part[|part| - 1] == ']';
      assert '[' !in d + "]" by {
        forall j | 0 <= j < |d + "]"| ensures (d + "]")[j] != '[' {
          if j < |d| { assert Text.IsDigit(d[j]); }
        }
      }
      Text.SplitAtFirst(k, '[', d + "]");
      assert k + ['['] + (d + "]") == part;
      Text.SplitNoSeparator(d + "]", '[');
      assert Text.Split(part, '[') == [k, d + "]"];
      RStripDigits(d);
      Text.ParseNatRoundTrip(i);
    }
  }

  /** Every path of two or more printable segments is parsed back into them. */
  lemma PathRoundTrip(segs: seq<Segment>)
    requires |segs| >= 2
    requires forall k :: 0 <= k < |segs| ==> Printable(segs[k])
    ensures ParsePath(FormatPath(segs)) == Ok(Dotted(segs))
  {
    var parts := seq(|segs|, k requires 0 <= k < |segs| => FormatSegment(segs[k]));
    forall k | 0 <= k < |parts| ensures '.' !in parts[k] {
      var seg := segs[k];
      if seg.Indexed? {
        var d := Text.NatToString(seg.index);
        assert parts[k] == seg.key + "[" + d + "]";
        forall j | 0 <= j < |d| ensures d[j] != '.' { assert Text.IsDigit(d[j]); }
      }
    }
    Text.SplitJoin(parts, '.');
    var p := FormatPath(segs);
    assert '.' in p by {
      assert p == parts[0] + ['.'] + Text.JoinChar(parts[1..], '.');
      assert p[|parts[0]|] == '.';
    }
    forall k | 0 <= k < |segs| ensures ParseSegment(parts[k]) == Ok(segs[k]) {
      SegmentRoundTrip(segs[k]);
    }
    var r := ParseSegments(parts);
    assert r.Ok?;
    assert r.value == segs;
  }
}
