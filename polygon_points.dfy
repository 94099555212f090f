/** The `points` attribute of the map's polygons: `coordsToPoints` in
    `src/components/InteractiveMap/index.tsx` turns a flat coordinate list
    into `"x1,y1 x2,y2 ..."`. Number-to-string conversion is a parameter. */
module PolygonPoints {

  /** Token `k` of `coordsToPoints`: `${coords[2k]},${coords[2k + 1]}`, where a
      missing second coordinate prints as `undefined`. `fmt` is JavaScript's
      number-to-string conversion. */
  function PointToken(coords: seq<real>, k: nat, fmt: real -> string): string
    requires 2 * k < |coords|
  {
    fmt(coords[2 * k]) + "," + (if 2 * k + 1 < |coords| then fmt(coords[2 * k + 1]) else "undefined")
  }

  /** The tokens `coordsToPoints` collects, one per pair of coordinates, in
      order. For an even-length list there are `|coords| / 2` of them and
      token `k` is `coords[2k],coords[2k+1]`. */
  function PointTokens(coords: seq<real>, fmt: real -> string): (tokens: seq<string>)
    ensures |tokens| == (|coords| + 1) / 2
    ensures forall k :: 0 <= k < |tokens| ==> 2 * k < |coords| && tokens[k] == PointToken(coords, k, fmt)
    ensures |coords| % 2 == 0 ==>
      (|tokens| == |coords| / 2 &&
       forall k :: 0 <= k < |tokens| ==> tokens[k] == fmt(coords[2 * k]) + "," + fmt(coords[2 * k + 1]))
  {
    seq((|coords| + 1) / 2, k requires 0 <= k < (|coords| + 1) / 2 => PointToken(coords, k, fmt))
  }

  /** `Array.prototype.join(" ")`. */
  function JoinWithSpace(parts: seq<string>): string
  {
    if |parts| == 0 then ""
    else if |parts| == 1 then parts[0]
    else parts[0] + " " + JoinWithSpace(parts[1..])
  }

  /** No space character occurs in `s`. */
  predicate SpaceFree(s: string)
  {
    ' ' !in s
  }

  /** Index of the first space in `s`. */
  function FirstSpace(s: string): (i: nat)
    requires ' ' in s
    ensures i < |s| && s[i] == ' ' && ' ' !in s[..i]
  {
    if s[0] == ' ' then 0 else 1 + FirstSpace(s[1..])
  }

  /** A space with none before it is the first space. */
  lemma {:induction false} FirstSpaceAt(s: string, j: nat)
    requires j < |s| && s[j] == ' ' && ' ' !in s[..j]
    ensures ' ' in s && FirstSpace(s) == j
  {
    assert s[j] in s;
    if j > 0 {
      assert s[0] == s[..j][0];
      assert s[1..][..j - 1] == s[1..j];
      assert forall c :: c in s[1..j] ==> c in s[..j];
      FirstSpaceAt(s[1..], j - 1);
    }
  }

  /** Splitting at every space, the inverse of `JoinWithSpace`. */
  function SplitOnSpace(s: string): (parts: seq<string>)
    ensures |parts| >= 1
    decreases |s|
  {
    if ' ' !in s then [s]
    else
      var i := FirstSpace(s);
      [s[..i]] + SplitOnSpace(s[i + 1..])
  }

  /** Joining space-free parts with single spaces can be undone by splitting. */
  lemma {:induction false} SplitJoin(parts: seq<string>)
    requires |parts| >= 1
    requires forall p :: p in parts ==> SpaceFree(p)
    ensures SplitOnSpace(JoinWithSpace(parts)) == parts
    decreases |parts|
  {
    if |parts| > 1 {
      var rest := JoinWithSpace(parts[1..]);
      var s := parts[0] + " " + rest;
      var i := |parts[0]|;
      assert SpaceFree(parts[0]);
      assert s[..i] == parts[0];
      FirstSpaceAt(s, i);
      assert ' ' in s;
      assert s[i + 1..] == rest;
      assert forall p :: p in parts[1..] ==> p in parts;
      SplitJoin(parts[1..]);
    } else {
      assert parts[0] in parts;
    }
  }

  /** Helper: a token holds no space when number formatting produces none. */
  lemma TokenHasNoSpace(coords: seq<real>, k: nat, fmt: real -> string)
    requires 2 * k < |coords|
    requires forall v :: SpaceFree(fmt(v))
    ensures SpaceFree(PointToken(coords, k, fmt))
  {
    var first := fmt(coords[2 * k]);
    var second := if 2 * k + 1 < |coords| then fmt(coords[2 * k + 1]) else "undefined";
    FormattedSpaceFree(coords[2 * k], fmt);
    if 2 * k + 1 < |coords| {
      FormattedSpaceFree(coords[2 * k + 1], fmt);
    }
    assert SpaceFree("undefined");
    NoSpaceConcat(first, ",");
    NoSpaceConcat(first + ",", second);
  }

  /** Helper: one formatted number holds no space. */
  lemma FormattedSpaceFree(x: real, fmt: real -> string)
    requires forall v :: SpaceFree(fmt(v))
    ensures SpaceFree(fmt(x))
  {
  }

  /** Helper: concatenating space-free strings gives a space-free string. */
  lemma NoSpaceConcat(a: string, b: string)
    requires SpaceFree(a) && SpaceFree(b)
    ensures SpaceFree(a + b)
  {
  }

  /** The `points` attribute names every vertex pair once: splitting it at
      spaces gives back exactly the tokens, as long as number formatting
      produces no spaces. */
  lemma PointsRoundTrip(coords: seq<real>, fmt: real -> string)
    requires |coords| >= 1
    requires forall v :: SpaceFree(fmt(v))
    ensures SplitOnSpace(JoinWithSpace(PointTokens(coords, fmt))) == PointTokens(coords, fmt)
  {
    var tokens := PointTokens(coords, fmt);
    forall p | p in tokens
      ensures SpaceFree(p)
    {
      var k :| 0 <= k < |tokens| && tokens[k] == p;
      TokenHasNoSpace(coords, k, fmt);
    }
    SplitJoin(tokens);
  }

  /** `coordsToPoints`: walks the list two numbers at a time, collecting one
      token per pair, and joins the tokens with single spaces. */
  method CoordsToPoints(coords: seq<real>, fmt: real -> string) returns (points: string)
    ensures points == JoinWithSpace(PointTokens(coords, fmt))
  {
    var parts: seq<string> := [];
    var i := 0;
    while i < |coords|
      invariant 0 <= i <= |coords| + 1 && i % 2 == 0
      invariant |parts| == i / 2
      invariant forall k :: 0 <= k < |parts| ==> 2 * k < |coords| && parts[k] == PointToken(coords, k, fmt)
    {
      var second := if i + 1 < |coords| then fmt(coords[i + 1]) else "undefined";
      parts := parts + [fmt(coords[i]) + "," + second];
      i := i + 2;
    }
    assert parts == PointTokens(coords, fmt);
    points := JoinWithSpace(parts);
  }
}
