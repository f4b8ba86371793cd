/** The profile fact store: a nested JSON-like document and the dotted
    key-path accessor with its "missing value" rule (`isMissingValue`,
    `getProfileValue` in functions/api/chat.ts and services/groqService.ts,
    which are the same code). */
module Profile {
  import opened Wrappers
  import opened JsText

  /** The value type of the profile document. `JUndefined` is the source's
      `undefined`, which its value type admits although parsed JSON never
      holds it; numbers are kept as reals. */
  datatype Json =
    | JUndefined
    | JNull
    | JBool(b: bool)
    | JNumber(n: real)
    | JString(s: string)
    | JArray(items: seq<Json>)
    | JObject(fields: map<string, Json>)

  /** `isMissingValue`: null or undefined, a string that trims to nothing,
      an empty array, or an object without keys. */
  predicate IsMissingValue(v: Json) {
    match v
    case JUndefined => true
    case JNull => true
    case JString(s) => |Trim(s)| == 0
    case JArray(items) => |items| == 0
    case JObject(fields) => |fields| == 0
    case _ => false
  }

  /** A string value is missing exactly when all of it is whitespace. */
  lemma MissingStringIff(s: string)
    ensures IsMissingValue(JString(s)) <==> AllWhitespace(s)
  {
    assert IsMissingValue(JString(s)) <==> Trim(s) == [];
    TrimEmptyIff(s);
  }

  /** The segments of a key path: split on `.`, each trimmed, empty ones dropped. */
  function KeyPathSegments(keyPath: string): (parts: seq<string>)
    ensures forall k :: 0 <= k < |parts| ==> parts[k] != [] && '.' !in parts[k]
  {
    var r := DropEmpty(TrimEach(Split(keyPath, '.')));
    assert forall k :: 0 <= k < |r| ==> '.' !in r[k] by {
      forall k | 0 <= k < |r| ensures '.' !in r[k] {
        var raw := Split(keyPath, '.');
        var j :| 0 <= j < |raw| && r[k] == Trim(raw[j]);
        assert '.' !in raw[j];
        TrimInside(raw[j]);
      }
    }
    r
  }

  /** A dot splits a key path into the segments of either side: empty and
      blank segments vanish and the spacing around a dot is irrelevant. */
  lemma {:induction false} SegmentsOfDotted(a: string, b: string)
    ensures KeyPathSegments(a + "." + b) == KeyPathSegments(a) + KeyPathSegments(b)
  {
    SplitAppend(a, b, '.');
    TrimEachAppend(Split(a, '.'), Split(b, '.'));
    DropEmptyAppend(TrimEach(Split(a, '.')), TrimEach(Split(b, '.')));
  }

  /** A key path without dots is one segment, its trim, unless that is empty. */
  lemma SegmentsOfUndotted(a: string)
    requires '.' !in a
    ensures KeyPathSegments(a) == if Trim(a) == [] then [] else [Trim(a)]
  {
    SplitNoSeparator(a, '.');
    var t := TrimEach([a]);
    assert t == [Trim(a)];
    assert t[1..] == [];
  }

  /** Spaces around the dot of a two-segment path do not matter:
      `" favorite . movie "` names the same fact as `favorite.movie`. */
  lemma SpacedKeyPath(w1: string, w2: string)
    requires w1 != [] && '.' !in w1 && !IsWhitespace(w1[0]) && !IsWhitespace(w1[|w1| - 1])
    requires w2 != [] && '.' !in w2 && !IsWhitespace(w2[0]) && !IsWhitespace(w2[|w2| - 1])
    ensures KeyPathSegments(" " + w1 + " . " + w2 + " ") == KeyPathSegments(w1 + "." + w2) == [w1, w2]
  {
    assert " " + w1 + " . " + w2 + " " == (" " + w1 + " ") + "." + (" " + w2 + " ");
    SegmentsOfDotted(" " + w1 + " ", " " + w2 + " ");
    SegmentsOfDotted(w1, w2);
    PaddedWord(w1);
    PaddedWord(w2);
  }

  /** A dot-free word padded by one space on each side is one segment. */
  lemma PaddedWord(w: string)
    requires w != [] && '.' !in w && !IsWhitespace(w[0]) && !IsWhitespace(w[|w| - 1])
    ensures KeyPathSegments(" " + w + " ") == KeyPathSegments(w) == [w]
  {
    var p := " " + w + " ";
    TrimPadded(w);
    TrimNoOp(w);
    assert '.' !in p;
    SegmentsOfUndotted(p);
    SegmentsOfUndotted(w);
  }

  lemma TrimPadded(w: string)
    requires w != [] && !IsWhitespace(w[0]) && !IsWhitespace(w[|w| - 1])
    ensures Trim(" " + w + " ") == w
  {
    var p := " " + w + " ";
    assert p[1..] == w + " ";
    assert TrimStart(p) == w + " ";
    assert (w + " ")[..|w|] == w;
    assert TrimEnd(w + " ") == w;
  }

  /** Walks the document along the segments; a step succeeds only from an
      object (not an array, not a primitive) that has the segment as a key. */
  function Walk(node: Json, parts: seq<string>): Option<Json>
    decreases |parts|
  {
    if parts == [] then Some(node)
    else if node.JObject? && parts[0] in node.fields then Walk(node.fields[parts[0]], parts[1..])
    else None
  }

  /** Walking a concatenated path is walking the first part, then the rest
      from where it ended. */
  lemma {:induction false} WalkAppend(node: Json, ps: seq<string>, qs: seq<string>)
    ensures Walk(node, ps + qs) == match Walk(node, ps) { case None => None case Some(n) => Walk(n, qs) }
    decreases |ps|
  {
    if ps != [] {
      assert (ps + qs)[0] == ps[0] && (ps + qs)[1..] == ps[1..] + qs;
      if node.JObject? && ps[0] in node.fields {
        WalkAppend(node.fields[ps[0]], ps[1..], qs);
      }
    } else {
      assert ps + qs == qs;
    }
  }

  /** The walk fails the moment it reaches a node that is not an object or
      lacks the next segment, whatever the segments after it are. */
  lemma WalkFailsAt(doc: Json, parts: seq<string>, i: nat, node: Json)
    requires i < |parts| && Walk(doc, parts[..i]) == Some(node)
    requires !node.JObject? || parts[i] !in node.fields
    ensures Walk(doc, parts) == None
  {
    assert parts == parts[..i] + parts[i..];
    WalkAppend(doc, parts[..i], parts[i..]);
  }

  datatype Lookup = NotFound | Found(value: Json)

  /** The outcome of walking the given segments. */
  function ResolveSegments(doc: Json, parts: seq<string>): (r: Lookup)
    ensures r.Found? ==> !IsMissingValue(r.value)
  {
    match Walk(doc, parts)
    case None => NotFound
    case Some(v) => if IsMissingValue(v) then NotFound else Found(v)
  }

  /** What `getProfileValue` returns for a key path. */
  function Resolve(doc: Json, keyPath: string): (r: Lookup)
    ensures r.Found? ==> !IsMissingValue(r.value)
  {
    ResolveSegments(doc, KeyPathSegments(keyPath))
  }

  /** `getProfileValue`: walks the segments, reassigning the current node. */
  method GetProfileValue(doc: Json, keyPath: string) returns (r: Lookup)
    ensures r == Resolve(doc, keyPath)
  {
    var parts := KeyPathSegments(keyPath);
    assert Resolve(doc, keyPath) == ResolveSegments(doc, parts);
    var current := doc;
    for i := 0 to |parts|
      invariant Walk(doc, parts) == Walk(current, parts[i..])
    {
      var part := parts[i];
      if current.JObject? && part in current.fields {
        assert parts[i..][1..] == parts[i + 1..];
        current := current.fields[part];
      } else {
        return NotFound;
      }
    }
    if IsMissingValue(current) {
      return NotFound;
    }
    return Found(current);
  }

  /** A found fact is the value at the end of a successful walk, and not
      missing; a walk that ends on a missing value is reported as not found. */
  lemma ResolveFoundIff(doc: Json, keyPath: string, v: Json)
    ensures Resolve(doc, keyPath) == Found(v) <==> Walk(doc, KeyPathSegments(keyPath)) == Some(v) && !IsMissingValue(v)
  {
  }

  /** `" favorite . movie "` finds what `favorite.movie` finds. */
  lemma ResolveSpacedPath(doc: Json, w1: string, w2: string)
    requires w1 != [] && '.' !in w1 && !IsWhitespace(w1[0]) && !IsWhitespace(w1[|w1| - 1])
    requires w2 != [] && '.' !in w2 && !IsWhitespace(w2[0]) && !IsWhitespace(w2[|w2| - 1])
    ensures Resolve(doc, " " + w1 + " . " + w2 + " ") == Resolve(doc, w1 + "." + w2) == ResolveSegments(doc, [w1, w2])
  {
    SpacedKeyPath(w1, w2);
  }

  /** The lookup reports "not found" as soon as the walk meets a node that is
      not an object, or an object without the next segment. */
  lemma ResolveFailsAt(doc: Json, keyPath: string, i: nat, node: Json)
    requires i < |KeyPathSegments(keyPath)| && Walk(doc, KeyPathSegments(keyPath)[..i]) == Some(node)
    requires !node.JObject? || KeyPathSegments(keyPath)[i] !in node.fields
    ensures Resolve(doc, keyPath) == NotFound
  {
    WalkFailsAt(doc, KeyPathSegments(keyPath), i, node);
  }
}
