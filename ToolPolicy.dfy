/** Validation of the model's `get_profile_info` tool calls and assembly of
    the tool results (the `toolCalls.map(...)` block of functions/api/chat.ts
    and services/groqService.ts, identical but for the allow-list, which is a
    parameter here). The policy is all-or-nothing. */
module ToolPolicy {
  import opened Wrappers
  import opened JsText
  import opened Profile
  import opened Upstream

  const ProfileToolName: string := "get_profile_info"

  /** `JSON.parse(arguments || "{}")`, where a parse failure gives `{}`;
      `parse` stands for `JSON.parse` (`None` is a SyntaxError). */
  function ParseArguments(arguments: string, parse: string -> Option<Json>): Json {
    match parse(if arguments == [] then "{}" else arguments)
    case None => JObject(map[])
    case Some(v) => v
  }

  /** `.filter((value) => typeof value === "string")`: the strings among
      the items, every one of them and nothing else. */
  function StringItems(items: seq<Json>): (r: seq<string>)
    ensures |r| <= |items|
    ensures forall s :: s in r <==> JString(s) in items
  {
    if items == [] then []
    else
      var rest := StringItems(items[1..]);
      var head := if items[0].JString? then [items[0].s] else [];
      assert forall s :: s in head <==> JString(s) == items[0];
      assert items == [items[0]] + items[1..];
      assert forall x :: x in items <==> x == items[0] || x in items[1..];
      head + rest
  }

  /** The filter keeps the order: filtering a concatenation filters each part. */
  lemma {:induction false} StringItemsAppend(xs: seq<Json>, ys: seq<Json>)
    ensures StringItems(xs + ys) == StringItems(xs) + StringItems(ys)
  {
    if xs == [] {
      assert xs + ys == ys;
    } else {
      assert (xs + ys)[0] == xs[0] && (xs + ys)[1..] == xs[1..] + ys;
      StringItemsAppend(xs[1..], ys);
    }
  }

  /** The TypeError messages for `null` and `undefined` arguments, kept in
      parts so that proofs can look at each part on its own. */
  const ReadPropertiesPrefix: string := "Cannot read properties of "
  const ReadKeyPathSuffix: string := " (reading 'key_path')"
  const NullArgumentsMessage: string := ReadPropertiesPrefix + "null" + ReadKeyPathSuffix
  const UndefinedArgumentsMessage: string := ReadPropertiesPrefix + "undefined" + ReadKeyPathSuffix

  /** The TypeError thrown when reading `key_path` of null or undefined arguments. */
  function ReadPropertyError(args: Json): ErrorValue {
    if args.JNull? then Error(NullArgumentsMessage)
    else Error(UndefinedArgumentsMessage)
  }

  /** One of the two TypeErrors reading the arguments can throw. */
  predicate IsArgumentsError(e: ErrorValue) {
    e == Error(NullArgumentsMessage) || e == Error(UndefinedArgumentsMessage)
  }

  /** The key paths a call asks for: `key_path` when it is a string, then the
      string items of `key_paths` when it is an array, trimmed, empty ones
      dropped. `None` when reading them throws (arguments `null`). */
  function RequestedKeyPaths(args: Json): (r: Option<seq<string>>)
    ensures r.None? <==> args.JNull? || args.JUndefined?
    ensures r.Some? ==> forall k :: 0 <= k < |r.value| ==> r.value[k] != []
  {
    match args
    case JNull => None
    case JUndefined => None
    case JObject(m) =>
      var single := if "key_path" in m && m["key_path"].JString? then [m["key_path"].s] else [];
      var many := if "key_paths" in m && m["key_paths"].JArray? then StringItems(m["key_paths"].items) else [];
      Some(DropEmpty(TrimEach(single + many)))
    case _ => Some([])
  }

  /** A call with object arguments asks for `p` when `p` is not blank and is
      the trim of `key_path`, when that is a string, or of a string item of
      `key_paths`, when that is an array. */
  ghost predicate AsksFor(fields: map<string, Json>, p: string) {
    p != [] &&
    (("key_path" in fields && fields["key_path"].JString? && Trim(fields["key_path"].s) == p) ||
     ("key_paths" in fields && fields["key_paths"].JArray? &&
      exists j :: 0 <= j < |fields["key_paths"].items| &&
        fields["key_paths"].items[j].JString? && Trim(fields["key_paths"].items[j].s) == p))
  }

  /** A path is among the trimmed, non-blank strings exactly when it is
      the non-empty trim of one of them. */
  lemma TrimmedMember(xs: seq<string>, p: string)
    ensures p in DropEmpty(TrimEach(xs)) <==> p != [] && exists i :: 0 <= i < |xs| && Trim(xs[i]) == p
  {
    var t := TrimEach(xs);
    if p in DropEmpty(t) {
      var i :| 0 <= i < |t| && t[i] == p;
    }
    if p != [] && exists i :: 0 <= i < |xs| && Trim(xs[i]) == p {
      var i :| 0 <= i < |xs| && Trim(xs[i]) == p;
      assert t[i] == p;
    }
  }

  /** The trims of the string items are the trims of the items that are strings. */
  lemma StringItemsTrims(items: seq<Json>, p: string)
    ensures (exists i :: 0 <= i < |StringItems(items)| && Trim(StringItems(items)[i]) == p) <==>
      exists j :: 0 <= j < |items| && items[j].JString? && Trim(items[j].s) == p
  {
    var r := StringItems(items);
    if exists i :: 0 <= i < |r| && Trim(r[i]) == p {
      var i :| 0 <= i < |r| && Trim(r[i]) == p;
      assert r[i] in r;
      var j :| 0 <= j < |items| && items[j] == JString(r[i]);
      assert items[j].JString? && Trim(items[j].s) == p;
    }
    if exists j :: 0 <= j < |items| && items[j].JString? && Trim(items[j].s) == p {
      var j :| 0 <= j < |items| && items[j].JString? && Trim(items[j].s) == p;
      assert items[j] == JString(items[j].s) && items[j] in items;
      assert items[j].s in r;
      var i :| 0 <= i < |r| && r[i] == items[j].s;
      assert Trim(StringItems(items)[i]) == p;
    }
  }

  /** A path comes from `key_path` and the items of `key_paths` exactly
      when it comes from one of the two. */
  lemma ConcatTrims(single: seq<string>, many: seq<string>, p: string)
    ensures (exists i :: 0 <= i < |single + many| && Trim((single + many)[i]) == p) <==>
      (exists i :: 0 <= i < |single| && Trim(single[i]) == p) || (exists i :: 0 <= i < |many| && Trim(many[i]) == p)
  {
    var xs := single + many;
    if exists i :: 0 <= i < |xs| && Trim(xs[i]) == p {
      var i :| 0 <= i < |xs| && Trim(xs[i]) == p;
      if i < |single| {
        assert xs[i] == single[i];
      } else {
        assert xs[i] == many[i - |single|];
      }
    }
    if exists i :: 0 <= i < |single| && Trim(single[i]) == p {
      var i :| 0 <= i < |single| && Trim(single[i]) == p;
      assert xs[i] == single[i];
    }
    if exists i :: 0 <= i < |many| && Trim(many[i]) == p {
      var i :| 0 <= i < |many| && Trim(many[i]) == p;
      assert xs[|single| + i] == many[i];
    }
  }

  /** The paths read from object arguments are exactly those it asks for;
      arguments of any other kind that do not throw ask for nothing. */
  lemma RequestedKeyPathsIff(args: Json, p: string)
    ensures args.JObject? ==> (p in RequestedKeyPaths(args).value <==> AsksFor(args.fields, p))
    ensures !args.JObject? && !args.JNull? && !args.JUndefined? ==> RequestedKeyPaths(args) == Some([])
  {
    if args.JObject? {
      var m := args.fields;
      var single := if "key_path" in m && m["key_path"].JString? then [m["key_path"].s] else [];
      var many := if "key_paths" in m && m["key_paths"].JArray? then StringItems(m["key_paths"].items) else [];
      assert RequestedKeyPaths(args) == Some(DropEmpty(TrimEach(single + many)));
      TrimmedMember(single + many, p);
      ConcatTrims(single, many, p);
      if "key_paths" in m && m["key_paths"].JArray? {
        StringItemsTrims(m["key_paths"].items, p);
      }
    }
  }

  /** `keyPaths.filter((value) => allowList.has(value))`. */
  function AllowedPaths(paths: seq<string>, allowed: set<string>): (r: seq<string>)
    ensures |r| <= |paths|
    ensures forall k :: 0 <= k < |r| ==> r[k] in allowed && r[k] in paths
  {
    if paths == [] then []
    else (if paths[0] in allowed then [paths[0]] else []) + AllowedPaths(paths[1..], allowed)
  }

  /** The filter keeps every path exactly when every path is allowed, and
      then it changes nothing. */
  lemma {:induction false} AllowedPathsAll(paths: seq<string>, allowed: set<string>)
    ensures |AllowedPaths(paths, allowed)| == |paths| <==> forall k :: 0 <= k < |paths| ==> paths[k] in allowed
    ensures (forall k :: 0 <= k < |paths| ==> paths[k] in allowed) ==> AllowedPaths(paths, allowed) == paths
  {
    if paths != [] {
      AllowedPathsAll(paths[1..], allowed);
      if paths[0] in allowed {
        assert forall k :: 1 <= k < |paths| ==> paths[k] == paths[1..][k - 1];
      }
    }
  }

  predicate Distinct(xs: seq<string>) {
    forall i, j :: 0 <= i < j < |xs| ==> xs[i] != xs[j]
  }

  /** `Array.from(new Set(xs))`: each element once, in first-occurrence order. */
  function Dedup(xs: seq<string>): (r: seq<string>)
    ensures forall x :: x in r <==> x in xs
    ensures Distinct(r)
  {
    if xs == [] then []
    else
      var r := Dedup(xs[..|xs| - 1]);
      var x := xs[|xs| - 1];
      assert forall y :: y in xs <==> y in xs[..|xs| - 1] || y == x by {
        assert xs == xs[..|xs| - 1] + [x];
      }
      if x in r then r else r + [x]
  }

  /** Position of the first occurrence of `x`. */
  function FirstIndex(xs: seq<string>, x: string): (i: nat)
    requires x in xs
    ensures i < |xs| && xs[i] == x && x !in xs[..i]
  {
    if xs[0] == x then
      assert xs[..0] == [];
      0
    else
      var i := FirstIndex(xs[1..], x);
      assert xs[..i + 1] == [xs[0]] + xs[1..][..i];
      i + 1
  }

  lemma FirstIndexInPrefix(p: seq<string>, q: seq<string>, x: string)
    requires x in p
    ensures FirstIndex(p + q, x) == FirstIndex(p, x)
  {
    var i, j := FirstIndex(p + q, x), FirstIndex(p, x);
    assert (p + q)[..j] == p[..j];
    assert (p + q)[j] == x;
  }

  /** The deduplicated paths keep the order of their first occurrences. */
  lemma {:induction false} DedupFirstOccurrenceOrder(xs: seq<string>)
    ensures forall i, j :: 0 <= i < j < |Dedup(xs)| ==> FirstIndex(xs, Dedup(xs)[i]) < FirstIndex(xs, Dedup(xs)[j])
  {
    if xs != [] {
      var p := xs[..|xs| - 1];
      var x := xs[|xs| - 1];
      assert xs == p + [x];
      DedupFirstOccurrenceOrder(p);
      var rp := Dedup(p);
      var r := Dedup(xs);
      assert r == if x in rp then rp else rp + [x];
      forall i, j | 0 <= i < j < |r| ensures FirstIndex(xs, r[i]) < FirstIndex(xs, r[j]) {
        assert i < |rp| && r[i] == rp[i] && rp[i] in p;
        FirstIndexInPrefix(p, [x], r[i]);
        if j < |rp| {
          assert r[j] == rp[j] && rp[j] in p;
          FirstIndexInPrefix(p, [x], r[j]);
        } else {
          assert r[j] == x && x !in p;
          assert FirstIndex(xs, x) == |p|;
        }
      }
    }
  }

  /** The lookup of each path, in order. */
  function ResolveAll(doc: Json, paths: seq<string>): (r: seq<ResultEntry>)
    ensures |r| == |paths|
  {
    if paths == [] then []
    else ResolveAll(doc, paths[..|paths| - 1]) + [ResultEntry(paths[|paths| - 1], Resolve(doc, paths[|paths| - 1]))]
  }

  /** Entry `k` holds path `k` and its lookup. */
  lemma {:induction false} ResolveAllAt(doc: Json, paths: seq<string>, k: nat)
    requires k < |paths|
    ensures ResolveAll(doc, paths)[k] == ResultEntry(paths[k], Resolve(doc, paths[k]))
  {
    if k < |paths| - 1 {
      ResolveAllAt(doc, paths[..|paths| - 1], k);
    }
  }

  /** `results.length > 0 && results.every((result) => result.found)`. */
  predicate FoundAll(results: seq<ResultEntry>) {
    |results| > 0 && forall k :: 0 <= k < |results| ==> results[k].lookup.Found?
  }

  /** `uniqueKeyPaths.map(getProfileValue)`, one lookup after another. */
  method ResolvePaths(doc: Json, paths: seq<string>) returns (results: seq<ResultEntry>)
    ensures results == ResolveAll(doc, paths)
  {
    results := [];
    for i := 0 to |paths|
      invariant results == ResolveAll(doc, paths[..i])
    {
      assert paths[..i + 1][..i] == paths[..i];
      var lookup := GetProfileValue(doc, paths[i]);
      results := results + [ResultEntry(paths[i], lookup)];
    }
    assert paths[..|paths|] == paths;
  }

  /** What the map callback makes of one call: `null` for a wrong tool name,
      a thrown TypeError, or the call's result with its `found` flag and
      whether all its requested paths were allowed. */
  datatype CallCheck =
    | WrongTool
    | ArgumentsThrow(error: ErrorValue)
    | Checked(allAllowed: bool, found: bool, message: ChatMessage)

  /** The result of a call that asked for `paths`: whether every path was
      allowed, whether every lookup of the distinct allowed paths was found,
      and the tool message carrying those lookups. */
  function CheckPaths(id: string, paths: seq<string>, allowed: set<string>, doc: Json): CallCheck {
    var valid := AllowedPaths(paths, allowed);
    var results := ResolveAll(doc, Dedup(valid));
    Checked(|valid| == |paths|, FoundAll(results), ToolMessage(id, ProfileToolName, results))
  }

  function CheckCall(call: ToolCall, allowed: set<string>, doc: Json, parse: string -> Option<Json>): CallCheck {
    if call.name != Some(ProfileToolName) then WrongTool
    else
      var args := ParseArguments(call.arguments, parse);
      match RequestedKeyPaths(args)
      case None => ArgumentsThrow(ReadPropertyError(args))
      case Some(paths) => CheckPaths(call.id, paths, allowed, doc)
  }

  /** What the callback makes of each call, in order. */
  function Checks(calls: seq<ToolCall>, allowed: set<string>, doc: Json, parse: string -> Option<Json>): (r: seq<CallCheck>)
    ensures |r| == |calls|
    ensures forall k :: 0 <= k < |calls| ==> r[k] == CheckCall(calls[k], allowed, doc, parse)
  {
    seq(|calls|, k requires 0 <= k < |calls| => CheckCall(calls[k], allowed, doc, parse))
  }

  /** An entry of `toolResults`: the call's `found` flag and its tool message. */
  datatype Evaluated = Evaluated(found: bool, message: ChatMessage)

  /** The state of the map after some calls: the two flags and the results
      so far, or the error that ended it. */
  datatype Scan =
    | Scanning(invalidToolCall: bool, invalidKeyPath: bool, toolResults: seq<Evaluated>)
    | Aborted(error: ErrorValue)

  /** One step of the map: the effect of one call's check on the flags and
      on `toolResults`; a thrown error ends the map. */
  function Step(scan: Scan, check: CallCheck): Scan {
    match scan
    case Aborted(e) => Aborted(e)
    case Scanning(badTool, badPath, results) =>
      match check
      case WrongTool => Scanning(true, badPath, results)
      case ArgumentsThrow(e) => Aborted(e)
      case Checked(allAllowed, found, message) =>
        Scanning(badTool, badPath || !allAllowed, results + [Evaluated(found, message)])
  }

  function ScanChecks(checks: seq<CallCheck>): Scan {
    if checks == [] then Scanning(false, false, [])
    else Step(ScanChecks(checks[..|checks| - 1]), checks[|checks| - 1])
  }

  /** Where the tool calls lead: a thrown error, the fixed missing-information
      answer, or the tool messages for the follow-up request. */
  datatype ToolOutcome = ToolError(error: ErrorValue) | MissingInfo | Resolved(toolMessages: seq<ChatMessage>)

  /** The checks after the map: any flag set, or no result, or a result not
      found gives the missing-information answer. */
  function Decide(scan: Scan): ToolOutcome {
    match scan
    case Aborted(e) => ToolError(e)
    case Scanning(badTool, badPath, results) =>
      if badTool || badPath || |results| == 0 then MissingInfo
      else if exists k :: 0 <= k < |results| && !results[k].found then MissingInfo
      else Resolved(seq(|results|, k requires 0 <= k < |results| => results[k].message))
  }

  function ToolDecision(calls: seq<ToolCall>, allowed: set<string>, doc: Json, parse: string -> Option<Json>): ToolOutcome {
    Decide(ScanChecks(Checks(calls, allowed, doc, parse)))
  }

  /** When the map throws, the error is one that a call's arguments threw. */
  lemma {:induction false} ScanAbortError(checks: seq<CallCheck>)
    requires forall k :: 0 <= k < |checks| && checks[k].ArgumentsThrow? ==> IsArgumentsError(checks[k].error)
    ensures ScanChecks(checks).Aborted? ==> IsArgumentsError(ScanChecks(checks).error)
  {
    if checks != [] {
      var n := |checks| - 1;
      assert forall k :: 0 <= k < n ==> checks[..n][k] == checks[k];
      ScanAbortError(checks[..n]);
    }
  }

  /** The only error the tool calls throw is the TypeError of arguments
      that parse to `null`. */
  lemma ToolDecisionError(calls: seq<ToolCall>, allowed: set<string>, doc: Json, parse: string -> Option<Json>)
    ensures ToolDecision(calls, allowed, doc, parse).ToolError? ==> IsArgumentsError(ToolDecision(calls, allowed, doc, parse).error)
  {
    ScanAbortError(Checks(calls, allowed, doc, parse));
  }

  /** The map over one more call is one more step. */
  lemma ScanOneMore(checks: seq<CallCheck>, i: nat)
    requires i < |checks|
    ensures ScanChecks(checks[..i + 1]) == Step(ScanChecks(checks[..i]), checks[i])
  {
    assert checks[..i + 1][..i] == checks[..i];
  }

  /** Once the map has thrown, later calls change nothing. */
  lemma {:induction false} AbortSticks(checks: seq<CallCheck>, i: nat)
    requires i <= |checks| && ScanChecks(checks[..i]).Aborted?
    ensures ScanChecks(checks) == ScanChecks(checks[..i])
    decreases |checks| - i
  {
    if i < |checks| {
      assert checks[..i + 1][..i] == checks[..i];
      AbortSticks(checks, i + 1);
    } else {
      assert checks[..i] == checks;
    }
  }

  /** The body of the `map` callback for one call. */
  method EvaluateCall(call: ToolCall, allowed: set<string>, doc: Json, parse: string -> Option<Json>)
    returns (check: CallCheck)
    ensures check == CheckCall(call, allowed, doc, parse)
  {
    if call.name != Some(ProfileToolName) {
      return WrongTool;
    }
    var args := ParseArguments(call.arguments, parse);
    var requested := RequestedKeyPaths(args);
    if requested.None? {
      return ArgumentsThrow(ReadPropertyError(args));
    }
    var keyPaths := requested.value;
    assert CheckCall(call, allowed, doc, parse) == CheckPaths(call.id, keyPaths, allowed, doc);
    var validKeyPaths := AllowedPaths(keyPaths, allowed);
    var uniqueKeyPaths := Dedup(validKeyPaths);
    var results := ResolvePaths(doc, uniqueKeyPaths);
    var foundAll := |results| > 0 && forall k :: 0 <= k < |results| ==> results[k].lookup.Found?;
    return Checked(|validKeyPaths| == |keyPaths|, foundAll, ToolMessage(call.id, ProfileToolName, results));
  }

  /** The tool-call `map` of the source: sets `hasInvalidToolCall` and
      `hasInvalidKeyPath`, collects `toolResults`, then applies the
      all-or-nothing checks. */
  method ProcessToolCalls(calls: seq<ToolCall>, allowed: set<string>, doc: Json, parse: string -> Option<Json>)
    returns (outcome: ToolOutcome)
    ensures outcome == ToolDecision(calls, allowed, doc, parse)
  {
    ghost var checks := Checks(calls, allowed, doc, parse);
    var hasInvalidToolCall := false;
    var hasInvalidKeyPath := false;
    var toolResults: seq<Evaluated> := [];
    for i := 0 to |calls|
      invariant ScanChecks(checks[..i]) == Scanning(hasInvalidToolCall, hasInvalidKeyPath, toolResults)
    {
      ScanOneMore(checks, i);
      var check := EvaluateCall(calls[i], allowed, doc, parse);
      match check {
        case WrongTool =>
          hasInvalidToolCall := true;
        case ArgumentsThrow(e) =>
          AbortSticks(checks, i + 1);
          return ToolError(e);
        case Checked(allAllowed, found, message) =>
          if !allAllowed {
            hasInvalidKeyPath := true;
          }
          toolResults := toolResults + [Evaluated(found, message)];
      }
    }
    assert checks[..|calls|] == checks;
    outcome := CheckResults(hasInvalidToolCall, hasInvalidKeyPath, toolResults);
  }

  /** The all-or-nothing checks after the map: the follow-up goes ahead
      exactly when no flag is set and there are results, all found; it then
      carries the results' tool messages in order, and otherwise the answer
      is the missing-information text. */
  method CheckResults(hasInvalidToolCall: bool, hasInvalidKeyPath: bool, toolResults: seq<Evaluated>)
    returns (outcome: ToolOutcome)
    ensures outcome.Resolved? <==>
      !hasInvalidToolCall && !hasInvalidKeyPath && |toolResults| > 0 &&
      forall k :: 0 <= k < |toolResults| ==> toolResults[k].found
    ensures outcome.Resolved? ==>
      |outcome.toolMessages| == |toolResults| &&
      forall k :: 0 <= k < |toolResults| ==> outcome.toolMessages[k] == toolResults[k].message
    ensures !outcome.Resolved? ==> outcome == MissingInfo
  {
    if hasInvalidToolCall || hasInvalidKeyPath || |toolResults| == 0 {
      return MissingInfo;
    }
    if exists k :: 0 <= k < |toolResults| && !toolResults[k].found {
      return MissingInfo;
    }
    return Resolved(seq(|toolResults|, k requires 0 <= k < |toolResults| => toolResults[k].message));
  }

  /** `foundAll` holds exactly when there is at least one path and every
      path resolves. */
  lemma FoundAllIff(doc: Json, paths: seq<string>)
    ensures FoundAll(ResolveAll(doc, paths)) <==>
      |paths| > 0 && forall k :: 0 <= k < |paths| ==> Resolve(doc, paths[k]).Found?
  {
    forall k | 0 <= k < |paths| {
      ResolveAllAt(doc, paths, k);
    }
  }

  /** A call the policy lets through: the right tool name, readable
      arguments, every requested path allowed and every lookup found. */
  predicate Accepted(check: CallCheck) {
    check.Checked? && check.allAllowed && check.found
  }

  /** Every path resolves in the profile. */
  predicate AllFound(doc: Json, paths: seq<string>) {
    forall k :: 0 <= k < |paths| ==> Resolve(doc, paths[k]).Found?
  }

  /** Removing duplicates keeps "non-empty" and "every element passes `test`". */
  lemma DedupKeepsAll(paths: seq<string>, test: string -> bool)
    ensures |Dedup(paths)| > 0 <==> |paths| > 0
    ensures (forall k :: 0 <= k < |Dedup(paths)| ==> test(Dedup(paths)[k])) <==>
      (forall k :: 0 <= k < |paths| ==> test(paths[k]))
  {
    var unique := Dedup(paths);
    if |paths| > 0 {
      assert paths[0] in unique;
    }
    if forall k :: 0 <= k < |unique| ==> test(unique[k]) {
      forall k | 0 <= k < |paths| ensures test(paths[k]) {
        assert paths[k] in unique;
      }
    }
    if forall k :: 0 <= k < |paths| ==> test(paths[k]) {
      forall k | 0 <= k < |unique| ensures test(unique[k]) {
        assert unique[k] in paths;
      }
    }
  }

  /** The same for "every path resolves". */
  lemma DedupKeepsFound(doc: Json, paths: seq<string>)
    ensures |Dedup(paths)| > 0 <==> |paths| > 0
    ensures AllFound(doc, Dedup(paths)) <==> AllFound(doc, paths)
  {
    var test := (x: string) => Resolve(doc, x).Found?;
    DedupKeepsAll(paths, test);
    assert AllFound(doc, Dedup(paths)) <==> forall k :: 0 <= k < |Dedup(paths)| ==> test(Dedup(paths)[k]);
    assert AllFound(doc, paths) <==> forall k :: 0 <= k < |paths| ==> test(paths[k]);
  }

  /** A call with readable arguments is accepted exactly when it asks for at
      least one path, every path is in the allow-list and every one of them
      resolves; its tool message then carries the lookups of its distinct
      paths in first-occurrence order. */
  lemma CheckPathsAccepted(id: string, paths: seq<string>, allowed: set<string>, doc: Json)
    ensures Accepted(CheckPaths(id, paths, allowed, doc)) <==>
      |paths| > 0 && (forall k :: 0 <= k < |paths| ==> paths[k] in allowed) && AllFound(doc, paths)
    ensures Accepted(CheckPaths(id, paths, allowed, doc)) ==>
      CheckPaths(id, paths, allowed, doc).message == ToolMessage(id, ProfileToolName, ResolveAll(doc, Dedup(paths)))
  {
    AllowedPathsAll(paths, allowed);
    if forall k :: 0 <= k < |paths| ==> paths[k] in allowed {
      FoundAllIff(doc, Dedup(paths));
      DedupKeepsFound(doc, paths);
    }
  }

  /** The paths a call asks for (`None` when reading its arguments throws). */
  function CallPaths(call: ToolCall, parse: string -> Option<Json>): Option<seq<string>> {
    RequestedKeyPaths(ParseArguments(call.arguments, parse))
  }

  /** The policy for one call in the source's own terms: the name is
      `get_profile_info`, its arguments can be read, it asks for at least one
      path, every path is in the allow-list and every path resolves. */
  predicate CallPasses(call: ToolCall, allowed: set<string>, doc: Json, parse: string -> Option<Json>) {
    call.name == Some(ProfileToolName) && CallPaths(call, parse).Some? &&
    var paths := CallPaths(call, parse).value;
    |paths| > 0 && (forall k :: 0 <= k < |paths| ==> paths[k] in allowed) && AllFound(doc, paths)
  }

  /** The callback accepts a call exactly when the call passes the policy,
      and its tool message then carries the lookups of the call's distinct
      paths in first-occurrence order. */
  lemma CallAcceptedIff(call: ToolCall, allowed: set<string>, doc: Json, parse: string -> Option<Json>)
    ensures Accepted(CheckCall(call, allowed, doc, parse)) <==> CallPasses(call, allowed, doc, parse)
    ensures Accepted(CheckCall(call, allowed, doc, parse)) ==>
      CheckCall(call, allowed, doc, parse).message ==
        ToolMessage(call.id, ProfileToolName, ResolveAll(doc, Dedup(CallPaths(call, parse).value)))
  {
    if call.name == Some(ProfileToolName) && CallPaths(call, parse).Some? {
      var paths := CallPaths(call, parse).value;
      assert CheckCall(call, allowed, doc, parse) == CheckPaths(call.id, paths, allowed, doc);
      CheckPathsAccepted(call.id, paths, allowed, doc);
    }
  }

  /** What the map makes of the checks: it stops with an error exactly when
      some call's arguments throw; otherwise `hasInvalidToolCall` says that
      some call has a wrong name, `hasInvalidKeyPath` that some call asked
      for a path outside the allow-list, and when every name is right there
      is one entry per call, in order. */
  lemma {:induction false} ScanSummary(checks: seq<CallCheck>)
    ensures ScanChecks(checks).Aborted? <==> exists k :: 0 <= k < |checks| && checks[k].ArgumentsThrow?
    ensures ScanChecks(checks).Scanning? ==>
      var scan := ScanChecks(checks);
      (scan.invalidToolCall <==> exists k :: 0 <= k < |checks| && checks[k].WrongTool?) &&
      (scan.invalidKeyPath <==> exists k :: 0 <= k < |checks| && checks[k].Checked? && !checks[k].allAllowed) &&
      (!scan.invalidToolCall ==>
        |scan.toolResults| == |checks| &&
        forall k :: 0 <= k < |checks| ==> scan.toolResults[k] == Evaluated(checks[k].found, checks[k].message))
  {
    if checks != [] {
      var n := |checks| - 1;
      var p := checks[..n];
      ScanSummary(p);
      assert forall k :: 0 <= k < n ==> checks[k] == p[k];
      var scan := ScanChecks(p);
      if scan.Scanning? && checks[n].Checked? && !scan.invalidToolCall {
        var results := scan.toolResults + [Evaluated(checks[n].found, checks[n].message)];
        assert forall k :: 0 <= k < n ==> results[k] == scan.toolResults[k];
      }
    }
  }

  /** The checks lead to the follow-up request exactly when there is at
      least one call and every call is accepted; the follow-up then carries
      one tool message per call, in order, each the message of its call. */
  lemma DecideResolvedIff(checks: seq<CallCheck>)
    ensures Decide(ScanChecks(checks)).Resolved? <==>
      |checks| > 0 && forall k :: 0 <= k < |checks| ==> Accepted(checks[k])
    ensures Decide(ScanChecks(checks)).Resolved? ==>
      var messages := Decide(ScanChecks(checks)).toolMessages;
      |messages| == |checks| && forall k :: 0 <= k < |checks| ==> messages[k] == checks[k].message
  {
    ScanSummary(checks);
    var scan := ScanChecks(checks);
    if |checks| > 0 && forall k :: 0 <= k < |checks| ==> Accepted(checks[k]) {
      assert Accepted(checks[0]);
      assert scan.Scanning? && !scan.invalidToolCall;
    }
    if Decide(scan).Resolved? {
      forall k | 0 <= k < |checks| ensures Accepted(checks[k]) {
        assert scan.toolResults[k].found;
      }
    }
  }

  /** The tool message of a call that passed: its id and the lookups of
      its distinct paths, in first-occurrence order. */
  function PassedMessage(call: ToolCall, doc: Json, parse: string -> Option<Json>): ChatMessage {
    ToolMessage(call.id, ProfileToolName, ResolveAll(doc, Dedup(CallPaths(call, parse).GetOr([]))))
  }

  /** The same for the calls themselves: the follow-up request is made
      exactly when there is a call and every call passes the policy. */
  lemma ToolDecisionResolvedIff(calls: seq<ToolCall>, allowed: set<string>, doc: Json, parse: string -> Option<Json>)
    ensures ToolDecision(calls, allowed, doc, parse).Resolved? <==>
      |calls| > 0 && forall k :: 0 <= k < |calls| ==> CallPasses(calls[k], allowed, doc, parse)
  {
    var checks := Checks(calls, allowed, doc, parse);
    DecideResolvedIff(checks);
    forall k | 0 <= k < |calls| {
      CallAcceptedIff(calls[k], allowed, doc, parse);
    }
  }

  /** The follow-up request then carries one tool message per call, in
      order, with that call's id and the lookups of its distinct paths. */
  lemma ToolDecisionMessages(calls: seq<ToolCall>, allowed: set<string>, doc: Json, parse: string -> Option<Json>)
    ensures ToolDecision(calls, allowed, doc, parse).Resolved? ==>
      ToolDecision(calls, allowed, doc, parse).toolMessages ==
        seq(|calls|, k requires 0 <= k < |calls| => PassedMessage(calls[k], doc, parse))
  {
    var checks := Checks(calls, allowed, doc, parse);
    DecideResolvedIff(checks);
    forall k | 0 <= k < |calls| {
      CallAcceptedIff(calls[k], allowed, doc, parse);
    }
  }

  /** A call with another name, a requested path outside the allow-list or
      a path that does not resolve rules out the follow-up request. */
  lemma OneBadCallRejects(calls: seq<ToolCall>, allowed: set<string>, doc: Json, parse: string -> Option<Json>, k: nat)
    requires k < |calls|
    requires calls[k].name != Some(ProfileToolName) ||
      (CallPaths(calls[k], parse).Some? &&
       exists j :: 0 <= j < |CallPaths(calls[k], parse).value| &&
         (CallPaths(calls[k], parse).value[j] !in allowed || Resolve(doc, CallPaths(calls[k], parse).value[j]).NotFound?))
    ensures !ToolDecision(calls, allowed, doc, parse).Resolved?
  {
    ToolDecisionResolvedIff(calls, allowed, doc, parse);
    assert !CallPasses(calls[k], allowed, doc, parse);
  }

  lemma CallPassesMonotone(call: ToolCall, small: set<string>, big: set<string>, doc: Json, parse: string -> Option<Json>)
    requires small <= big && CallPasses(call, small, doc, parse)
    ensures CallPasses(call, big, doc, parse)
  {
  }

  /** Widening the allow-list never changes an accepted outcome: what the
      smaller list lets through, the larger one lets through with the same
      tool messages. */
  lemma AllowListMonotone(calls: seq<ToolCall>, small: set<string>, big: set<string>, doc: Json, parse: string -> Option<Json>)
    requires small <= big
    requires ToolDecision(calls, small, doc, parse).Resolved?
    ensures ToolDecision(calls, big, doc, parse) == ToolDecision(calls, small, doc, parse)
  {
    ToolDecisionResolvedIff(calls, small, doc, parse);
    forall k | 0 <= k < |calls| ensures CallPasses(calls[k], big, doc, parse) {
      CallPassesMonotone(calls[k], small, big, doc, parse);
    }
    ToolDecisionResolvedIff(calls, big, doc, parse);
    ToolDecisionMessages(calls, small, doc, parse);
    ToolDecisionMessages(calls, big, doc, parse);
  }
}
