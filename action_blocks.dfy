/** The action blocks of a model reply (agent_graph.py, `parse_actions_from_response`
    and `remove_action_blocks`). Both functions use the pattern
    `\*\*ACTION_START\*\*(.*?)\*\*ACTION_END\*\*` with `re.DOTALL`: a start marker,
    the shortest text after it (newlines included), an end marker. The regular
    expression engine is modelled as the scan it performs: the leftmost start
    marker at or after the current position, the first end marker after it,
    then on from just past that end marker; no match once a start marker has no
    end marker after it. */
module ActionBlocks {
  import opened Wrappers
  import opened Text
  import opened Json

  const StartMarker: string := "**ACTION_START**"
  const EndMarker: string := "**ACTION_END**"

  /** The two literal delimiters of a block. The scan below is stated for any
      pair with a non-empty opening delimiter and used with `Markers`. */
  datatype Delims = Delims(open: string, close: string)

  const Markers: Delims := Delims(StartMarker, EndMarker)

  /** One match of the pattern in a text: the opening delimiter begins at
      `start`, the closing one stops just before `end`. */
  datatype Region = Region(start: nat, end: nat)

  /** `r` spans an opening delimiter, some text and a closing delimiter of `s`. */
  predicate WellPlaced(d: Delims, s: string, r: Region) {
    && r.start + |d.open| + |d.close| <= r.end <= |s|
    && OccursAt(d.open, s, r.start)
    && OccursAt(d.close, s, r.end - |d.close|)
  }

  /** The regions follow one another from `from` on, without overlapping. */
  predicate Ordered(d: Delims, s: string, rs: seq<Region>, from: nat)
    decreases |rs|
  {
    rs == [] || (from <= rs[0].start && WellPlaced(d, s, rs[0]) && Ordered(d, s, rs[1..], rs[0].end))
  }

  /** No opening delimiter at or after `from` is followed by a closing one. */
  ghost predicate NoPairFrom(d: Delims, s: string, from: nat) {
    forall p: nat, e: nat ::
      from <= p && p + |d.open| <= e && OccursAt(d.open, s, p) ==> !OccursAt(d.close, s, e)
  }

  /** What `re.findall` with the non-greedy pattern returns, stated without the
      scan: each region starts at the leftmost opening delimiter after the
      previous region, ends at the first closing delimiter after that, and once
      the regions are exhausted no opening delimiter is followed by a closing one. */
  ghost predicate FindAll(d: Delims, s: string, from: nat, rs: seq<Region>)
    decreases |rs|
  {
    if rs == [] then NoPairFrom(d, s, from)
    else
      && from <= rs[0].start
      && WellPlaced(d, s, rs[0])
      && NoneIn(d.open, s, from, rs[0].start)
      && NoneIn(d.close, s, rs[0].start + |d.open|, rs[0].end - |d.close|)
      && FindAll(d, s, rs[0].end, rs[1..])
  }

  /** The next match at or after `from`: the leftmost opening delimiter, then
      the first closing delimiter after it. There is none when no opening
      delimiter is followed by a closing one. */
  function NextMatch(d: Delims, s: string, from: nat): (r: Option<Region>)
    ensures r.Some? ==>
      && from <= r.value.start
      && WellPlaced(d, s, r.value)
      && NoneIn(d.open, s, from, r.value.start)
      && NoneIn(d.close, s, r.value.start + |d.open|, r.value.end - |d.close|)
    ensures r.None? ==> NoPairFrom(d, s, from)
  {
    match FindFrom(d.open, s, from)
    case None => None
    case Some(p) =>
      match FindFrom(d.close, s, p + |d.open|)
      case None => None
      case Some(e) => Some(Region(p, e + |d.close|))
  }

  /** The matches of the pattern in `s` from position `from` on. */
  function Scan(d: Delims, s: string, from: nat): (rs: seq<Region>)
    requires d.open != ""
    ensures Ordered(d, s, rs, from)
    decreases |s| - from
  {
    match NextMatch(d, s, from)
    case None => []
    case Some(r) => [r] + Scan(d, s, r.end)
  }

  /** The text between the two delimiters of a region (group 1 of the pattern). */
  function Interior(d: Delims, s: string, r: Region): string
    requires WellPlaced(d, s, r)
  {
    s[r.start + |d.open|..r.end - |d.close|]
  }

  /** The interiors of ordered regions, in order. */
  function Interiors(d: Delims, s: string, rs: seq<Region>, from: nat): (ms: seq<string>)
    requires Ordered(d, s, rs, from)
    ensures |ms| == |rs|
    decreases |rs|
  {
    if rs == [] then [] else [Interior(d, s, rs[0])] + Interiors(d, s, rs[1..], rs[0].end)
  }

  /** `re.sub(pattern, '', s[from..], flags=re.DOTALL)`. */
  function Sub(d: Delims, s: string, from: nat): string
    requires d.open != "" && from <= |s|
    decreases |s| - from
  {
    match NextMatch(d, s, from)
    case None => s[from..]
    case Some(r) => s[from..r.start] + Sub(d, s, r.end)
  }

  /** `s[from..]` with the regions `rs` cut out. */
  function Complement(d: Delims, s: string, rs: seq<Region>, from: nat): string
    requires from <= |s| && Ordered(d, s, rs, from)
    decreases |rs|
  {
    if rs == [] then s[from..] else s[from..rs[0].start] + Complement(d, s, rs[1..], rs[0].end)
  }

  /** The scan finds exactly what `FindAll` describes ... */
  lemma {:induction false} ScanFindsAll(d: Delims, s: string, from: nat)
    requires d.open != ""
    ensures FindAll(d, s, from, Scan(d, s, from))
    decreases |s| - from
  {
    match NextMatch(d, s, from)
    case None =>
    case Some(r) =>
      ScanFindsAll(d, s, r.end);
      assert ([r] + Scan(d, s, r.end))[1..] == Scan(d, s, r.end);
  }

  /** The match `FindAll` places first is the one the scan finds. */
  lemma NextMatchLeftmost(d: Delims, s: string, from: nat, r: Region)
    requires from <= r.start && WellPlaced(d, s, r)
    requires NoneIn(d.open, s, from, r.start)
    requires NoneIn(d.close, s, r.start + |d.open|, r.end - |d.close|)
    ensures NextMatch(d, s, from) == Some(r)
  {
    FindFromLeftmost(d.open, s, from, r.start);
    FindFromLeftmost(d.close, s, r.start + |d.open|, r.end - |d.close|);
  }

  /** ... and nothing else: `FindAll` has one solution, the scan. */
  lemma {:induction false} FindAllIsScan(d: Delims, s: string, from: nat, rs: seq<Region>)
    requires d.open != ""
    requires FindAll(d, s, from, rs)
    ensures rs == Scan(d, s, from)
    decreases |rs|
  {
    if rs != [] {
      NextMatchLeftmost(d, s, from, rs[0]);
      FindAllIsScan(d, s, rs[0].end, rs[1..]);
      assert rs == [rs[0]] + rs[1..];
    }
  }

  /** `re.sub` deletes exactly the regions `re.findall` reports for the same
      pattern, whatever their interiors hold. */
  lemma {:induction false} SubDeletesScanned(d: Delims, s: string, from: nat)
    requires d.open != "" && from <= |s|
    ensures Sub(d, s, from) == Complement(d, s, Scan(d, s, from), from)
    decreases |s| - from
  {
    match NextMatch(d, s, from)
    case None =>
    case Some(r) =>
      var rest := Scan(d, s, r.end);
      SubDeletesScanned(d, s, r.end);
      assert ([r] + rest)[1..] == rest;
  }

  // ---------------------------------------------------------------------------
  // The two functions of agent_graph.py on the text

  /** `re.findall(pattern, s, re.DOTALL)` at agent_graph.py line 284. */
  function Matches(s: string): seq<string> {
    Interiors(Markers, s, Scan(Markers, s, 0), 0)
  }

  /** `remove_action_blocks`: every match deleted, then the result stripped. */
  function RemoveActionBlocks(s: string): string {
    Strip(Sub(Markers, s, 0))
  }

  /** `remove_action_blocks` deletes exactly the regions that
      `parse_actions_from_response` reads, whether or not they decode. */
  lemma RemovesScannedRegions(s: string)
    ensures RemoveActionBlocks(s) == Strip(Complement(Markers, s, Scan(Markers, s, 0), 0))
  {
    SubDeletesScanned(Markers, s, 0);
  }

  /** A reply that holds nothing but action blocks and whitespace displays as
      the empty string. */
  lemma BlankDisplay(s: string)
    ensures AllSpace(Complement(Markers, s, Scan(Markers, s, 0), 0)) ==> RemoveActionBlocks(s) == ""
  {
    RemovesScannedRegions(s);
    if AllSpace(Complement(Markers, s, Scan(Markers, s, 0), 0)) {
      StripAllSpace(Complement(Markers, s, Scan(Markers, s, 0), 0));
    }
  }

  // ---------------------------------------------------------------------------
  // Actions

  /** A proposed action: the parsed dict with its added fields. */
  type Action = map<string, Value>

  /** `f"action-{int(time.time() * 1000)}"` for the clock reading `ms`. */
  function ActionId(ms: nat): string {
    "action-" + NatText(ms)
  }

  /** The fields agent_graph.py lines 292-294 set on a parsed dict. */
  function Decorate(m: map<string, Value>, ms: nat): Action {
    var a := m["id" := Str(ActionId(ms))];
    var a := a["status" := Str("pending")];
    a["priority" := Get(a, "priority", Str("medium"))]
  }

  /** A stamped dict gains exactly the keys "id", "status" and "priority": the
      id of its clock reading, status "pending", and its own priority or
      "medium"; every other field is kept as it was. */
  lemma DecorateFields(m: map<string, Value>, ms: nat)
    ensures var a := Decorate(m, ms);
      && a.Keys == m.Keys + {"id", "status", "priority"}
      && a["id"] == Str(ActionId(ms))
      && a["status"] == Str("pending")
      && a["priority"] == (if "priority" in m then m["priority"] else Str("medium"))
      && forall k :: k in m && k != "id" && k != "status" && k != "priority" ==> a[k] == m[k]
  {
  }

  /** `json.loads(text.strip())` (line 289). */
  function Decode(parse: string -> JsonParse, text: string): JsonParse {
    parse(Strip(text))
  }

  /** The dicts among the interiors `ms[i..]` that decode, in document order. */
  function ParsedObjects(ms: seq<string>, parse: string -> JsonParse, i: nat): (objs: seq<map<string, Value>>)
    requires i <= |ms|
    ensures |objs| <= |ms| - i
    decreases |ms| - i
  {
    if i == |ms| then []
    else
      var rest := ParsedObjects(ms, parse, i + 1);
      match Decode(parse, ms[i])
      case Valid(Obj(m)) => [m] + rest
      case _ => rest
  }

  /** The first interior of `ms[i..]` that decodes to a value other than a dict. */
  function FirstNonObject(ms: seq<string>, parse: string -> JsonParse, i: nat): Option<Value>
    requires i <= |ms|
    decreases |ms| - i
  {
    if i == |ms| then None
    else
      match Decode(parse, ms[i])
      case Valid(v) => if v.Obj? then FirstNonObject(ms, parse, i + 1) else Some(v)
      case Invalid => FirstNonObject(ms, parse, i + 1)
  }

  /** The dicts `objs` stamped with consecutive clock readings from the `k`-th on. */
  function Stamped(objs: seq<map<string, Value>>, clock: nat -> nat, k: nat): (acts: seq<Action>)
    ensures |acts| == |objs|
    decreases |objs|
  {
    if objs == [] then [] else [Decorate(objs[0], clock(k))] + Stamped(objs[1..], clock, k + 1)
  }

  /** The `j`-th stamped dict carries the `(k + j)`-th clock reading. */
  lemma {:induction false} StampedAt(objs: seq<map<string, Value>>, clock: nat -> nat, k: nat, j: nat)
    requires j < |objs|
    ensures Stamped(objs, clock, k)[j] == Decorate(objs[j], clock(k + j))
    decreases j
  {
    if j > 0 {
      StampedAt(objs[1..], clock, k + 1, j - 1);
    }
  }

  lemma StampedCons(m: map<string, Value>, objs: seq<map<string, Value>>, clock: nat -> nat, k: nat)
    ensures [Decorate(m, clock(k))] + Stamped(objs, clock, k + 1) == Stamped([m] + objs, clock, k)
  {
    assert ([m] + objs)[1..] == objs;
  }

  /** The loop of lines 286-299 from the interior `ms[i]` on, `k` actions
      already made. An interior that does not decode is skipped; one that
      decodes to a dict becomes an action stamped with the `k`-th clock reading;
      one that decodes to anything else makes the subscript assignment at line
      292 raise a `TypeError`, which `except json.JSONDecodeError` does not catch. */
  function ActionsFrom(ms: seq<string>, parse: string -> JsonParse, clock: nat -> nat, i: nat, k: nat): Result<seq<Action>, Fault>
    requires i <= |ms|
    decreases |ms| - i
  {
    if i == |ms| then Ok([])
    else
      match Decode(parse, ms[i])
      case Invalid => ActionsFrom(ms, parse, clock, i + 1, k)
      case Valid(v) =>
        if v.Obj? then Prepend([Decorate(v.fields, clock(k))], ActionsFrom(ms, parse, clock, i + 1, k + 1))
        else Err(NotAssignable(v))
  }

  /** One turn of the loop, from the interior `ms[i]` with `k` actions made. */
  lemma ActionsFromStep(ms: seq<string>, parse: string -> JsonParse, clock: nat -> nat, i: nat, k: nat)
    requires i < |ms|
    ensures Decode(parse, ms[i]).Invalid? ==>
      ActionsFrom(ms, parse, clock, i, k) == ActionsFrom(ms, parse, clock, i + 1, k)
    ensures Decode(parse, ms[i]).Valid? && !Decode(parse, ms[i]).value.Obj? ==>
      ActionsFrom(ms, parse, clock, i, k) == Err(NotAssignable(Decode(parse, ms[i]).value))
    ensures Decode(parse, ms[i]).Valid? && Decode(parse, ms[i]).value.Obj? ==>
      ActionsFrom(ms, parse, clock, i, k) ==
      Prepend([Decorate(Decode(parse, ms[i]).value.fields, clock(k))], ActionsFrom(ms, parse, clock, i + 1, k + 1))
  {
  }

  /** `parse_actions_from_response(text)`; `clock(k)` is the value of
      `int(time.time() * 1000)` when the `k`-th action is stamped. */
  function ExtractActions(text: string, parse: string -> JsonParse, clock: nat -> nat): Result<seq<Action>, Fault> {
    ActionsFrom(Matches(text), parse, clock, 0, 0)
  }

  /** The loop is "keep the dicts, stamp them in order", unless some interior
      decodes to a non-dict, in which case the first such value raises. */
  lemma {:induction false} ActionsFromMeaning(ms: seq<string>, parse: string -> JsonParse, clock: nat -> nat, i: nat, k: nat)
    requires i <= |ms|
    ensures ActionsFrom(ms, parse, clock, i, k) ==
      match FirstNonObject(ms, parse, i)
      case Some(v) => Err(NotAssignable(v))
      case None => Ok(Stamped(ParsedObjects(ms, parse, i), clock, k))
    decreases |ms| - i
  {
    if i < |ms| {
      ActionsFromStep(ms, parse, clock, i, k);
      match Decode(parse, ms[i])
      case Invalid =>
        ActionsFromMeaning(ms, parse, clock, i + 1, k);
        assert FirstNonObject(ms, parse, i) == FirstNonObject(ms, parse, i + 1);
        assert ParsedObjects(ms, parse, i) == ParsedObjects(ms, parse, i + 1);
      case Valid(v) =>
        if v.Obj? {
          ActionsFromMeaning(ms, parse, clock, i + 1, k + 1);
          assert FirstNonObject(ms, parse, i) == FirstNonObject(ms, parse, i + 1);
          assert ParsedObjects(ms, parse, i) == [v.fields] + ParsedObjects(ms, parse, i + 1);
          StampedCons(v.fields, ParsedObjects(ms, parse, i + 1), clock, k);
        } else {
          assert FirstNonObject(ms, parse, i) == Some(v);
        }
    }
  }

  /** The actions `parse_actions_from_response` returns: one per matched region
      whose interior decodes to a dict, in document order, the `j`-th being that
      dict with status "pending", its own priority or "medium", and the id of
      the `j`-th clock reading. */
  lemma ExtractedActions(text: string, parse: string -> JsonParse, clock: nat -> nat)
    ensures ExtractActions(text, parse, clock).Ok? ==>
      var acts := ExtractActions(text, parse, clock).value;
      var objs := ParsedObjects(Matches(text), parse, 0);
      && |acts| == |objs| <= |Scan(Markers, text, 0)|
      && forall j :: 0 <= j < |acts| ==> acts[j] == Decorate(objs[j], clock(j))
  {
    if ExtractActions(text, parse, clock).Ok? {
      StampedActions(Matches(text), parse, clock);
    }
  }

  /** The loop over any interiors `ms`, when it does not raise. */
  lemma StampedActions(ms: seq<string>, parse: string -> JsonParse, clock: nat -> nat)
    requires ActionsFrom(ms, parse, clock, 0, 0).Ok?
    ensures var acts, objs := ActionsFrom(ms, parse, clock, 0, 0).value, ParsedObjects(ms, parse, 0);
      && |acts| == |objs|
      && forall j :: 0 <= j < |acts| ==> acts[j] == Decorate(objs[j], clock(j))
  {
    ActionsFromMeaning(ms, parse, clock, 0, 0);
    var objs := ParsedObjects(ms, parse, 0);
    forall j | 0 <= j < |objs| ensures Stamped(objs, clock, 0)[j] == Decorate(objs[j], clock(j)) {
      StampedAt(objs, clock, 0, j);
    }
  }

  /** Two action ids are equal exactly when their clock readings are: actions
      stamped in the same millisecond share an id. */
  lemma ActionIdsCollide(x: nat, y: nat)
    ensures ActionId(x) == ActionId(y) <==> x == y
  {
    if ActionId(x) == ActionId(y) {
      assert NatText(x) == ActionId(x)[7..];
      assert NatText(y) == ActionId(y)[7..];
    }
    NatTextInjective(x, y);
  }

  /** Lines 292-294: the three fields set, in place, on a decoded dict. */
  method StampAction(m: map<string, Value>, ms: nat) returns (action: Action)
    ensures action == Decorate(m, ms)
  {
    action := m;
    action := action["id" := Str(ActionId(ms))];
    action := action["status" := Str("pending")];
    action := action["priority" := Get(action, "priority", Str("medium"))];
  }

  /** `parse_actions_from_response`: the matches found, then each one's
      interior stripped, decoded and, when it is a dict, stamped. */
  method ParseActions(text: string, parse: string -> JsonParse, clock: nat -> nat) returns (r: Result<seq<Action>, Fault>)
    ensures r == ExtractActions(text, parse, clock)
  {
    var matches := Matches(text);
    r := StampAll(matches, parse, clock);
  }

  /** The `for` loop of lines 286-299 over the matched interiors: each is
      stripped and decoded; a decoded dict is stamped and appended. */
  method StampAll(matches: seq<string>, parse: string -> JsonParse, clock: nat -> nat) returns (r: Result<seq<Action>, Fault>)
    ensures r == ActionsFrom(matches, parse, clock, 0, 0)
  {
    ghost var whole := ActionsFrom(matches, parse, clock, 0, 0);
    var actions: seq<Action> := [];
    var i := 0;
    PrependNothing(whole);
    while i < |matches|
      invariant 0 <= i <= |matches|
      invariant whole == Prepend(actions, ActionsFrom(matches, parse, clock, i, |actions|))
    {
      var parsed := Decode(parse, matches[i]);
      ActionsFromStep(matches, parse, clock, i, |actions|);
      if parsed.Valid? {
        var ms := clock(|actions|);
        if !parsed.value.Obj? {
          return Err(NotAssignable(parsed.value));
        }
        var action := StampAction(parsed.value.fields, ms);
        PrependAppend(actions, action, ActionsFrom(matches, parse, clock, i + 1, |actions| + 1));
        actions := actions + [action];
      }
      i := i + 1;
    }
    PrependNothing<Action, Fault>(Ok(actions));
    assert actions + [] == actions;
    return Ok(actions);
  }

  // ---------------------------------------------------------------------------
  // Texts with no block, and texts with one

  /** A reply without a start marker followed by an end marker yields no action
      and is displayed as it is, stripped; a dangling start marker stays. */
  lemma NoBlock(s: string, parse: string -> JsonParse, clock: nat -> nat)
    ensures Scan(Markers, s, 0) == [] <==> NoPairFrom(Markers, s, 0)
    ensures Scan(Markers, s, 0) == [] ==> ExtractActions(s, parse, clock) == Ok([]) && RemoveActionBlocks(s) == Strip(s)
  {
    ScanFindsAll(Markers, s, 0);
    if NoPairFrom(Markers, s, 0) {
      FindAllIsScan(Markers, s, 0, []);
    }
    SubDeletesScanned(Markers, s, 0);
  }

  /** The region the scan finds in a text `a + open + j + close + b` whose only
      match is the one shown. */
  lemma OneRegionScan(d: Delims, a: string, j: string, b: string)
    requires d.open != ""
    requires NoneIn(d.open, a + d.open + j + d.close + b, 0, |a|)
    requires NoneIn(d.close, a + d.open + j + d.close + b, |a| + |d.open|, |a| + |d.open| + |j|)
    requires NoPairFrom(d, a + d.open + j + d.close + b, |a| + |d.open| + |j| + |d.close|)
    ensures var s := a + d.open + j + d.close + b;
      Scan(d, s, 0) == [Region(|a|, |a| + |d.open| + |j| + |d.close|)]
  {
    var s := a + d.open + j + d.close + b;
    var r := Region(|a|, |a| + |d.open| + |j| + |d.close|);
    assert s[|a|..|a| + |d.open|] == d.open;
    OccursAtSlice(d.open, s, |a|);
    assert s[r.end - |d.close|..r.end] == d.close;
    OccursAtSlice(d.close, s, r.end - |d.close|);
    assert WellPlaced(d, s, r);
    assert FindAll(d, s, r.end, [r][1..]);
    assert FindAll(d, s, 0, [r]);
    FindAllIsScan(d, s, 0, [r]);
  }

  /** In a text `a + open + j + close + b` whose only match is the one shown,
      the match reads `j` and deleting it leaves `a + b`. */
  lemma OneRegion(d: Delims, a: string, j: string, b: string)
    requires d.open != ""
    requires NoneIn(d.open, a + d.open + j + d.close + b, 0, |a|)
    requires NoneIn(d.close, a + d.open + j + d.close + b, |a| + |d.open|, |a| + |d.open| + |j|)
    requires NoPairFrom(d, a + d.open + j + d.close + b, |a| + |d.open| + |j| + |d.close|)
    ensures var s := a + d.open + j + d.close + b;
      && Interiors(d, s, Scan(d, s, 0), 0) == [j]
      && Sub(d, s, 0) == a + b
  {
    OneRegionScan(d, a, j, b);
    var s := a + d.open + j + d.close + b;
    var r := Region(|a|, |a| + |d.open| + |j| + |d.close|);
    assert Interior(d, s, r) == j;
    assert Interiors(d, s, [r], 0) == [j];
    SubDeletesScanned(d, s, 0);
    assert Complement(d, s, [r], 0) == s[0..|a|] + s[r.end..];
    assert s[0..|a|] == a && s[r.end..] == b;
  }

  /** The actions made from a single interior `j`. */
  lemma ActionsFromSingle(j: string, parse: string -> JsonParse, clock: nat -> nat)
    ensures parse(Strip(j)).Invalid? ==> ActionsFrom([j], parse, clock, 0, 0) == Ok([])
    ensures parse(Strip(j)).Valid? && parse(Strip(j)).value.Obj? ==>
      ActionsFrom([j], parse, clock, 0, 0) == Ok([Decorate(parse(Strip(j)).value.fields, clock(0))])
    ensures parse(Strip(j)).Valid? && !parse(Strip(j)).value.Obj? ==>
      ActionsFrom([j], parse, clock, 0, 0) == Err(NotAssignable(parse(Strip(j)).value))
  {
    assert Decode(parse, [j][0]) == parse(Strip(j));
    assert ActionsFrom([j], parse, clock, 1, 1) == Ok([]);
    assert ActionsFrom([j], parse, clock, 1, 0) == Ok([]);
    if parse(Strip(j)).Valid? && parse(Strip(j)).value.Obj? {
      var act := Decorate(parse(Strip(j)).value.fields, clock(0));
      assert [act] + [] == [act];
    }
  }

  /** A reply `a + start marker + j + end marker + b` whose only match is the
      one shown: its display text is `a + b` stripped; a `j` that decodes to a
      dict gives exactly one action built from it, and a `j` that does not
      decode gives no action but is deleted all the same. */
  lemma OneBlock(a: string, j: string, b: string, parse: string -> JsonParse, clock: nat -> nat)
    requires NoneIn(StartMarker, a + StartMarker + j + EndMarker + b, 0, |a|)
    requires NoneIn(EndMarker, a + StartMarker + j + EndMarker + b, |a| + |StartMarker|, |a| + |StartMarker| + |j|)
    requires NoPairFrom(Markers, a + StartMarker + j + EndMarker + b, |a| + |StartMarker| + |j| + |EndMarker|)
    ensures var s := a + StartMarker + j + EndMarker + b;
      && Matches(s) == [j]
      && RemoveActionBlocks(s) == Strip(a + b)
      && (parse(Strip(j)).Invalid? ==> ExtractActions(s, parse, clock) == Ok([]))
      && (parse(Strip(j)).Valid? && parse(Strip(j)).value.Obj? ==>
            ExtractActions(s, parse, clock) == Ok([Decorate(parse(Strip(j)).value.fields, clock(0))]))
  {
    OneRegion(Markers, a, j, b);
    var s := a + StartMarker + j + EndMarker + b;
    assert Matches(s) == [j];
    ActionsFromSingle(j, parse, clock);
  }
}
