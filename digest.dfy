/** The digest of the doctor's data that `generate_response` writes into the
    system prompt (agent_graph.py lines 74-164): one summary per list of the
    context, each either a fixed sentence or a count line followed by a capped
    preview, and six figures read from `stats`. This part of `generate_response`
    runs before its `try`, so a value of the wrong shape raises out of it. */
module Digest {
  import opened Wrappers
  import opened Text
  import opened Json

  /** The five lists of the context, in the order the digest handles them. */
  datatype Section = Appointments | Prescriptions | Records | LabTests | Patients

  /** The context key each list is read from. */
  function Key(sec: Section): string {
    match sec
    case Appointments => "appointments"
    case Prescriptions => "prescriptions"
    case Records => "records"
    case LabTests => "labTests"
    case Patients => "patients"
  }

  /** How many items the preview shows: 20 patients, 5 of anything else. */
  function Cap(sec: Section): nat {
    if sec == Patients then 20 else 5
  }

  /** The sentence that stands for an empty (or otherwise falsy) list. */
  function EmptySentence(sec: Section): string {
    match sec
    case Appointments => "No appointments on record"
    case Prescriptions => "No prescriptions on record"
    case Records => "No medical records on file"
    case LabTests => "No lab tests on record"
    case Patients => "No patients on record"
  }

  /** The bullet that starts each preview line, as the source file spells it
      (a UTF-8 bullet read back as three Windows-1252 characters). */
  const Bullet: string := "\U{E2}\U{20AC}\U{A2} "

  // ---------------------------------------------------------------------------
  // Status filters (lines 86-88 and 130-131)

  /** `item.get('status')` equals one of `statuses`. */
  predicate HasStatus(item: Value, statuses: set<string>) {
    item.Obj? && "status" in item.fields && item.fields["status"].Str? && item.fields["status"].s in statuses
  }

  /** `[a for a in items if a.get('status') in statuses]`. */
  function Matching(items: seq<Value>, statuses: set<string>): (r: seq<Value>)
    ensures |r| <= |items|
    ensures forall k :: 0 <= k < |r| ==> r[k] in items && HasStatus(r[k], statuses)
    decreases |items|
  {
    if items == [] then []
    else (if HasStatus(items[0], statuses) then [items[0]] else []) + Matching(items[1..], statuses)
  }

  /** The filter keeps every item with a listed status, as often as it occurs,
      and nothing else. */
  lemma {:induction false} MatchingExact(items: seq<Value>, statuses: set<string>)
    ensures forall x :: multiset(Matching(items, statuses))[x] == (if HasStatus(x, statuses) then multiset(items)[x] else 0)
    decreases |items|
  {
    if items != [] {
      MatchingExact(items[1..], statuses);
      assert items == [items[0]] + items[1..];
    }
  }

  /** Filters on disjoint sets of statuses pick disjoint items: their counts add
      up to the count of the filter on the union. */
  lemma {:induction false} MatchingDisjoint(items: seq<Value>, a: set<string>, b: set<string>)
    requires a !! b
    ensures |Matching(items, a)| + |Matching(items, b)| == |Matching(items, a + b)|
    decreases |items|
  {
    if items != [] {
      MatchingDisjoint(items[1..], a, b);
    }
  }

  const Scheduled: set<string> := {"SCHEDULED"}
  const Completed: set<string> := {"COMPLETED"}
  const Cancelled: set<string> := {"CANCELLED"}
  const PendingTests: set<string> := {"PENDING", "IN_PROGRESS"}

  /** The scheduled, completed and cancelled appointments are counted by
      disjoint filters: together they are at most the total. */
  lemma AppointmentCounts(items: seq<Value>)
    ensures |Matching(items, Scheduled)| + |Matching(items, Completed)| + |Matching(items, Cancelled)|
      == |Matching(items, Scheduled + Completed + Cancelled)| <= |items|
  {
    MatchingDisjoint(items, Scheduled, Completed);
    MatchingDisjoint(items, Scheduled + Completed, Cancelled);
  }

  /** A lab test counts as pending when its status is PENDING or IN_PROGRESS,
      and the pending and completed counts never overlap. */
  lemma LabTestCounts(items: seq<Value>)
    ensures |Matching(items, PendingTests)| == |Matching(items, {"PENDING"})| + |Matching(items, {"IN_PROGRESS"})|
    ensures |Matching(items, PendingTests)| + |Matching(items, Completed)| <= |items|
  {
    MatchingDisjoint(items, {"PENDING"}, {"IN_PROGRESS"});
    assert {"PENDING"} + {"IN_PROGRESS"} == PendingTests;
    MatchingDisjoint(items, PendingTests, Completed);
  }

  /** The first item of `items[i..]` that is not a dict: evaluating the filters
      calls `.get` on every item. */
  function FirstNonDict(items: seq<Value>, i: nat): (r: Option<Value>)
    requires i <= |items|
    ensures r.None? <==> forall k :: i <= k < |items| ==> items[k].Obj?
    ensures r.Some? ==> exists k :: i <= k < |items| && items[k] == r.value && !r.value.Obj?
                                   && (forall j :: i <= j < k ==> items[j].Obj?)
    decreases |items| - i
  {
    if i == |items| then None
    else if !items[i].Obj? then Some(items[i])
    else FirstNonDict(items, i + 1)
  }

  // ---------------------------------------------------------------------------
  // Preview lines (lines 92-99, 105-112, 118-125, 134-141, 147-153)

  /** `str(d.get(key, default))` in an f-string. */
  function Field(m: map<string, Value>, key: string, default: string, repr: Value -> string): string {
    Render(Get(m, key, Str(default)), repr)
  }

  /** `value[:50]`: the first 50 characters of a string or items of a list;
      other values cannot be sliced. */
  function Cut50(v: Value): (r: Result<Value, Fault>)
    ensures r.Ok? <==> v.Str? || v.Arr?
    ensures v.Str? ==> r.Ok? && r.value.Str? && |r.value.s| == Min(50, |v.s|) && r.value.s == v.s[..|r.value.s|]
    ensures v.Arr? ==> r.Ok? && r.value.Arr? && |r.value.items| == Min(50, |v.items|) && r.value.items == v.items[..|r.value.items|]
    ensures r.Err? ==> r.error == NotSliceable(v)
  {
    match v
    case Str(s) => Ok(Str(s[..Min(50, |s|)]))
    case Arr(xs) => Ok(Arr(xs[..Min(50, |xs|)]))
    case _ => Err(NotSliceable(v))
  }

  /** The preview line of one item, or the exception formatting it raises:
      `.get` on an item that is no dict, or the slice of a record description. */
  function FormatItem(sec: Section, item: Value, repr: Value -> string): Result<string, Fault> {
    if !item.Obj? then Err(NotADict(item))
    else
      var m := item.fields;
      match sec
      case Appointments =>
        Ok(Bullet + Field(m, "patientName", "Unknown", repr) + " - " + Field(m, "scheduledAt", "Unknown date", repr)
          + " - " + Field(m, "status", "Unknown", repr)
          + " - " + Render(Get(m, "title", Get(m, "description", Str("No title"))), repr))
      case Prescriptions =>
        Ok(Bullet + Field(m, "patientName", "Unknown", repr) + ": " + Field(m, "medication", "Unknown", repr)
          + " " + Field(m, "dosage", "N/A", repr) + " - Status: " + Field(m, "status", "Unknown", repr))
      case Records =>
        var cut :- Cut50(Get(m, "description", Str("No description")));
        Ok(Bullet + Field(m, "patientName", "Unknown", repr) + ": " + Field(m, "title", "Untitled", repr)
          + " - " + Render(cut, repr) + "... - Type: " + Field(m, "recordType", "General", repr))
      case LabTests =>
        Ok(Bullet + Field(m, "patientName", "Unknown", repr) + ": " + Field(m, "testName", "Unknown", repr)
          + " (" + Field(m, "testType", "N/A", repr) + ") - " + Field(m, "status", "Unknown", repr))
      case Patients =>
        Ok(Bullet + Field(m, "name", "Unknown", repr) + " (" + Field(m, "email", "N/A", repr) + ")")
  }

  /** Every preview line starts with the bullet; only a non-dict item or an
      unsliceable record description makes formatting fail. */
  lemma FormatItemOutcome(sec: Section, item: Value, repr: Value -> string)
    ensures FormatItem(sec, item, repr).Ok? ==> StartsWith(FormatItem(sec, item, repr).value, Bullet)
    ensures FormatItem(sec, item, repr).Err? <==>
      !item.Obj? || (sec == Records && !Cut50(Get(item.fields, "description", Str("No description"))).Ok?)
    ensures !item.Obj? ==> FormatItem(sec, item, repr) == Err(NotADict(item))
  {
  }

  /** A record preview shows at most the first 50 characters of a string description. */
  lemma RecordLineCut(item: Value, repr: Value -> string)
    requires item.Obj? && "description" in item.fields && item.fields["description"].Str?
    ensures var d := item.fields["description"].s;
      var cut := d[..Min(50, |d|)];
      FormatItem(Records, item, repr) ==
        Ok(Bullet + Field(item.fields, "patientName", "Unknown", repr) + ": " + Field(item.fields, "title", "Untitled", repr)
          + " - " + cut + "... - Type: " + Field(item.fields, "recordType", "General", repr))
  {
  }

  /** The preview lines of `items[i..n]`, or the first exception formatting them raises. */
  function PreviewFrom(sec: Section, items: seq<Value>, repr: Value -> string, i: nat, n: nat): Result<seq<string>, Fault>
    requires i <= n <= |items|
    decreases n - i
  {
    if i == n then Ok([])
    else
      match FormatItem(sec, items[i], repr)
      case Err(e) => Err(e)
      case Ok(line) => Prepend([line], PreviewFrom(sec, items, repr, i + 1, n))
  }

  /** The preview of `items[:Cap(sec)]`. */
  function Preview(sec: Section, items: seq<Value>, repr: Value -> string): Result<seq<string>, Fault> {
    PreviewFrom(sec, items, repr, 0, Min(Cap(sec), |items|))
  }

  /** The preview succeeds exactly when every shown item formats. */
  lemma {:induction false} PreviewFromOk(sec: Section, items: seq<Value>, repr: Value -> string, i: nat, n: nat)
    requires i <= n <= |items|
    ensures PreviewFrom(sec, items, repr, i, n).Ok? <==> forall k :: i <= k < n ==> FormatItem(sec, items[k], repr).Ok?
    decreases n - i
  {
    if i < n {
      PreviewFromOk(sec, items, repr, i + 1, n);
    }
  }

  /** A successful preview holds one line per shown item, in order. */
  lemma {:induction false} PreviewFromLines(sec: Section, items: seq<Value>, repr: Value -> string, i: nat, n: nat)
    requires i <= n <= |items|
    requires PreviewFrom(sec, items, repr, i, n).Ok?
    ensures var lines := PreviewFrom(sec, items, repr, i, n).value;
      && |lines| == n - i
      && forall k :: i <= k < n ==> Ok(lines[k - i]) == FormatItem(sec, items[k], repr)
    decreases n - i
  {
    if i < n {
      var line := FormatItem(sec, items[i], repr).value;
      var rest := PreviewFrom(sec, items, repr, i + 1, n).value;
      PreviewFromLines(sec, items, repr, i + 1, n);
      var lines := PreviewFrom(sec, items, repr, i, n).value;
      assert lines == [line] + rest;
      forall k | i < k < n ensures Ok(lines[k - i]) == FormatItem(sec, items[k], repr) {
        assert lines[k - i] == rest[k - (i + 1)];
      }
    }
  }

  /** When the preview fails, it fails with the exception of the first shown
      item that does not format. */
  lemma {:induction false} PreviewFromFault(sec: Section, items: seq<Value>, repr: Value -> string, i: nat, n: nat)
    requires i <= n <= |items|
    requires PreviewFrom(sec, items, repr, i, n).Err?
    ensures exists k :: (
      && i <= k < n
      && FormatItem(sec, items[k], repr) == Err(PreviewFrom(sec, items, repr, i, n).error)
      && forall q :: i <= q < k ==> FormatItem(sec, items[q], repr).Ok?)
    decreases n - i
  {
    if FormatItem(sec, items[i], repr).Ok? {
      PreviewFromFault(sec, items, repr, i + 1, n);
      var k :| i + 1 <= k < n
        && FormatItem(sec, items[k], repr) == Err(PreviewFrom(sec, items, repr, i + 1, n).error)
        && forall q :: i + 1 <= q < k ==> FormatItem(sec, items[q], repr).Ok?;
      assert FormatItem(sec, items[k], repr) == Err(PreviewFrom(sec, items, repr, i, n).error);
    } else {
      assert FormatItem(sec, items[i], repr) == Err(PreviewFrom(sec, items, repr, i, n).error);
    }
  }

  // ---------------------------------------------------------------------------
  // Summaries

  /** The count line of a non-empty list: its length, " total ", then what
      the list holds, with the status counts for appointments and lab tests. */
  function Header(sec: Section, items: seq<Value>): string {
    NatText(|items|) + " total " + Counted(sec, items)
  }

  function Counted(sec: Section, items: seq<Value>): string {
    match sec
    case Appointments =>
      "appointments (" + NatText(|Matching(items, Scheduled)|) + " scheduled, "
        + NatText(|Matching(items, Completed)|) + " completed, " + NatText(|Matching(items, Cancelled)|) + " cancelled)"
    case Prescriptions => "prescriptions"
    case Records => "medical records"
    case LabTests =>
      "lab tests (" + NatText(|Matching(items, PendingTests)|) + " pending, "
        + NatText(|Matching(items, Completed)|) + " completed)"
    case Patients => "patients"
  }

  /** The filters of appointments and lab tests inspect every item. */
  predicate FiltersAll(sec: Section) {
    sec == Appointments || sec == LabTests
  }

  /** The summary of one list `v`, or the exception building it raises. */
  function Summary(sec: Section, v: Value, repr: Value -> string): Result<string, Fault> {
    if !Truthy(v) then Ok(EmptySentence(sec))
    else if !v.Arr? then Err(NotAList(v))
    else if FiltersAll(sec) && FirstNonDict(v.items, 0).Some? then Err(NotADict(FirstNonDict(v.items, 0).value))
    else
      match Preview(sec, v.items, repr)
      case Err(e) => Err(e)
      case Ok(lines) => Ok(Header(sec, v.items) + "\n" + Join("\n", lines))
  }

  /** An empty list, a missing one (`[]` by default) or any other falsy value
      is summarised by the fixed sentence. */
  lemma SummaryOfEmpty(sec: Section, v: Value, repr: Value -> string)
    requires !Truthy(v)
    ensures Summary(sec, v, repr) == Ok(EmptySentence(sec))
  {
  }

  /** A non-empty list that formats is summarised by its count line, then
      exactly `min(len, cap)` preview lines, one per shown item. */
  lemma SummaryOfList(sec: Section, items: seq<Value>, repr: Value -> string)
    requires items != []
    requires Summary(sec, Arr(items), repr).Ok?
    ensures exists lines: seq<string> :: (
      && |lines| == Min(Cap(sec), |items|)
      && (forall k :: 0 <= k < |lines| ==> Ok(lines[k]) == FormatItem(sec, items[k], repr))
      && Summary(sec, Arr(items), repr).value == Header(sec, items) + "\n" + Join("\n", lines))
  {
    var n := Min(Cap(sec), |items|);
    SummaryValue(sec, items, repr);
    PreviewFromLines(sec, items, repr, 0, n);
    var lines := Preview(sec, items, repr).value;
    assert |lines| == n;
    assert forall k :: 0 <= k < |lines| ==> Ok(lines[k]) == FormatItem(sec, items[k], repr) by {
      forall k | 0 <= k < |lines| ensures Ok(lines[k]) == FormatItem(sec, items[k], repr) {
        assert lines[k - 0] == lines[k];
      }
    }
  }

  /** The text of a successful summary of a non-empty list. */
  lemma SummaryValue(sec: Section, items: seq<Value>, repr: Value -> string)
    requires items != []
    requires Summary(sec, Arr(items), repr).Ok?
    ensures Preview(sec, items, repr).Ok?
    ensures Summary(sec, Arr(items), repr).value == Header(sec, items) + "\n" + Join("\n", Preview(sec, items, repr).value)
  {
  }

  /** The summary of a non-empty list starts with its length. */
  lemma SummaryStartsWithCount(sec: Section, items: seq<Value>, repr: Value -> string)
    requires items != []
    requires Summary(sec, Arr(items), repr).Ok?
    ensures StartsWith(Summary(sec, Arr(items), repr).value, NatText(|items|) + " total ")
  {
    var prefix := NatText(|items|) + " total ";
    SummaryValue(sec, items, repr);
    StartsWithConcat(prefix, Counted(sec, items));
    StartsWithExtend(Header(sec, items), prefix, "\n");
    StartsWithExtend(Header(sec, items) + "\n", prefix, Join("\n", Preview(sec, items, repr).value));
  }

  /** A truthy value that is no list makes the digest raise. */
  lemma SummaryOfNonList(sec: Section, v: Value, repr: Value -> string)
    requires Truthy(v) && !v.Arr?
    ensures Summary(sec, v, repr) == Err(NotAList(v))
  {
  }

  /** For appointments and lab tests, any item anywhere in the list that is no
      dict makes the digest raise; for the other lists only the shown items are
      inspected, so a non-dict after the cap goes unnoticed. */
  lemma SummaryInspects(sec: Section, items: seq<Value>, repr: Value -> string)
    requires items != []
    ensures Summary(sec, Arr(items), repr).Ok? ==>
      forall k :: 0 <= k < (if FiltersAll(sec) then |items| else Min(Cap(sec), |items|)) ==> items[k].Obj?
  {
    if Summary(sec, Arr(items), repr).Ok? && !FiltersAll(sec) {
      PreviewFromOk(sec, items, repr, 0, Min(Cap(sec), |items|));
      forall k | 0 <= k < Min(Cap(sec), |items|) ensures items[k].Obj? {
        FormatItemOutcome(sec, items[k], repr);
      }
    }
  }

  // ---------------------------------------------------------------------------
  // The imperative builders of the source

  /** The `for` loop that appends one preview line per shown item. */
  method PreviewLines(sec: Section, items: seq<Value>, repr: Value -> string) returns (r: Result<seq<string>, Fault>)
    ensures r == Preview(sec, items, repr)
  {
    var n := Min(Cap(sec), |items|);
    ghost var whole := PreviewFrom(sec, items, repr, 0, n);
    var lines: seq<string> := [];
    var i := 0;
    PrependNothing(whole);
    while i < n
      invariant 0 <= i <= n
      invariant whole == Prepend(lines, PreviewFrom(sec, items, repr, i, n))
    {
      var line := FormatItem(sec, items[i], repr);
      if line.Err? {
        return Err(line.error);
      }
      PrependAppend(lines, line.value, PreviewFrom(sec, items, repr, i + 1, n));
      lines := lines + [line.value];
      i := i + 1;
    }
    PrependNothing<string, Fault>(Ok(lines));
    assert lines + [] == lines;
    return Ok(lines);
  }

  /** One summary as the source builds it: the sentence first, replaced by the
      count line when the list is non-empty, then the preview appended. */
  method BuildSummary(sec: Section, v: Value, repr: Value -> string) returns (r: Result<string, Fault>)
    ensures r == Summary(sec, v, repr)
  {
    var summary := EmptySentence(sec);
    if Truthy(v) {
      if !v.Arr? {
        return Err(NotAList(v));
      }
      if FiltersAll(sec) {
        var odd := FirstNonDict(v.items, 0);
        if odd.Some? {
          return Err(NotADict(odd.value));
        }
      }
      summary := Header(sec, v.items);
      var lines := PreviewLines(sec, v.items, repr);
      if lines.Err? {
        return Err(lines.error);
      }
      summary := summary + "\n" + Join("\n", lines.value);
    }
    return Ok(summary);
  }

  // ---------------------------------------------------------------------------
  // The whole digest (lines 74-164)

  /** The six figures read from `stats` (lines 158-163), in order. */
  const StatKeys: seq<string> := ["totalPatients", "totalAppointments", "pendingAppointments",
                                  "totalPrescriptions", "totalLabTests", "totalRecords"]

  /** `stats.get(key, 0)` for each figure; `.get` raises on a non-dict. */
  function StatFigures(stats: Value): (r: Result<seq<Value>, Fault>)
    ensures r.Err? <==> !stats.Obj?
    ensures r.Err? ==> r.error == NotADict(stats)
    ensures r.Ok? ==> (
      && |r.value| == |StatKeys|
      && forall k :: 0 <= k < |StatKeys| ==> r.value[k] == Get(stats.fields, StatKeys[k], Num(0)))
  {
    if !stats.Obj? then Err(NotADict(stats))
    else Ok(seq(|StatKeys|, k requires 0 <= k < |StatKeys| => Get(stats.fields, StatKeys[k], Num(0))))
  }

  /** Everything the system prompt is built from. */
  datatype Parts = Parts(
    name: Value,
    appointments: string,
    prescriptions: string,
    records: string,
    labTests: string,
    patients: string,
    figures: seq<Value>)

  /** The digest of a normalised context, or the first exception building it
      raises: appointments, prescriptions, records, lab tests, patients, stats. */
  function DigestOf(ctx: map<string, Value>, repr: Value -> string): (r: Result<Parts, Fault>)
    ensures r.Ok? ==> |r.value.figures| == |StatKeys|
  {
    var appointments :- Summary(Appointments, Get(ctx, Key(Appointments), Arr([])), repr);
    var prescriptions :- Summary(Prescriptions, Get(ctx, Key(Prescriptions), Arr([])), repr);
    var records :- Summary(Records, Get(ctx, Key(Records), Arr([])), repr);
    var labTests :- Summary(LabTests, Get(ctx, Key(LabTests), Arr([])), repr);
    var patients :- Summary(Patients, Get(ctx, Key(Patients), Arr([])), repr);
    var figures :- StatFigures(Get(ctx, "stats", Obj(map[])));
    Ok(Parts(Get(ctx, "name", Str("Doctor")), appointments, prescriptions, records, labTests, patients, figures))
  }

  /** A context without data never raises: each section is its fixed sentence
      and every figure is 0. */
  lemma DigestOfBlank(ctx: map<string, Value>, repr: Value -> string)
    requires forall sec: Section :: !Truthy(Get(ctx, Key(sec), Arr([])))
    requires "stats" !in ctx || ctx["stats"] == Obj(map[])
    ensures DigestOf(ctx, repr) == Ok(Parts(Get(ctx, "name", Str("Doctor")),
      EmptySentence(Appointments), EmptySentence(Prescriptions), EmptySentence(Records),
      EmptySentence(LabTests), EmptySentence(Patients), [Num(0), Num(0), Num(0), Num(0), Num(0), Num(0)]))
  {
    assert !Truthy(Get(ctx, Key(Appointments), Arr([])));
    assert !Truthy(Get(ctx, Key(Prescriptions), Arr([])));
    assert !Truthy(Get(ctx, Key(Records), Arr([])));
    assert !Truthy(Get(ctx, Key(LabTests), Arr([])));
    assert !Truthy(Get(ctx, Key(Patients), Arr([])));
    var figures := StatFigures(Get(ctx, "stats", Obj(map[])));
    assert figures.Ok? && figures.value == [Num(0), Num(0), Num(0), Num(0), Num(0), Num(0)];
  }

  /** The digest as the source builds it, summary after summary. */
  method BuildDigest(ctx: map<string, Value>, repr: Value -> string) returns (r: Result<Parts, Fault>)
    ensures r == DigestOf(ctx, repr)
  {
    var name := Get(ctx, "name", Str("Doctor"));
    var appointments := BuildSummary(Appointments, Get(ctx, Key(Appointments), Arr([])), repr);
    if appointments.Err? { return Err(appointments.error); }
    var prescriptions := BuildSummary(Prescriptions, Get(ctx, Key(Prescriptions), Arr([])), repr);
    if prescriptions.Err? { return Err(prescriptions.error); }
    var records := BuildSummary(Records, Get(ctx, Key(Records), Arr([])), repr);
    if records.Err? { return Err(records.error); }
    var labTests := BuildSummary(LabTests, Get(ctx, Key(LabTests), Arr([])), repr);
    if labTests.Err? { return Err(labTests.error); }
    var patients := BuildSummary(Patients, Get(ctx, Key(Patients), Arr([])), repr);
    if patients.Err? { return Err(patients.error); }
    var figures := StatFigures(Get(ctx, "stats", Obj(map[])));
    if figures.Err? { return Err(figures.error); }
    return Ok(Parts(name, appointments.value, prescriptions.value, records.value, labTests.value,
                    patients.value, figures.value));
  }

  /** The fixed opening of the system prompt, up to the doctor's name. */
  const PromptIntro: string := "You are DoctorSathi AI, an intelligent medical workflow automation assistant for doctors on the HealthLink platform.\n\nYou are currently assisting **"

  /** From the doctor's name to the first statistic. */
  const PromptWorkload: string := "**, a medical professional.\n\n**Doctor's Current Workload (Real Data from Database):**\n\n**Statistics:**\n- Total Patients: "

  /** The headings in front of the five summaries. */
  const PatientsHeading: string := "\n\n**Your Patients:**\n"
  const AppointmentsHeading: string := "\n\n**Recent Appointments:**\n"
  const PrescriptionsHeading: string := "\n\n**Recent Prescriptions:**\n"
  const RecordsHeading: string := "\n\n**Medical Records:**\n"
  const LabTestsHeading: string := "\n\n**Lab Tests:**\n"

  /** The fixed instructions at the end of the system prompt: the action block format. */
  const PromptFormat: string := "\n\n---\n\nWhen generating an action, use this format:\n\n**ACTION_START**\n{\"type\": \"ACTION_TYPE\", \"data\": {...}, \"description\": \"...\"}\n**ACTION_END**\n"

  /** The system prompt: the fixed template with the digest filled in. The
      opening, the statistic labels, the section headings and the action
      format are modelled; the rest of the fixed instructions is not. */
  function SystemPrompt(d: Parts, repr: Value -> string): string
    requires |d.figures| == |StatKeys|
  {
    PromptIntro + Render(d.name, repr) + PromptWorkload + Render(d.figures[0], repr)
    + "\n- Total Appointments: " + Render(d.figures[1], repr) + " (" + Render(d.figures[2], repr) + " scheduled)"
    + "\n- Active Prescriptions: " + Render(d.figures[3], repr)
    + "\n- Lab Tests Ordered: " + Render(d.figures[4], repr)
    + "\n- Medical Records: " + Render(d.figures[5], repr)
    + PatientsHeading + d.patients
    + AppointmentsHeading + d.appointments
    + PrescriptionsHeading + d.prescriptions
    + RecordsHeading + d.records
    + LabTestsHeading + d.labTests
    + PromptFormat
  }
}
