/** Task records as the file and the API spell them, and which tasks survive being written and read. */
module Records {
  import opened Wrappers
  import Seqs
  import opened JsonValues
  import opened Tasks
  import TaskStore
  import StoreRuns
  import TokenPolicy
  import Timestamps

  /** The keys of a record. */
  datatype Column =
    | TaskId | Tenant | Project | Service | Task | JobId | IdempotencyKey | Priority | Model | Endpoint
    | EstimatedInputTokens | MaxOutputTokens | RequiredContextTokens | State
    | Payload | Orchestration | Artifacts | Labels
    | CreatedAt | UpdatedAt | AttemptCount | StartedAt | FinishedAt | NextAttemptAt | ResultJson | ErrorJson

  type Record = map<Column, Json>

  /** How instants, numbers and other values look as text, which characters are blank, and what time it is. */
  datatype Text = Text(printed: Instant -> string, parsed: string -> Instant, parse: string -> Option<int>,
                       shown: Json -> string, blank: char -> bool, now: Instant)
  {
    /** Whatever instant can be printed is read back. */
    ghost predicate Faithful() {
      forall t {:trigger printed(t)} | Timestamps.Printable(t) :: printed(t) != "" && parsed(printed(t)) == t
    }
  }

  function StateName(state: TaskState): string {
    match state
    case Submitted => "submitted" case Queued => "queued" case Allocating => "allocating"
    case Starting => "starting" case Warming => "warming" case Running => "running"
    case Succeeded => "succeeded" case Failed => "failed" case Cancelled => "cancelled"
    case Other(name) => name
  }

  function StateNamed(name: string): TaskState {
    if name == "submitted" then Submitted else if name == "queued" then Queued
    else if name == "allocating" then Allocating else if name == "starting" then Starting
    else if name == "warming" then Warming else if name == "running" then Running
    else if name == "succeeded" then Succeeded else if name == "failed" then Failed
    else if name == "cancelled" then Cancelled else Other(name)
  }

  /** The program's text: instants as Timestamps prints and reads them. */
  ghost function ProgramText(parse: string -> Option<int>, shown: Json -> string, blank: char -> bool,
                             now: Instant): (x: Text)
    ensures x.Faithful() && x.blank == blank
  {
    hide Timestamps.Printable, Timestamps.TextAt, Timestamps.ReadAt;
    assert forall t | Timestamps.Printable(t) ::
      Timestamps.TextAt(t) != "" && Timestamps.ReadAt(Timestamps.TextAt(t)) == t by {
      forall t | Timestamps.Printable(t)
        ensures Timestamps.TextAt(t) != "" && Timestamps.ReadAt(Timestamps.TextAt(t)) == t
      {
        Timestamps.InstantsSurvive(t, t);
      }
    }
    Text((t: Instant) => Timestamps.TextAt(t), (s: string) => Timestamps.ReadAt(s), parse, shown, blank, now)
  }

  // ---- writing ----------------------------------------------------------------------------

  function OrNull(v: Option<Json>): Json { if v.Some? then v.value else Null }

  function TimeOrNull(t: Option<Instant>, x: Text): Json { if t.Some? then Str(x.printed(t.value)) else Null }

  function Whole(n: int): Json { Num(n as real) }

  /** `to_record`. */
  function ToRecord(t: StoredTask, x: Text): Record {
    map c: Column :: Cell(t, c, x)
  }

  function Cell(t: StoredTask, c: Column, x: Text): Json {
    match c
    case TaskId => Str(t.id)
    case Tenant => Str(t.spec.tenant)
    case Project => Str(t.spec.project)
    case Service => Str(t.spec.service)
    case Task => Str(t.spec.task)
    case JobId => Str(t.spec.jobId)
    case IdempotencyKey => Str(t.spec.idempotencyKey)
    case Priority => Str(t.spec.priority)
    case Model => Str(t.spec.model)
    case Endpoint => Str(t.spec.endpoint)
    case EstimatedInputTokens => Whole(t.spec.estimatedInputTokens)
    case MaxOutputTokens => Whole(t.spec.maxOutputTokens)
    case RequiredContextTokens => Whole(t.spec.requiredContextTokens)
    case State => Str(StateName(t.state))
    case Payload => t.spec.payload
    case Orchestration => t.spec.orchestration
    case Artifacts => t.spec.artifacts
    case Labels => t.spec.labels
    case CreatedAt => Str(x.printed(t.createdAt))
    case UpdatedAt => Str(x.printed(t.updatedAt))
    case AttemptCount => Whole(t.attempts)
    case StartedAt => TimeOrNull(t.startedAt, x)
    case FinishedAt => TimeOrNull(t.finishedAt, x)
    case NextAttemptAt => TimeOrNull(t.nextAttemptAt, x)
    case ResultJson => OrNull(t.result)
    case ErrorJson => OrNull(t.error)
  }

  // ---- reading ----------------------------------------------------------------------------

  /** `record.get(key)`. */
  function At(r: Record, c: Column): Json { if c in r then r[c] else Null }

  /** `str.strip`. */
  function Strip(s: string, blank: char -> bool): (r: string)
    ensures r != "" ==> !blank(r[0]) && !blank(r[|r| - 1])
    ensures s != "" && !blank(s[0]) && !blank(s[|s| - 1]) ==> r == s
    ensures |r| <= |s|
  {
    if s == "" then ""
    else if blank(s[0]) then Strip(s[1..], blank)
    else if blank(s[|s| - 1]) then Strip(s[..|s| - 1], blank)
    else s
  }

  /** `string_value`. */
  function StringValue(v: Json, x: Text): Option<string> {
    if v.Str? && Strip(v.text, x.blank) != "" then Some(Strip(v.text, x.blank)) else None
  }

  /** `optional_string`. */
  function OptionalString(v: Json, x: Text): Option<string> {
    match v
    case Null => None
    case Str(s) => if s == "" then None else Some(s)
    case _ => Some(x.shown(v))
  }

  function OptionalTime(v: Json, x: Text): Option<Instant> {
    var s := OptionalString(v, x);
    if s.Some? then Some(x.parsed(s.value)) else None
  }

  /** `optional_mapping`. */
  function Mapping(v: Json): Option<Json> {
    match v
    case Null => Some(Obj([]))
    case Obj(_) => Some(v)
    case _ => None
  }

  /** `optional_mapping_or_none`. */
  function MappingOrNone(v: Json): Option<Option<Json>> {
    match v
    case Null => Some(None)
    case Obj(_) => Some(Some(v))
    case _ => None
  }

  /** `optional_positive_int(...) or default`, and with `least` zero `optional_non_negative_int(...) or default`. */
  function IntOr(v: Json, least: int, default_: int, x: Text): (r: Option<int>)
    ensures r.Some? ==> r.value >= least || r.value == default_
  {
    if v == Null || v == Str("") then Some(default_)
    else
      var n := TokenPolicy.AsInt(v, x.parse);
      if n.None? || n.value < least then None else Some(if n.value == 0 then default_ else n.value)
  }

  /** `record.get("state") or "queued"`. */
  function StateText(v: Json): Json {
    var empty := v == Null || v == Str("") || v == Bool(false) || v == Num(0.0) || v == Arr([]) || v == Obj([]);
    if empty then Str("queued") else v
  }

  predicate IsName(c: Column) {
    c.TaskId? || c.Tenant? || c.Project? || c.Service? || c.Task? || c.JobId? || c.IdempotencyKey? || c.Priority?
    || c.Model? || c.Endpoint?
  }

  predicate IsMapping(c: Column) { c.Payload? || c.Orchestration? || c.Artifacts? || c.Labels? }

  function StateOf(r: Record, x: Text): Option<TaskState> {
    var name := StringValue(StateText(At(r, State)), x);
    if name.Some? then Some(StateNamed(name.value)) else None
  }

  predicate NamesRead(r: Record, x: Text) { forall c: Column | IsName(c) :: StringValue(At(r, c), x).Some? }

  predicate MappingsRead(r: Record) {
    && (forall c: Column | IsMapping(c) :: Mapping(At(r, c)).Some?)
    && MappingOrNone(At(r, ResultJson)).Some? && MappingOrNone(At(r, ErrorJson)).Some?
  }

  predicate NumbersRead(r: Record, x: Text) {
    && IntOr(At(r, EstimatedInputTokens), 0, 0, x).Some? && IntOr(At(r, MaxOutputTokens), 1, 1024, x).Some?
    && IntOr(At(r, RequiredContextTokens), 1, 1, x).Some? && IntOr(At(r, AttemptCount), 0, 0, x).Some?
  }

  /** `from_record`; None stands for the protocol error. */
  function FromRecord(r: Record, x: Text): Option<StoredTask> {
    if !NamesRead(r, x) || !MappingsRead(r) || !NumbersRead(r, x) || StateOf(r, x).None? then None
    else Some(Parsed(r, x, StateOf(r, x).value))
  }

  function Name(r: Record, c: Column, x: Text): string
    requires IsName(c) && NamesRead(r, x)
  {
    StringValue(At(r, c), x).value
  }

  function Parsed(r: Record, x: Text, state: TaskState): StoredTask
    requires NamesRead(r, x) && MappingsRead(r) && NumbersRead(r, x)
  {
    hide StringValue, At, OptionalTime, Strip;
    assert IntOr(At(r, AttemptCount), 0, 0, x).value >= 0;
    hide IntOr;
    var created, updated := OptionalTime(At(r, CreatedAt), x), OptionalTime(At(r, UpdatedAt), x);
    StoredTask(Name(r, TaskId, x), ParsedSpec(r, x), state,
               if created.Some? then created.value else x.now, if updated.Some? then updated.value else x.now,
               IntOr(At(r, AttemptCount), 0, 0, x).value,
               OptionalTime(At(r, StartedAt), x), OptionalTime(At(r, FinishedAt), x),
               OptionalTime(At(r, NextAttemptAt), x),
               MappingOrNone(At(r, ResultJson)).value, MappingOrNone(At(r, ErrorJson)).value)
  }

  function ParsedSpec(r: Record, x: Text): QueueTask
    requires NamesRead(r, x) && MappingsRead(r) && NumbersRead(r, x)
  {
    QueueTask(Name(r, Tenant, x), Name(r, Project, x), Name(r, Service, x), Name(r, Task, x), Name(r, JobId, x),
              Name(r, IdempotencyKey, x), Name(r, Priority, x), Name(r, Model, x), Name(r, Endpoint, x),
              IntOr(At(r, EstimatedInputTokens), 0, 0, x).value, IntOr(At(r, MaxOutputTokens), 1, 1024, x).value,
              IntOr(At(r, RequiredContextTokens), 1, 1, x).value,
              Mapping(At(r, Payload)).value, Mapping(At(r, Orchestration)).value,
              Mapping(At(r, Artifacts)).value, Mapping(At(r, Labels)).value)
  }

  // ---- what can be read -------------------------------------------------------------------

  lemma {:induction false} StripLeaves(s: string, blank: char -> bool)
    ensures Strip(s, blank) != "" <==> exists i :: 0 <= i < |s| && !blank(s[i])
  {
    if s != "" && blank(s[0]) {
      StripLeaves(s[1..], blank);
      assert s == [s[0]] + s[1..];
      if i :| 0 <= i < |s| && !blank(s[i]) { assert s[1..][i - 1] == s[i]; }
      if i :| 0 <= i < |s[1..]| && !blank(s[1..][i]) { assert s[i + 1] == s[1..][i]; }
    } else if s != "" && blank(s[|s| - 1]) {
      assert !blank(s[0]);
      StripLeaves(s[..|s| - 1], blank);
      assert s[..|s| - 1][0] == s[0];
    } else if s != "" {
      assert !blank(s[0]);
    }
  }

  /** A text that does not consist of blanks only. */
  ghost predicate Named(v: Json, x: Text) { v.Str? && exists i :: 0 <= i < |v.text| && !x.blank(v.text[i]) }

  lemma {:induction false} NamedIff(v: Json, x: Text)
    ensures StringValue(v, x).Some? <==> Named(v, x)
  {
    if v.Str? { StripLeaves(v.text, x.blank); }
  }

  /** Nothing, an empty text, or a number that is not below the least. */
  predicate Countable(v: Json, least: int, x: Text) {
    || v == Null || v == Str("")
    || (TokenPolicy.AsInt(v, x.parse).Some? && TokenPolicy.AsInt(v, x.parse).value >= least)
  }

  predicate Mapped(v: Json) { v.Null? || v.Obj? }

  /** What Python takes for nothing. */
  predicate Falsy(v: Json) {
    v == Null || v == Str("") || v == Bool(false) || v == Num(0.0) || v == Arr([]) || v == Obj([])
  }

  /**
   * A record is read iff its ten names are texts and not blank, its mappings are objects if they are there at all, its
   * four numbers can be read and are not below their least, and its state is nothing or such a name.
   */
  lemma {:induction false} ReadIff(r: Record, x: Text)
    requires Letters(x)
    ensures FromRecord(r, x).Some? <==>
      && (forall c: Column | IsName(c) :: Named(At(r, c), x))
      && (forall c: Column | IsMapping(c) || c.ResultJson? || c.ErrorJson? :: Mapped(At(r, c)))
      && Countable(At(r, EstimatedInputTokens), 0, x) && Countable(At(r, AttemptCount), 0, x)
      && Countable(At(r, MaxOutputTokens), 1, x) && Countable(At(r, RequiredContextTokens), 1, x)
      && (Falsy(At(r, State)) || Named(At(r, State), x))
  {
    StateReadIff(At(r, State), x);
    forall v { NamedIff(v, x); }
    MappingsIff(r);
    NumbersIff(r, x);
    ReadParts(r, x);
    hide *;
  }

  lemma {:induction false} ReadParts(r: Record, x: Text)
    ensures FromRecord(r, x).Some? <==>
      && (forall c: Column | IsName(c) :: StringValue(At(r, c), x).Some?)
      && MappingsRead(r) && NumbersRead(r, x) && StringValue(StateText(At(r, State)), x).Some?
  {
    hide StringValue, At, IntOr, Mapping, MappingOrNone, StateText, Parsed;
  }

  lemma {:induction false} MappingsIff(r: Record)
    ensures MappingsRead(r) <==> forall c: Column | IsMapping(c) || c.ResultJson? || c.ErrorJson? :: Mapped(At(r, c))
  {
    hide At;
  }

  lemma {:induction false} NumbersIff(r: Record, x: Text)
    ensures NumbersRead(r, x) <==>
      && Countable(At(r, EstimatedInputTokens), 0, x) && Countable(At(r, AttemptCount), 0, x)
      && Countable(At(r, MaxOutputTokens), 1, x) && Countable(At(r, RequiredContextTokens), 1, x)
  {
    hide At;
  }

  lemma {:induction false} StateReadIff(v: Json, x: Text)
    requires Letters(x)
    ensures StringValue(StateText(v), x).Some? <==> Falsy(v) || Named(v, x)
    ensures Falsy(v) ==> StringValue(StateText(v), x) == Some("queued")
  {
    NamedIff(v, x);
    NameSurvivesIff("queued", x);
    assert "queued"[0] == 'q' && "queued"[5] == 'd';
    hide Strip;
  }

  /** Nothing but names is there; a number, a time or a state may be an empty text. */
  ghost predicate Bare(r: Record) {
    forall c: Column | !IsName(c) ::
      At(r, c) == Null || (!IsMapping(c) && !c.ResultJson? && !c.ErrorJson? && At(r, c) == Str(""))
  }

  /** A record that has nothing but its names is a task that has just been submitted, with the smallest numbers. */
  lemma {:induction false} BareRecord(r: Record, x: Text)
    requires Letters(x) && NamesRead(r, x)
    requires Bare(r)
    ensures FromRecord(r, x).Some?
    ensures var t := FromRecord(r, x).value;
      && t.state == Queued && t.attempts == 0 && t.createdAt == x.now && t.updatedAt == x.now
      && t.startedAt == None && t.finishedAt == None && t.nextAttemptAt == None && t.result == None && t.error == None
      && t.spec.estimatedInputTokens == 0 && t.spec.maxOutputTokens == 1024 && t.spec.requiredContextTokens == 1
      && t.spec.payload == Obj([]) && t.spec.orchestration == Obj([]) && t.spec.artifacts == Obj([])
      && t.spec.labels == Obj([])
  {
    StateReadIff(At(r, State), x);
    NothingCounts(x);
    hide At, IntOr, StringValue, StateText;
    assert StateNamed("queued") == Queued;
    ReadParts(r, x);
    BareParts(r, x);
    hide *;
  }

  lemma {:induction false} NothingCounts(x: Text)
    ensures forall v, least: int, default_: int | v == Null || v == Str("") ::
      IntOr(v, least, default_, x) == Some(default_)
    ensures OptionalTime(Null, x) == OptionalTime(Str(""), x) == None
  {
  }

  lemma {:induction false} BareParts(r: Record, x: Text)
    requires NamesRead(r, x) && Bare(r)
    requires forall v, least: int, default_: int | v == Null || v == Str("") ::
      IntOr(v, least, default_, x) == Some(default_)
    requires StateOf(r, x) == Some(Queued) && OptionalTime(Null, x) == OptionalTime(Str(""), x) == None
    ensures FromRecord(r, x).Some?
    ensures var t := FromRecord(r, x).value;
      && t.state == Queued && t.attempts == 0 && t.createdAt == x.now && t.updatedAt == x.now
      && t.startedAt == None && t.finishedAt == None && t.nextAttemptAt == None && t.result == None && t.error == None
      && t.spec.estimatedInputTokens == 0 && t.spec.maxOutputTokens == 1024 && t.spec.requiredContextTokens == 1
      && t.spec.payload == Obj([]) && t.spec.orchestration == Obj([]) && t.spec.artifacts == Obj([])
      && t.spec.labels == Obj([])
  {
    BareReads(r, x);
    BareSpec(r, x);
    BareTimes(r, x);
    assert FromRecord(r, x) == Some(Parsed(r, x, Queued)) by {
      hide NamesRead, MappingsRead, NumbersRead, Parsed, StateOf;
    }
    hide *;
  }

  lemma {:induction false} BareReads(r: Record, x: Text)
    requires NamesRead(r, x) && Bare(r)
    requires forall v, least: int, default_: int | v == Null || v == Str("") ::
      IntOr(v, least, default_, x) == Some(default_)
    ensures MappingsRead(r) && NumbersRead(r, x)
  {
    hide At, IntOr, NamesRead;
  }

  lemma {:induction false} BareSpec(r: Record, x: Text)
    requires NamesRead(r, x) && Bare(r)
    requires forall v, least: int, default_: int | v == Null || v == Str("") ::
      IntOr(v, least, default_, x) == Some(default_)
    requires MappingsRead(r) && NumbersRead(r, x)
    ensures var q := ParsedSpec(r, x);
      && q.estimatedInputTokens == 0 && q.maxOutputTokens == 1024 && q.requiredContextTokens == 1
      && q.payload == Obj([]) && q.orchestration == Obj([]) && q.artifacts == Obj([]) && q.labels == Obj([])
  {
    hide At, IntOr, NamesRead, MappingsRead, NumbersRead, Name;
  }

  lemma {:induction false} BareTimes(r: Record, x: Text)
    requires NamesRead(r, x) && Bare(r)
    requires forall v, least: int, default_: int | v == Null || v == Str("") ::
      IntOr(v, least, default_, x) == Some(default_)
    requires MappingsRead(r) && NumbersRead(r, x) && OptionalTime(Null, x) == OptionalTime(Str(""), x) == None
    ensures var t := Parsed(r, x, Queued);
      && t.spec == ParsedSpec(r, x)
      && t.state == Queued && t.attempts == 0 && t.createdAt == x.now && t.updatedAt == x.now
      && t.startedAt == None && t.finishedAt == None && t.nextAttemptAt == None && t.result == None && t.error == None
  {
    hide At, IntOr, NamesRead, MappingsRead, NumbersRead, Name, OptionalTime, ParsedSpec;
  }

  // ---- what survives ----------------------------------------------------------------------

  /** A name that reading leaves alone. */
  predicate Trimmed(s: string, blank: char -> bool) { s != "" && !blank(s[0]) && !blank(s[|s| - 1]) }

  predicate SpecFits(q: QueueTask, blank: char -> bool) {
    && Trimmed(q.tenant, blank) && Trimmed(q.project, blank) && Trimmed(q.service, blank) && Trimmed(q.task, blank)
    && Trimmed(q.jobId, blank) && Trimmed(q.idempotencyKey, blank) && Trimmed(q.priority, blank)
    && Trimmed(q.model, blank) && Trimmed(q.endpoint, blank)
    && q.estimatedInputTokens >= 0 && q.maxOutputTokens >= 1 && q.requiredContextTokens >= 1
    && q.payload.Obj? && q.orchestration.Obj? && q.artifacts.Obj? && q.labels.Obj?
  }

  /** A state that is not one of the nine has a name of its own. */
  predicate StateFits(state: TaskState, blank: char -> bool) {
    state.Other? ==>
      && Trimmed(state.name, blank)
      && state.name !in {"submitted", "queued", "allocating", "starting", "warming", "running", "succeeded", "failed",
                         "cancelled"}
  }

  /** Every instant of the task is one that the clock can show. */
  ghost predicate Dated(t: StoredTask) {
    && Timestamps.Printable(t.createdAt) && Timestamps.Printable(t.updatedAt)
    && Shown(t.startedAt) && Shown(t.finishedAt) && Shown(t.nextAttemptAt)
  }

  ghost predicate Shown(t: Option<Instant>) { t.Some? ==> Timestamps.Printable(t.value) }

  /** What every submitted task is and every recorded outcome keeps. */
  predicate Fits(t: StoredTask, blank: char -> bool) {
    && Trimmed(t.id, blank) && SpecFits(t.spec, blank) && StateFits(t.state, blank)
    && (t.result.Some? ==> t.result.value.Obj?) && (t.error.Some? ==> t.error.value.Obj?)
  }

  lemma {:induction false} NameSurvivesIff(s: string, x: Text)
    ensures StringValue(Str(s), x) == Some(s) <==> Trimmed(s, x.blank)
  {
  }

  lemma {:induction false} NumberSurvivesIff(n: int, least: int, default_: int, x: Text)
    requires 0 <= least <= 1 && (least == 0 ==> default_ == 0)
    ensures IntOr(Whole(n), least, default_, x) == Some(n) <==> n >= least
    ensures IntOr(Whole(n), least, default_, x).Some? <==> n >= least
  {
    TokenPolicy.Truncated(n);
  }

  lemma {:induction false} TimeSurvives(t: Option<Instant>, x: Text)
    requires x.Faithful() && Shown(t)
    ensures OptionalTime(TimeOrNull(t, x), x) == t
  {
    if t.Some? { TimeIs(t.value, x); }
  }

  lemma {:induction false} StateSurvivesIff(state: TaskState, x: Text)
    requires Letters(x)
    ensures var name := StringValue(StateText(Str(StateName(state))), x);
      (name.Some? && StateNamed(name.value) == state) <==> StateFits(state, x.blank)
  {
    if !state.Other? { NamesApart(state); }
    hide Strip;
    NameSurvivesIff(StateName(state), x);
  }

  lemma {:induction false} NamesApart(state: TaskState)
    requires !state.Other?
    ensures var name := StateName(state);
      && StateNamed(name) == state && name != "" && 'a' <= name[0] <= 'z' && 'a' <= name[|name| - 1] <= 'z'
  {
  }

  /** No letter is blank. */
  ghost predicate Letters(x: Text) { forall c | 'a' <= c <= 'z' :: !x.blank(c) }

  lemma {:induction false} CellsAre(t: StoredTask, x: Text)
    ensures forall c: Column :: At(ToRecord(t, x), c) == Cell(t, c, x)
  {
  }

  lemma {:induction false} NamesSurviveIff(t: StoredTask, x: Text, r: Record)
    requires forall c: Column :: At(r, c) == Cell(t, c, x)
    ensures NamesRead(r, x) ==>
      ((Name(r, TaskId, x) == t.id && Name(r, Tenant, x) == t.spec.tenant && Name(r, Project, x) == t.spec.project
        && Name(r, Service, x) == t.spec.service && Name(r, Task, x) == t.spec.task && Name(r, JobId, x) == t.spec.jobId
        && Name(r, IdempotencyKey, x) == t.spec.idempotencyKey && Name(r, Priority, x) == t.spec.priority
        && Name(r, Model, x) == t.spec.model && Name(r, Endpoint, x) == t.spec.endpoint)
       <==> NamesFit(t, x.blank))
    ensures NamesFit(t, x.blank) ==> NamesRead(r, x)
  {
    hide At, StringValue, Trimmed, Cell;
    forall c: Column | IsName(c)
      ensures Cell(t, c, x).Str?
        && (StringValue(At(r, c), x) == Some(Cell(t, c, x).text) <==> Trimmed(Cell(t, c, x).text, x.blank))
    {
      NameCell(t, c, x);
      NameSurvivesIff(Cell(t, c, x).text, x);
    }
    NameCells(t, x);
  }

  lemma {:induction false} NameCell(t: StoredTask, c: Column, x: Text)
    requires IsName(c)
    ensures Cell(t, c, x).Str?
  {
  }

  lemma {:induction false} NameCells(t: StoredTask, x: Text)
    ensures Cell(t, TaskId, x) == Str(t.id) && Cell(t, Tenant, x) == Str(t.spec.tenant)
      && Cell(t, Project, x) == Str(t.spec.project)
    ensures Cell(t, Service, x) == Str(t.spec.service) && Cell(t, Task, x) == Str(t.spec.task)
      && Cell(t, JobId, x) == Str(t.spec.jobId)
    ensures Cell(t, IdempotencyKey, x) == Str(t.spec.idempotencyKey) && Cell(t, Priority, x) == Str(t.spec.priority)
    ensures Cell(t, Model, x) == Str(t.spec.model) && Cell(t, Endpoint, x) == Str(t.spec.endpoint)
  {
  }

  predicate NamesFit(t: StoredTask, blank: char -> bool) {
    && Trimmed(t.id, blank) && Trimmed(t.spec.tenant, blank) && Trimmed(t.spec.project, blank)
    && Trimmed(t.spec.service, blank)
    && Trimmed(t.spec.task, blank) && Trimmed(t.spec.jobId, blank) && Trimmed(t.spec.idempotencyKey, blank)
    && Trimmed(t.spec.priority, blank) && Trimmed(t.spec.model, blank) && Trimmed(t.spec.endpoint, blank)
  }

  predicate NumbersFit(q: QueueTask) {
    q.estimatedInputTokens >= 0 && q.maxOutputTokens >= 1 && q.requiredContextTokens >= 1
  }

  lemma {:induction false} NumbersSurviveIff(t: StoredTask, x: Text, r: Record)
    requires forall c: Column :: At(r, c) == Cell(t, c, x)
    ensures NumbersRead(r, x) <==> NumbersFit(t.spec)
    ensures NumbersRead(r, x) ==>
      IntOr(At(r, EstimatedInputTokens), 0, 0, x) == Some(t.spec.estimatedInputTokens)
      && IntOr(At(r, MaxOutputTokens), 1, 1024, x) == Some(t.spec.maxOutputTokens)
      && IntOr(At(r, RequiredContextTokens), 1, 1, x) == Some(t.spec.requiredContextTokens)
      && IntOr(At(r, AttemptCount), 0, 0, x) == Some(t.attempts)
  {
    hide At, IntOr, Whole;
    NumberSurvivesIff(t.spec.estimatedInputTokens, 0, 0, x);
    NumberSurvivesIff(t.spec.maxOutputTokens, 1, 1024, x);
    NumberSurvivesIff(t.spec.requiredContextTokens, 1, 1, x);
    NumberSurvivesIff(t.attempts, 0, 0, x);
  }

  predicate MappingsFit(t: StoredTask) {
    && t.spec.payload.Obj? && t.spec.orchestration.Obj? && t.spec.artifacts.Obj? && t.spec.labels.Obj?
    && (t.result.Some? ==> t.result.value.Obj?) && (t.error.Some? ==> t.error.value.Obj?)
  }

  lemma {:induction false} MappingsSurviveIff(t: StoredTask, x: Text, r: Record)
    requires forall c: Column :: At(r, c) == Cell(t, c, x)
    ensures MappingsFit(t) ==> MappingsRead(r)
    ensures MappingsRead(r) ==>
      (MappingsFit(t) <==>
       (Mapping(At(r, Payload)) == Some(t.spec.payload) && Mapping(At(r, Orchestration)) == Some(t.spec.orchestration)
        && Mapping(At(r, Artifacts)) == Some(t.spec.artifacts) && Mapping(At(r, Labels)) == Some(t.spec.labels)
        && MappingOrNone(At(r, ResultJson)) == Some(t.result) && MappingOrNone(At(r, ErrorJson)) == Some(t.error)))
  {
    MappingCells(t, x);
    hide At, Cell, Mapping, MappingOrNone, OrNull;
    forall v: Json { MappingIs(v); }
    MaybeMappingIs(t.result);
    MaybeMappingIs(t.error);
  }

  lemma {:induction false} MappingCells(t: StoredTask, x: Text)
    ensures Cell(t, Payload, x) == t.spec.payload && Cell(t, Orchestration, x) == t.spec.orchestration
    ensures Cell(t, Artifacts, x) == t.spec.artifacts && Cell(t, Labels, x) == t.spec.labels
    ensures Cell(t, ResultJson, x) == OrNull(t.result) && Cell(t, ErrorJson, x) == OrNull(t.error)
  {
  }

  lemma {:induction false} MappingIs(v: Json)
    ensures Mapping(v) == Some(v) <==> v.Obj?
  {
  }

  lemma {:induction false} MaybeMappingIs(v: Option<Json>)
    ensures MappingOrNone(OrNull(v)) == Some(v) <==> (v.Some? ==> v.value.Obj?)
  {
  }

  lemma {:induction false} TimesSurvive(t: StoredTask, x: Text, r: Record)
    requires x.Faithful() && Dated(t) && forall c: Column :: At(r, c) == Cell(t, c, x)
    ensures OptionalTime(At(r, CreatedAt), x) == Some(t.createdAt)
      && OptionalTime(At(r, UpdatedAt), x) == Some(t.updatedAt)
    ensures OptionalTime(At(r, StartedAt), x) == t.startedAt && OptionalTime(At(r, FinishedAt), x) == t.finishedAt
    ensures OptionalTime(At(r, NextAttemptAt), x) == t.nextAttemptAt
  {
    hide At, OptionalTime, TimeOrNull, Timestamps.Printable, Text.Faithful;
    TimeSurvives(t.startedAt, x);
    TimeSurvives(t.finishedAt, x);
    TimeSurvives(t.nextAttemptAt, x);
    TimeIs(t.createdAt, x);
    TimeIs(t.updatedAt, x);
  }

  lemma {:induction false} TimeIs(t: Instant, x: Text)
    requires x.Faithful() && Timestamps.Printable(t)
    ensures OptionalTime(Str(x.printed(t)), x) == Some(t)
  {
    hide Timestamps.Printable;
  }

  /** Writing a task and reading it back is the identity exactly for the tasks that fit. */
  lemma {:induction false} RecordRoundTripIff(t: StoredTask, x: Text)
    requires x.Faithful() && Letters(x) && Dated(t)
    ensures FromRecord(ToRecord(t, x), x) == Some(t) <==> Fits(t, x.blank)
  {
    CellsAre(t, x);
    var r := ToRecord(t, x);
    StateReads(t, x, r);
    FitsIs(t, x.blank);
    NamesSurviveIff(t, x, r);
    NumbersSurviveIff(t, x, r);
    MappingsSurviveIff(t, x, r);
    TimesSurvive(t, x, r);
    hide ToRecord, At, StateOf, NamesRead, NumbersRead, MappingsRead, Name, IntOr, Mapping, MappingOrNone, OptionalTime,
      Fits, NamesFit, NumbersFit, MappingsFit, StateFits, Cell, Dated, Text.Faithful, Letters;
  }

  lemma {:induction false} FitsIs(t: StoredTask, blank: char -> bool)
    ensures Fits(t, blank) <==> NamesFit(t, blank) && NumbersFit(t.spec) && MappingsFit(t) && StateFits(t.state, blank)
  {
    hide Trimmed, StateFits;
  }

  lemma {:induction false} StateReads(t: StoredTask, x: Text, r: Record)
    requires Letters(x) && At(r, State) == Cell(t, State, x)
    ensures StateOf(r, x) == Some(t.state) <==> StateFits(t.state, x.blank)
  {
    hide At, StringValue, StateNamed, StateText, StateName, StateFits;
    StateSurvivesIff(t.state, x);
  }

  /** Whatever is read fits, so it comes back from then on. */
  lemma {:induction false} ReadFits(r: Record, x: Text)
    ensures FromRecord(r, x).Some? ==> Fits(FromRecord(r, x).value, x.blank)
  {
    hide *;
    if FromRecord(r, x).Some? {
      ReadIsParsed(r, x);
      var state := StateOf(r, x).value;
      StateIsRead(r, x);
      ParsedParts(r, x, state);
      FitsIs(Parsed(r, x, state), x.blank);
    }
  }

  lemma {:induction false} ReadIsParsed(r: Record, x: Text)
    requires FromRecord(r, x).Some?
    ensures NamesRead(r, x) && MappingsRead(r) && NumbersRead(r, x) && StateOf(r, x).Some?
    ensures FromRecord(r, x) == Some(Parsed(r, x, StateOf(r, x).value))
  {
    hide NamesRead, MappingsRead, NumbersRead, StateOf, Parsed;
  }

  lemma {:induction false} StateIsRead(r: Record, x: Text)
    requires StateOf(r, x).Some?
    ensures StateFits(StateOf(r, x).value, x.blank)
  {
    hide At, StateText, Strip;
  }

  lemma {:induction false} ParsedParts(r: Record, x: Text, state: TaskState)
    requires NamesRead(r, x) && MappingsRead(r) && NumbersRead(r, x)
    ensures var t := Parsed(r, x, state);
      t.state == state && NamesFit(t, x.blank) && NumbersFit(t.spec) && MappingsFit(t)
  {
    ParsedColumns(r, x, state);
    NamesAreTrimmed(r, x);
    NumbersAreRight(r, x);
    MappingsAreObjects(r);
    hide At, StringValue, OptionalTime, Trimmed, Strip, Name, IntOr, Mapping, MappingOrNone, NamesRead, NumbersRead,
      MappingsRead,
      Parsed, ParsedSpec;
  }

  /** Each field comes from its own column. */
  lemma {:induction false} ParsedColumns(r: Record, x: Text, state: TaskState)
    requires NamesRead(r, x) && MappingsRead(r) && NumbersRead(r, x)
    ensures var t := Parsed(r, x, state);
      && t.state == state && t.id == Name(r, TaskId, x) && t.spec == ParsedSpec(r, x)
      && t.result == MappingOrNone(At(r, ResultJson)).value && t.error == MappingOrNone(At(r, ErrorJson)).value
    ensures var q := ParsedSpec(r, x);
      && q.tenant == Name(r, Tenant, x) && q.project == Name(r, Project, x) && q.service == Name(r, Service, x)
      && q.task == Name(r, Task, x) && q.jobId == Name(r, JobId, x) && q.idempotencyKey == Name(r, IdempotencyKey, x)
      && q.priority == Name(r, Priority, x) && q.model == Name(r, Model, x) && q.endpoint == Name(r, Endpoint, x)
      && q.estimatedInputTokens == IntOr(At(r, EstimatedInputTokens), 0, 0, x).value
      && q.maxOutputTokens == IntOr(At(r, MaxOutputTokens), 1, 1024, x).value
      && q.requiredContextTokens == IntOr(At(r, RequiredContextTokens), 1, 1, x).value
      && q.payload == Mapping(At(r, Payload)).value && q.orchestration == Mapping(At(r, Orchestration)).value
      && q.artifacts == Mapping(At(r, Artifacts)).value && q.labels == Mapping(At(r, Labels)).value
  {
    hide At, StringValue, OptionalTime, Strip, Name, IntOr, Mapping, MappingOrNone;
  }

  lemma {:induction false} NumbersAreRight(r: Record, x: Text)
    requires NumbersRead(r, x)
    ensures IntOr(At(r, EstimatedInputTokens), 0, 0, x).value >= 0
      && IntOr(At(r, MaxOutputTokens), 1, 1024, x).value >= 1
    ensures IntOr(At(r, RequiredContextTokens), 1, 1, x).value >= 1
  {
    hide At, IntOr;
  }

  lemma {:induction false} MappingsAreObjects(r: Record)
    requires MappingsRead(r)
    ensures forall c: Column | IsMapping(c) :: Mapping(At(r, c)).value.Obj?
    ensures forall c: Column | c.ResultJson? || c.ErrorJson? ::
      MappingOrNone(At(r, c)).Some?
      && (MappingOrNone(At(r, c)).value.Some? ==> MappingOrNone(At(r, c)).value.value.Obj?)
  {
    hide At;
  }

  lemma {:induction false} NamesAreTrimmed(r: Record, x: Text)
    requires NamesRead(r, x)
    ensures forall c: Column | IsName(c) :: Trimmed(Name(r, c, x), x.blank)
  {
    hide At;
  }

  // ---- files of records -------------------------------------------------------------------

  function WriteAll(tasks: seq<StoredTask>, x: Text): seq<Record> {
    seq(|tasks|, i requires 0 <= i < |tasks| => ToRecord(tasks[i], x))
  }

  predicate AllRead(file: seq<Record>, x: Text) { forall i | 0 <= i < |file| :: FromRecord(file[i], x).Some? }

  /** `_load_from_disk` before `_load_tasks`: one bad record refuses the file. */
  function ReadAll(file: seq<Record>, x: Text): (r: Option<seq<StoredTask>>)
    ensures r.Some? <==> AllRead(file, x)
    ensures r.Some? ==> |r.value| == |file| && forall i | 0 <= i < |file| :: FromRecord(file[i], x) == Some(r.value[i])
  {
    hide FromRecord;
    if !AllRead(file, x) then None
    else Some(seq(|file|, i requires 0 <= i < |file| && AllRead(file, x) => FromRecord(file[i], x).value))
  }

  /** A task that comes back from its record. */
  ghost predicate Storable(t: StoredTask, blank: char -> bool) { Fits(t, blank) && Dated(t) }

  ghost predicate AllFit(s: TaskStore.Store, blank: char -> bool) {
    forall id | id in s.tasks.items :: Storable(s.tasks.items[id], blank)
  }

  /** Tasks come back from their records iff every one of them fits. */
  lemma {:induction false} FileRoundTripIff(tasks: seq<StoredTask>, x: Text)
    requires x.Faithful() && Letters(x) && forall t | t in tasks :: Dated(t)
    ensures ReadAll(WriteAll(tasks, x), x) == Some(tasks) <==> forall t | t in tasks :: Fits(t, x.blank)
  {
    hide ToRecord, FromRecord, Fits, Dated, Text.Faithful, Letters, ReadAll;
    var file := WriteAll(tasks, x);
    forall i | 0 <= i < |tasks| ensures FromRecord(file[i], x) == Some(tasks[i]) <==> Fits(tasks[i], x.blank) {
      RecordRoundTripIff(tasks[i], x);
    }
    if forall t | t in tasks :: Fits(t, x.blank) {
      assert ReadAll(file, x).Some?;
      assert ReadAll(file, x).value == tasks;
    }
  }

  /** Events that submit what the protocol accepts and record JSON objects. */
  ghost predicate Proper(e: StoreRuns.Event, now: Instant, blank: char -> bool) {
    Timestamps.Printable(now) &&
    match e
    case Submit(batch, stamps) =>
      (forall q | q in batch :: SpecFits(q, blank)) && (forall stamp | stamp in stamps :: StampFits(stamp, blank))
    case Complete(_, value) => value.Obj?
    case Fail(_, value) => value.Obj?
    case Retry(_, value, next) => value.Obj? && Timestamps.Printable(next)
    case _ => true
  }

  ghost predicate StampFits(stamp: TaskStore.Stamp, blank: char -> bool) {
    Trimmed(stamp.id, blank) && Timestamps.Printable(stamp.created) && Timestamps.Printable(stamp.updated)
  }

  lemma {:induction false} SubmitFits(s: TaskStore.Store, batch: seq<QueueTask>, stamps: seq<TaskStore.Stamp>,
                                      blank: char -> bool)
    requires |batch| == |stamps| && AllFit(s, blank)
    requires (forall q | q in batch :: SpecFits(q, blank))
      && (forall stamp | stamp in stamps :: StampFits(stamp, blank))
    ensures AllFit(TaskStore.SubmitAll(s, batch, stamps), blank)
  {
    hide SpecFits, StampFits, Storable;
    if batch != [] {
      var n := |batch| - 1;
      SubmitFits(s, batch[..n], stamps[..n], blank);
      assert batch[n] in batch && stamps[n] in stamps;
      NewFits(batch[n], stamps[n], blank);
    }
  }

  lemma {:induction false} NewFits(q: QueueTask, stamp: TaskStore.Stamp, blank: char -> bool)
    requires SpecFits(q, blank) && StampFits(stamp, blank)
    ensures Storable(TaskStore.NewTask(q, stamp), blank) && TaskStore.NewTask(q, stamp).id == stamp.id
  {
    hide SpecFits, Trimmed, Timestamps.Printable;
  }

  lemma {:induction false} WrittenFits(t: StoredTask, e: StoreRuns.Event, now: Instant, blank: char -> bool)
    requires Storable(t, blank) && Proper(e, now, blank)
    ensures Storable(StoreRuns.Written(t, e, now), blank)
  {
    hide SpecFits, Trimmed, Timestamps.Printable, StateNamed;
  }

  lemma {:induction false} UpdateFits(s: TaskStore.Store, t: StoredTask, blank: char -> bool)
    requires AllFit(s, blank) && Storable(t, blank)
    ensures AllFit(s.Update(t), blank)
  {
    hide Storable;
  }

  lemma {:induction false} ProperBatch(e: StoreRuns.Event, now: Instant, blank: char -> bool)
    requires Proper(e, now, blank) && e.Submit?
    ensures (forall q | q in e.batch :: SpecFits(q, blank))
      && (forall stamp | stamp in e.stamps :: StampFits(stamp, blank))
  {
  }

  lemma {:induction false} RestartFits(s: TaskStore.Store, blank: char -> bool)
    requires s.Consistent() && AllFit(s, blank)
    ensures AllFit(TaskStore.Load(TaskStore.Save(s)), blank)
  {
    TaskStore.SaveRestores(s);
    hide TaskStore.Store.Consistent, Storable, TaskStore.Load, TaskStore.Save;
  }

  lemma {:induction false} StepFits(s: TaskStore.Store, e: StoreRuns.Event, now: Instant, blank: char -> bool)
    requires s.Consistent() && StoreRuns.Enabled(s, e, now) && AllFit(s, blank) && Proper(e, now, blank)
    ensures AllFit(StoreRuns.Apply(s, e, now), blank)
  {
    StoreRuns.ApplyIs(s, e, now);
    assert forall id | id in s.tasks.items :: Storable(s.tasks.items[id], blank);
    hide *;
    if e.Submit? {
      ProperBatch(e, now, blank);
      SubmitFits(s, e.batch, e.stamps, blank);
    } else if e.Restart? {
      RestartFits(s, blank);
    } else if StoreRuns.Target(e).value in s.tasks.items {
      var t := s.tasks.items[StoreRuns.Target(e).value];
      WrittenFits(t, e, now, blank);
      UpdateFits(s, StoreRuns.Written(t, e, now), blank);
    }
  }

  /** In any proper history, at any point, the file that is on disk brings back the very store. */
  lemma {:induction false} HistoryIsRecorded(r: StoreRuns.Run, i: nat, x: Text)
    requires StoreRuns.IsRun(r) && i < |r.states| && x.Faithful() && Letters(x)
    requires AllFit(r.states[0], x.blank) && forall n | 0 <= n < |r.events| == |r.times| ::
      Proper(r.events[n], r.times[n], x.blank)
    ensures r.states[i].Consistent() && AllFit(r.states[i], x.blank)
    ensures var file := WriteAll(TaskStore.Save(r.states[i]), x); var read := ReadAll(file, x);
      && read.Some?
      && TaskStore.Load(read.value).tasks.items == r.states[i].tasks.items
      && TaskStore.Load(read.value).index == r.states[i].index
  {
    hide Fits, Dated, Text.Faithful, Letters, ToRecord, FromRecord, Proper, StoreRuns.Apply, StoreRuns.Enabled,
      TaskStore.Store.Consistent,
      WriteAll, ReadAll;
    AlwaysFits(r, i, x.blank);
    StoreRuns.RunConsistent(r, i);
    var s := r.states[i];
    SavedFit(s, x.blank);
    FileRoundTripIff(TaskStore.Save(s), x);
    TaskStore.SaveRestores(s);
  }

  lemma {:induction false} SavedFit(s: TaskStore.Store, blank: char -> bool)
    requires s.Consistent() && AllFit(s, blank)
    ensures forall t | t in TaskStore.Save(s) :: Fits(t, blank) && Dated(t)
  {
    TaskStore.RowsIdentify(s);
    Seqs.SortKeeps(s.Rows(), TaskStore.IdLess);
    hide Fits, Dated, TaskStore.Store.Rows, TaskStore.Store.Consistent, Seqs.Sort;
  }

  lemma {:induction false} AlwaysFits(r: StoreRuns.Run, i: nat, blank: char -> bool)
    requires StoreRuns.IsRun(r) && i < |r.states|
    requires AllFit(r.states[0], blank) && forall n | 0 <= n < |r.events| == |r.times| ::
      Proper(r.events[n], r.times[n], blank)
    ensures AllFit(r.states[i], blank)
  {
    hide *;
    if i > 0 {
      RunSteps(r, i - 1);
      AlwaysFits(r, i - 1, blank);
      assert Proper(r.events[i - 1], r.times[i - 1], blank);
      StepFits(r.states[i - 1], r.events[i - 1], r.times[i - 1], blank);
    }
  }

  lemma {:induction false} RunSteps(r: StoreRuns.Run, i: nat)
    requires StoreRuns.IsRun(r) && i < |r.states| - 1
    ensures i < |r.events| == |r.times| && |r.states| == |r.events| + 1
    ensures r.states[i].Consistent() && StoreRuns.Enabled(r.states[i], r.events[i], r.times[i])
    ensures r.states[i + 1] == StoreRuns.Apply(r.states[i], r.events[i], r.times[i])
  {
    assert StoreRuns.Steps(r, i);
    hide StoreRuns.Apply, StoreRuns.Enabled, TaskStore.Store.Consistent;
  }
}
