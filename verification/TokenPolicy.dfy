/** The token budget of a request, and the overrides a client may send with it. */
module TokenPolicy {
  import opened Wrappers
  import opened JsonValues

  /** The limits of a model; `reject` is the behaviour for outputs over the limit, otherwise they are clamped. */
  datatype Policy = Policy(
    maxActive: int, maxQueued: int, timeout: real, defaultOutput: int, maxInput: int,
    maxOutput: int, maxTotal: int, charsPerToken: real, reject: bool)

  datatype Error = InputTooLarge | BadNumber | OutputTooLarge | NoRoom

  type Payload = map<string, Json>

  // ---- input estimate ---------------------------------------------------------------------

  const TEXT_KEYS := ["messages", "input", "prompt", "content", "text"]

  function Lines(parts: seq<string>): string {
    if parts == [] then "" else if |parts| == 1 then parts[0] else parts[0] + "\n" + Lines(parts[1..])
  }

  /** `collect_input_text`, with the printed form of numbers and booleans as a parameter. */
  function InputText(v: Json, printed: Json -> string): string
    decreases v, 1, 0
  {
    match v
    case Null => ""
    case Str(s) => s
    case Arr(elements) => Lines(ElementTexts(v, 0, printed))
    case Obj(fields) => Lines(KeyTexts(v, TEXT_KEYS, printed))
    case _ => printed(v)
  }

  function ElementTexts(v: Json, from: nat, printed: Json -> string): seq<string>
    requires v.Arr? && from <= |v.elements|
    decreases v, 0, |v.elements| - from
  {
    if from == |v.elements| then []
    else [InputText(v.elements[from], printed)] + ElementTexts(v, from + 1, printed)
  }

  function KeyTexts(v: Json, keys: seq<string>, printed: Json -> string): seq<string>
    requires v.Obj?
    decreases v, 0, |keys|
  {
    if keys == [] then []
    else
      var value := Get(v.fields, keys[0]);
      if value.Some? then [InputText(value.value, printed)] + KeyTexts(v, keys[1..], printed)
      else KeyTexts(v, keys[1..], printed)
  }

  function PayloadTexts(payload: Payload, keys: seq<string>, printed: Json -> string): seq<string> {
    if keys == [] then []
    else if keys[0] in payload then [InputText(payload[keys[0]], printed)] + PayloadTexts(payload, keys[1..], printed)
    else PayloadTexts(payload, keys[1..], printed)
  }

  // ---- what the estimate counts -----------------------------------------------------------

  ghost predicate Inside(part: string, whole: string) { exists i :: StandsAt(part, whole, i) }

  predicate StandsAt(part: string, whole: string, i: int) {
    0 <= i && i + |part| <= |whole| && whole[i..i + |part|] == part
  }

  lemma {:induction false} InsideAt(before: string, part: string, after: string)
    ensures Inside(part, before + part + after)
  {
    assert (before + part + after)[|before|..|before| + |part|] == part;
    assert StandsAt(part, before + part + after, |before|);
  }

  lemma {:induction false} InsideTwice(a: string, b: string, c: string)
    requires Inside(a, b) && Inside(b, c)
    ensures Inside(a, c)
  {
    var i :| StandsAt(a, b, i);
    var j :| StandsAt(b, c, j);
    forall n | 0 <= n < |a| ensures c[j + i..j + i + |a|][n] == a[n] {
      assert a[n] == b[i..i + |a|][n] && b[i + n] == c[j..j + |b|][i + n];
    }
    assert c[j + i..j + i + |a|] == a;
    assert StandsAt(a, c, j + i);
  }

  /** Joining keeps every part, and adds one character between two of them. */
  lemma {:induction false} LinesKeep(parts: seq<string>, i: nat)
    requires i < |parts|
    ensures Inside(parts[i], Lines(parts))
    ensures |Lines(parts)| == Sizes(parts) + |parts| - 1
  {
    if |parts| == 1 {
      InsideAt("", parts[0], "");
      assert "" + parts[0] + "" == parts[0];
      assert Sizes(parts[1..]) == 0;
    } else {
      var rest := Lines(parts[1..]);
      LinesKeep(parts[1..], if i > 0 then i - 1 else 0);
      if i == 0 {
        InsideAt("", parts[0], "\n" + rest);
        assert "" + parts[0] + ("\n" + rest) == Lines(parts);
      } else {
        InsideAt(parts[0] + "\n", rest, "");
        assert parts[0] + "\n" + rest + "" == Lines(parts);
        InsideTwice(parts[i], rest, Lines(parts));
      }
    }
  }

  function Sizes(parts: seq<string>): nat { if parts == [] then 0 else |parts[0]| + Sizes(parts[1..]) }

  /** A value inside another one: an element of a list, or what an object has under one of the text keys. */
  ghost predicate Within(v: Json, w: Json)
    decreases v
  {
    || w == v
    || (v.Arr? && exists i :: 0 <= i < |v.elements| && Within(v.elements[i], w))
    || (v.Obj? && exists k :: k in TEXT_KEYS && Get(v.fields, k).Some? && Within(Get(v.fields, k).value, w))
  }

  /** Whatever is inside a value counts with its whole text. */
  lemma {:induction false} NothingEscapes(v: Json, w: Json, printed: Json -> string)
    requires Within(v, w)
    ensures Inside(InputText(w, printed), InputText(v, printed))
    decreases v
  {
    var text := InputText(v, printed);
    if w == v {
      InsideAt("", text, "");
      assert "" + text + "" == text;
    } else if v.Arr? {
      var i :| 0 <= i < |v.elements| && Within(v.elements[i], w);
      NothingEscapes(v.elements[i], w, printed);
      ElementText(v, 0, i, printed);
      LinesKeep(ElementTexts(v, 0, printed), i);
      InsideTwice(InputText(w, printed), InputText(v.elements[i], printed), text);
    } else {
      var k :| k in TEXT_KEYS && Get(v.fields, k).Some? && Within(Get(v.fields, k).value, w);
      NothingEscapes(Get(v.fields, k).value, w, printed);
      var i := KeyText(v, TEXT_KEYS, k, printed);
      LinesKeep(KeyTexts(v, TEXT_KEYS, printed), i);
      InsideTwice(InputText(w, printed), InputText(Get(v.fields, k).value, printed), text);
    }
  }

  lemma {:induction false} ElementText(v: Json, from: nat, i: nat, printed: Json -> string)
    requires v.Arr? && from <= i < |v.elements|
    ensures |ElementTexts(v, from, printed)| == |v.elements| - from
    ensures ElementTexts(v, from, printed)[i - from] == InputText(v.elements[i], printed)
    decreases |v.elements| - from
  {
    if from + 1 < |v.elements| {
      ElementText(v, from + 1, if i > from then i else from + 1, printed);
    } else {
      assert ElementTexts(v, from + 1, printed) == [];
    }
  }

  lemma {:induction false} KeyText(v: Json, keys: seq<string>, k: string, printed: Json -> string) returns (i: nat)
    requires v.Obj? && k in keys && Get(v.fields, k).Some?
    ensures i < |KeyTexts(v, keys, printed)|
    ensures KeyTexts(v, keys, printed)[i] == InputText(Get(v.fields, k).value, printed)
  {
    if keys[0] == k {
      i := 0;
    } else {
      var j := KeyText(v, keys[1..], k, printed);
      i := if Get(v.fields, keys[0]).Some? then j + 1 else j;
    }
  }

  lemma {:induction false} PayloadText(payload: Payload, keys: seq<string>, k: string, printed: Json -> string)
    returns (i: nat)
    requires k in keys && k in payload
    ensures i < |PayloadTexts(payload, keys, printed)|
    ensures PayloadTexts(payload, keys, printed)[i] == InputText(payload[k], printed)
  {
    if keys[0] == k {
      i := 0;
    } else {
      var j := PayloadText(payload, keys[1..], k, printed);
      i := if keys[0] in payload then j + 1 else j;
    }
  }

  /** So no text of a request escapes the estimate: it is at least the quotient of any one of them, rounded down. */
  lemma {:induction false} EstimateCovers(payload: Payload, k: string, s: string, charsPerToken: real,
                                          printed: Json -> string)
    requires charsPerToken > 0.0 && k in {"messages", "input", "prompt", "content", "text"}
    requires k in payload && Within(payload[k], Str(s))
    ensures Estimate(payload, charsPerToken, printed) as real + 0.5 >= |s| as real / charsPerToken
  {
    TextKeysAre(k);
    NothingEscapes(payload[k], Str(s), printed);
    var parts := PayloadTexts(payload, TEXT_KEYS, printed);
    var i := PayloadText(payload, TEXT_KEYS, k, printed);
    LinesKeep(parts, i);
    InsideTwice(s, parts[i], Lines(parts));
    var whole := |Lines(parts)| as real;
    assert whole >= |s| as real;
    Quotients(|s| as real, whole, charsPerToken);
    RoundIs(whole / charsPerToken, Round(whole / charsPerToken));
    hide InputText, PayloadTexts, Lines, Within, Round;
  }

  lemma {:induction false} TextKeysAre(k: string)
    requires k in {"messages", "input", "prompt", "content", "text"}
    ensures k in TEXT_KEYS
  {
    assert TEXT_KEYS[0] == "messages" && TEXT_KEYS[1] == "input" && TEXT_KEYS[2] == "prompt"
      && TEXT_KEYS[3] == "content" && TEXT_KEYS[4] == "text";
  }

  lemma {:induction false} Quotients(a: real, b: real, c: real)
    requires 0.0 <= a <= b && c > 0.0
    ensures 0.0 <= a / c <= b / c
  {
  }

  // ---- rounding ---------------------------------------------------------------------------

  /** Python's `round`: half goes to the even neighbour. */
  function Round(x: real): int {
    var f := x.Floor;
    if x - f as real < 0.5 then f else if x - f as real > 0.5 then f + 1 else if f % 2 == 0 then f else f + 1
  }

  /** `estimate_input_tokens`. */
  function Estimate(payload: Payload, charsPerToken: real, printed: Json -> string): int
    requires charsPerToken != 0.0
  {
    var text := Lines(PayloadTexts(payload, TEXT_KEYS, printed));
    if text == "" then 0 else Max(1, Round(|text| as real / charsPerToken))
  }

  /** The nearest integer, and of two nearest ones the even one. */
  lemma {:induction false} RoundIs(x: real, n: int)
    ensures n == Round(x) <==>
      (-0.5 < x - n as real < 0.5) || (n % 2 == 0 && (x - n as real == 0.5 || x - n as real == -0.5))
  {
  }

  /** The estimate is at least one for any text, and none only for no text; above that it is the nearest quotient. */
  lemma {:induction false} EstimateIs(payload: Payload, charsPerToken: real, printed: Json -> string)
    requires charsPerToken > 0.0
    ensures var size := |Lines(PayloadTexts(payload, TEXT_KEYS, printed))|;
      var e := Estimate(payload, charsPerToken, printed);
      && (e == 0 <==> size == 0) && e >= 0
      && (e >= 2 ==> -0.5 <= size as real / charsPerToken - e as real <= 0.5)
      && (e == 1 <==> size > 0 && size as real / charsPerToken < 1.5)
  {
    hide PayloadTexts, Lines;
    var size := |Lines(PayloadTexts(payload, TEXT_KEYS, printed))|;
    RoundIs(size as real / charsPerToken, Round(size as real / charsPerToken));
  }

  function Max(a: int, b: int): int { if a > b then a else b }

  function Min(a: int, b: int): int { if a < b then a else b }

  // ---- output limit -----------------------------------------------------------------------

  const META := "_orchestrator"

  function OutputKey(payload: Payload): string {
    if "max_completion_tokens" in payload then "max_completion_tokens"
    else if "max_output_tokens" in payload then "max_output_tokens"
    else "max_tokens"
  }

  function Truncate(x: real): int { if x >= 0.0 then x.Floor else -((-x).Floor) }

  /** `int(value)`; how a text is read is a parameter. */
  function AsInt(v: Json, parse: string -> Option<int>): Option<int> {
    match v
    case Num(x) => Some(Truncate(x))
    case Bool(b) => Some(if b then 1 else 0)
    case Str(s) => parse(s)
    case _ => None
  }

  /** An explicit request is a value other than null under the output key. */
  predicate Explicit(payload: Payload) { OutputKey(payload) in payload && payload[OutputKey(payload)] != Null }

  /** What the request asks for; None when it cannot be read as a number. */
  function Requested(payload: Payload, policy: Policy, parse: string -> Option<int>): Option<int> {
    if Explicit(payload) then AsInt(payload[OutputKey(payload)], parse) else Some(policy.defaultOutput)
  }

  /** Who gets in, said in one condition. */
  predicate Admits(policy: Policy, input: int, requested: int) {
    && input <= policy.maxInput
    && (policy.reject ==> requested <= policy.maxOutput)
    && input < policy.maxTotal
  }

  /** What an admitted request gets. */
  function Granted(policy: Policy, input: int, requested: int): int {
    Min(requested, Min(policy.maxOutput, policy.maxTotal - input))
  }

  function Meta(input: int, output: int, capped: bool): Json {
    Obj([Field("estimated_input_tokens", Num(input as real)), Field("effective_output_tokens", Num(output as real)),
         Field("output_tokens_capped", Bool(capped))])
  }

  /** The payload that is sent on: the limit is written where the policy decided it, otherwise left as it came. */
  function Rewritten(payload: Payload, input: int, requested: int, granted: int): Payload {
    var limited :=
      if granted < requested || !Explicit(payload)
      then payload[OutputKey(payload) := Num(granted as real)] else payload;
    limited[META := Meta(input, granted, granted < requested)]
  }

  /** `apply_token_policy`. */
  method ApplyTokenPolicy(payload: Payload, policy: Policy, printed: Json -> string, parse: string -> Option<int>)
    returns (r: Result<Payload, Error>)
    requires policy.charsPerToken != 0.0
    ensures r == Applied(payload, policy, printed, parse)
  {
    var updated := payload;
    var input := Estimate(updated, policy.charsPerToken, printed);
    var key := OutputKey(updated);
    var capped := false;
    if input > policy.maxInput { return Failure(InputTooLarge); }
    var requested;
    if key !in updated || updated[key] == Null {
      requested := policy.defaultOutput;
      updated := updated[key := Num(requested as real)];
    } else {
      var parsed := AsInt(updated[key], parse);
      if parsed.None? { return Failure(BadNumber); }
      requested := parsed.value;
    }
    ghost var asked := requested;
    assert Requested(payload, policy, parse) == Some(asked);
    hide Estimate, Meta, OutputKey, AsInt;
    if requested > policy.maxOutput {
      if policy.reject { return Failure(OutputTooLarge); }
      requested := policy.maxOutput;
      updated := updated[key := Num(requested as real)];
      capped := true;
    }
    var remaining := policy.maxTotal - input;
    if remaining < 1 { return Failure(NoRoom); }
    if requested > remaining {
      requested := remaining;
      updated := updated[key := Num(requested as real)];
      capped := true;
    }
    assert requested == Granted(policy, input, asked) && capped == (requested < asked);
    assert updated == if capped || !Explicit(payload) then payload[key := Num(requested as real)] else payload;
    updated := updated[META := Meta(input, requested, capped)];
    r := Success(updated);
  }

  /** Its result: admitted requests get the least of the three limits, the others the first error that applies. */
  function Applied(payload: Payload, policy: Policy, printed: Json -> string,
                   parse: string -> Option<int>): Result<Payload, Error>
    requires policy.charsPerToken != 0.0
  {
    var input := Estimate(payload, policy.charsPerToken, printed);
    var requested := Requested(payload, policy, parse);
    if requested.Some? && Admits(policy, input, requested.value) then
      Success(Rewritten(payload, input, requested.value, Granted(policy, input, requested.value)))
    else if input > policy.maxInput then Failure(InputTooLarge)
    else if requested.None? then Failure(BadNumber)
    else if policy.reject && requested.value > policy.maxOutput then Failure(OutputTooLarge)
    else Failure(NoRoom)
  }

  // ---- applying it twice ------------------------------------------------------------------

  lemma {:induction false} TextsKept(a: Payload, b: Payload, keys: seq<string>, printed: Json -> string)
    requires forall k | k in keys :: (k in a <==> k in b) && (k in a ==> a[k] == b[k])
    ensures PayloadTexts(a, keys, printed) == PayloadTexts(b, keys, printed)
  {
    if keys != [] {
      assert keys[0] in keys && forall k | k in keys[1..] :: k in keys;
      TextsKept(a, b, keys[1..], printed);
    }
  }

  /** The rewrite touches no input text and does not change which key carries the limit. */
  lemma {:induction false} RewriteKeeps(payload: Payload, input: int, requested: int, granted: int, cpt: real,
                                        printed: Json -> string)
    requires cpt != 0.0
    ensures var q := Rewritten(payload, input, requested, granted);
      OutputKey(q) == OutputKey(payload) && Estimate(q, cpt, printed) == Estimate(payload, cpt, printed)
  {
    var q := Rewritten(payload, input, requested, granted);
    KeysApart(payload);
    TextsKept(payload, q, TEXT_KEYS, printed) by { hide OutputKey, Meta; }
    hide Meta, Estimate;
    SameEstimate(payload, q, cpt, printed);
  }

  /** The keys that hold input text are shorter than those that hold the limit. */
  lemma {:induction false} KeysApart(payload: Payload)
    ensures forall k | k in TEXT_KEYS :: k != META && k != OutputKey(payload)
    ensures META != OutputKey(payload)
  {
    assert forall k | k in TEXT_KEYS :: |k| <= 8;
    assert |OutputKey(payload)| >= 10 && |OutputKey(payload)| != 13 && |META| == 13;
    hide OutputKey;
  }

  lemma {:induction false} SameEstimate(a: Payload, b: Payload, cpt: real, printed: Json -> string)
    requires cpt != 0.0 && PayloadTexts(a, TEXT_KEYS, printed) == PayloadTexts(b, TEXT_KEYS, printed)
    ensures Estimate(a, cpt, printed) == Estimate(b, cpt, printed)
  {
    hide PayloadTexts, Lines, Round;
  }

  /** Applying the policy again grants the same limit and changes nothing but the record of having capped. */
  lemma {:induction false} AppliedTwice(payload: Payload, policy: Policy, printed: Json -> string,
                                        parse: string -> Option<int>)
    requires policy.charsPerToken != 0.0 && Applied(payload, policy, printed, parse).Success?
    ensures var once := Applied(payload, policy, printed, parse).value;
      var granted :=
        Granted(policy, Estimate(payload, policy.charsPerToken, printed), Requested(payload, policy, parse).value);
      Applied(once, policy, printed, parse)
        == Success(once[META := Meta(Estimate(payload, policy.charsPerToken, printed), granted, false)])
  {
    var input := Estimate(payload, policy.charsPerToken, printed);
    var requested := Requested(payload, policy, parse).value;
    var granted := Granted(policy, input, requested);
    var once := Rewritten(payload, input, requested, granted);
    RewriteKeeps(payload, input, requested, granted, policy.charsPerToken, printed);
    hide Estimate, Meta;
    var key := OutputKey(payload);
    assert key[0] == 'm' && META[0] == '_';
    assert Truncate(granted as real) == granted by { Truncated(granted); }
    hide Truncate, OutputKey;
    assert Explicit(once) && Requested(once, policy, parse) == Some(granted);
    assert Granted(policy, input, granted) == granted;
    assert once[META := Meta(input, granted, false)] == Rewritten(once, input, granted, granted);
  }

  lemma {:induction false} Truncated(n: int)
    ensures Truncate(n as real) == n
  {
    assert (n as real).Floor == n && (-(n as real)).Floor == -n;
  }

  // ---- refusals and requests, one by one --------------------------------------------------

  /** Every refusal has the first reason that applies, in the order input, number, output, room. */
  lemma {:induction false} RefusedIff(payload: Payload, policy: Policy, printed: Json -> string,
                                      parse: string -> Option<int>)
    requires policy.charsPerToken != 0.0
    ensures var r := Applied(payload, policy, printed, parse);
      var input := Estimate(payload, policy.charsPerToken, printed);
      var requested := Requested(payload, policy, parse);
      && (r == Failure(InputTooLarge) <==> input > policy.maxInput)
      && (r == Failure(BadNumber) <==> input <= policy.maxInput && requested == None)
      && (r == Failure(OutputTooLarge) <==>
            input <= policy.maxInput && requested.Some? && requested.value > policy.maxOutput && policy.reject)
      && (r == Failure(NoRoom) <==>
            && input <= policy.maxInput && requested.Some? && !(requested.value > policy.maxOutput && policy.reject)
            && policy.maxTotal - input < 1)
  {
    hide Estimate, Requested, Rewritten;
  }

  /** What a request asks for: the first of the three keys that is there counts, and the default where it is null. */
  lemma {:induction false} RequestedIs(payload: Payload, policy: Policy, parse: string -> Option<int>)
    ensures var key := if "max_completion_tokens" in payload then "max_completion_tokens"
        else if "max_output_tokens" in payload then "max_output_tokens" else "max_tokens";
      Requested(payload, policy, parse) ==
        if key !in payload || payload[key] == Null then Some(policy.defaultOutput) else AsInt(payload[key], parse)
  {
    hide AsInt;
  }

  /** A number is cut off at the point, a truth value is one or none, a text is read, and nothing else is a number. */
  lemma {:induction false} AsIntIs(v: Json, parse: string -> Option<int>, n: int)
    ensures v.Num? ==> (AsInt(v, parse) == Some(n) <==>
                          if v.number >= 0.0 then n as real <= v.number < n as real + 1.0
                          else n as real - 1.0 < v.number <= n as real)
    ensures v.Num? ==> AsInt(v, parse).Some?
    ensures v == Bool(true) ==> AsInt(v, parse) == Some(1)
    ensures v == Bool(false) ==> AsInt(v, parse) == Some(0)
    ensures v.Str? ==> AsInt(v, parse) == parse(v.text)
    ensures v.Null? || v.Arr? || v.Obj? ==> AsInt(v, parse) == None
  {
    if v.Num? {
      var x := v.number;
      assert x.Floor as real <= x < x.Floor as real + 1.0;
      assert (-x).Floor as real <= -x < (-x).Floor as real + 1.0;
    }
  }

  // ---- overrides --------------------------------------------------------------------------

  predicate Blank(v: Option<Json>) { v.None? || v.value == Null || v.value == Str("") }

  /** The tighter of the client's value, at least 1, and the policy's own. */
  function Tightened(raw: Option<Json>, bound: int, parse: string -> Option<int>): Option<int> {
    if Blank(raw) then Some(bound)
    else match AsInt(raw.value, parse)
      case Some(n) => Some(Min(Max(1, n), bound))
      case None => None
  }

  /** The integer limits a client may override. */
  datatype LimitName = MaxActive | MaxQueued | DefaultOutput | MaxInput | MaxOutput | MaxTotal

  /** `replace(policy, **changes)`. */
  function Replaced(policy: Policy, changes: map<LimitName, int>, timeout: real): Policy {
    policy.(maxActive := if MaxActive in changes then changes[MaxActive] else policy.maxActive,
            maxQueued := if MaxQueued in changes then changes[MaxQueued] else policy.maxQueued,
            timeout := timeout,
            defaultOutput := if DefaultOutput in changes then changes[DefaultOutput] else policy.defaultOutput,
            maxInput := if MaxInput in changes then changes[MaxInput] else policy.maxInput,
            maxOutput := if MaxOutput in changes then changes[MaxOutput] else policy.maxOutput,
            maxTotal := if MaxTotal in changes then changes[MaxTotal] else policy.maxTotal)
  }

  /** `bounded_int_override`: an override is recorded only when one was sent. */
  method BoundedIntOverride(changes: map<LimitName, int>, field: LimitName, raw: Option<Json>, bound: int,
                            parse: string -> Option<int>)
    returns (r: Option<map<LimitName, int>>)
    ensures r.None? <==> Tightened(raw, bound, parse).None?
    ensures r.Some? ==> r.value == if Blank(raw) then changes else changes[field := Tightened(raw, bound, parse).value]
    ensures Blank(raw) ==> Tightened(raw, bound, parse) == Some(bound)
  {
    if Blank(raw) { return Some(changes); }
    var parsed := AsInt(raw.value, parse);
    if parsed.None? { return None; }
    var value := Max(1, parsed.value);
    r := Some(changes[field := Min(value, bound)]);
  }

  /** `first.get(key, second.get(other))`: a key that is present wins even when its value is null. */
  function Either(first: seq<Field>, key: string, second: seq<Field>, other: string): Option<Json> {
    if Get(first, key).Some? then Get(first, key) else Get(second, other)
  }

  function TokenFields(orchestration: seq<Field>): seq<Field> {
    var tokens := Get(orchestration, "tokens");
    if tokens.Some? && tokens.value.Obj? then tokens.value.fields else []
  }

  /** The raw override for each integer limit. */
  function RawActive(o: seq<Field>): Option<Json> { Either(o, "max_parallel", o, "max_active_requests") }
  function RawQueued(o: seq<Field>): Option<Json> { Get(o, "max_queued_requests") }
  function RawToken(o: seq<Field>, key: string): Option<Json> { Either(TokenFields(o), key, o, key) }

  /** Where an override comes from: the nested tokens object goes first, and one key before the other. */
  lemma {:induction false} RawIs(o: seq<Field>, key: string)
    ensures RawActive(o) ==
      if Get(o, "max_parallel").Some? then Get(o, "max_parallel") else Get(o, "max_active_requests")
    ensures RawToken(o, key) ==
      if Get(o, "tokens").Some? && Get(o, "tokens").value.Obj? && Get(Get(o, "tokens").value.fields, key).Some?
      then Get(Get(o, "tokens").value.fields, key) else Get(o, key)
  {
  }

  /** An override is raised to one where it is less, and lowered to the limit where it is more. */
  lemma {:induction false} TightenedIs(raw: Option<Json>, bound: int, parse: string -> Option<int>, n: int)
    requires raw.Some? && raw.value != Null && raw.value != Str("") && AsInt(raw.value, parse) == Some(n)
    ensures Tightened(raw, bound, parse) == Some(if bound <= 1 || n >= bound then bound else if n <= 1 then 1 else n)
  {
    hide AsInt;
  }

  /** So is a timeout, to a millisecond. */
  lemma {:induction false} TimeoutTightened(raw: Option<Json>, bound: real, parseReal: Json -> Option<real>, x: real)
    requires raw.Some? && raw.value != Null && raw.value != Str("") && parseReal(raw.value) == Some(x)
    ensures TightenedReal(raw, bound, parseReal)
      == Some(if bound <= 0.001 || x >= bound then bound else if x <= 0.001 then 0.001 else x)
    ensures TightenedReal(None, bound, parseReal) == Some(bound)
  {
  }

  /** `apply_orchestration_overrides`; None when some override is not a number. */
  function Overridden(policy: Policy, orchestration: Json, parse: string -> Option<int>,
                      parseReal: Json -> Option<real>): Option<Policy> {
    if !orchestration.Obj? then Some(policy)
    else
      var o := orchestration.fields;
      var active := Tightened(RawActive(o), policy.maxActive, parse);
      var queued := Tightened(RawQueued(o), policy.maxQueued, parse);
      var timeout := TightenedReal(Get(o, "queue_timeout_seconds"), policy.timeout, parseReal);
      var output := Tightened(RawToken(o, "default_max_output_tokens"), policy.defaultOutput, parse);
      var maxInput := Tightened(RawToken(o, "max_input_tokens"), policy.maxInput, parse);
      var maxOutput := Tightened(RawToken(o, "max_output_tokens"), policy.maxOutput, parse);
      var maxTotal := Tightened(RawToken(o, "max_total_tokens"), policy.maxTotal, parse);
      if active.Some? && queued.Some? && timeout.Some? && output.Some? && maxInput.Some? && maxOutput.Some?
        && maxTotal.Some? then
        Some(policy.(maxActive := active.value, maxQueued := queued.value, timeout := timeout.value,
                     defaultOutput := output.value, maxInput := maxInput.value,
                     maxOutput := maxOutput.value, maxTotal := maxTotal.value))
      else None
  }

  function TightenedReal(raw: Option<Json>, bound: real, parseReal: Json -> Option<real>): Option<real> {
    if Blank(raw) then Some(bound)
    else match parseReal(raw.value)
      case Some(x) => Some(var v := if x > 0.001 then x else 0.001; if v < bound then v else bound)
      case None => None
  }

  /** The change that one raw override amounts to. */
  predicate Recorded(changes: map<LimitName, int>, field: LimitName, raw: Option<Json>, bound: int,
                     parse: string -> Option<int>)
  {
    if Blank(raw) then field !in changes
    else field in changes && Tightened(raw, bound, parse) == Some(changes[field])
  }

  /** A recorded change, or the lack of one, is the tightened limit. */
  lemma {:induction false} RecordedMeans(changes: map<LimitName, int>, field: LimitName, raw: Option<Json>, bound: int,
                                         parse: string -> Option<int>)
    requires Recorded(changes, field, raw, bound, parse)
    ensures Tightened(raw, bound, parse) == Some(if field in changes then changes[field] else bound)
  {
  }

  /** `apply_orchestration_overrides`, collecting the changes field by field. */
  method ApplyOrchestrationOverrides(policy: Policy, orchestration: Json, parse: string -> Option<int>,
                                     parseReal: Json -> Option<real>)
    returns (r: Option<Policy>)
    ensures r == Overridden(policy, orchestration, parse, parseReal)
  {
    hide Get, Either, TokenFields, AsInt, Tightened, TightenedReal, Blank, Recorded;
    if !orchestration.Obj? { return Some(policy); }
    var o := orchestration.fields;
    var requests := RequestOverrides(policy, o, parse);
    if requests.None? { return None; }
    var timeout := TightenedReal(Get(o, "queue_timeout_seconds"), policy.timeout, parseReal);
    if timeout.None? { return None; }
    var changes := TokenOverrides(requests.value, policy, o, parse);
    if changes.None? { return None; }
    RecordedMeans(requests.value, MaxActive, RawActive(o), policy.maxActive, parse);
    RecordedMeans(requests.value, MaxQueued, RawQueued(o), policy.maxQueued, parse);
    RecordedMeans(changes.value, DefaultOutput, RawToken(o, "default_max_output_tokens"), policy.defaultOutput, parse);
    RecordedMeans(changes.value, MaxInput, RawToken(o, "max_input_tokens"), policy.maxInput, parse);
    RecordedMeans(changes.value, MaxOutput, RawToken(o, "max_output_tokens"), policy.maxOutput, parse);
    RecordedMeans(changes.value, MaxTotal, RawToken(o, "max_total_tokens"), policy.maxTotal, parse);
    hide RawActive, RawQueued, RawToken;
    r := Some(Replaced(policy, changes.value, timeout.value));
  }

  /** The two limits on requests. */
  method RequestOverrides(policy: Policy, o: seq<Field>, parse: string -> Option<int>)
    returns (r: Option<map<LimitName, int>>)
    ensures r.None? <==>
      Tightened(RawActive(o), policy.maxActive, parse).None? || Tightened(RawQueued(o), policy.maxQueued, parse).None?
    ensures r.Some? ==>
      Recorded(r.value, MaxActive, RawActive(o), policy.maxActive, parse)
      && Recorded(r.value, MaxQueued, RawQueued(o), policy.maxQueued, parse)
      && r.value.Keys <= {MaxActive, MaxQueued}
  {
    hide Get, Either, TokenFields, AsInt, Tightened, RawActive, RawQueued;
    r := BoundedIntOverride(map[], MaxActive, RawActive(o), policy.maxActive, parse);
    if r.None? { return None; }
    r := BoundedIntOverride(r.value, MaxQueued, RawQueued(o), policy.maxQueued, parse);
  }

  /** The four limits on tokens. */
  method TokenOverrides(changes: map<LimitName, int>, policy: Policy, o: seq<Field>, parse: string -> Option<int>)
    returns (r: Option<map<LimitName, int>>)
    requires changes.Keys <= {MaxActive, MaxQueued}
    ensures r.None? <==>
      Tightened(RawToken(o, "default_max_output_tokens"), policy.defaultOutput, parse).None?
      || Tightened(RawToken(o, "max_input_tokens"), policy.maxInput, parse).None?
      || Tightened(RawToken(o, "max_output_tokens"), policy.maxOutput, parse).None?
      || Tightened(RawToken(o, "max_total_tokens"), policy.maxTotal, parse).None?
    ensures r.Some? ==>
      Recorded(r.value, DefaultOutput, RawToken(o, "default_max_output_tokens"), policy.defaultOutput, parse)
      && Recorded(r.value, MaxInput, RawToken(o, "max_input_tokens"), policy.maxInput, parse)
      && Recorded(r.value, MaxOutput, RawToken(o, "max_output_tokens"), policy.maxOutput, parse)
      && Recorded(r.value, MaxTotal, RawToken(o, "max_total_tokens"), policy.maxTotal, parse)
      && forall f | f == MaxActive || f == MaxQueued ::
        (f in r.value <==> f in changes) && (f in changes ==> r.value[f] == changes[f])
  {
    hide Get, Either, TokenFields, AsInt, Tightened, RawToken;
    r :=
      BoundedIntOverride(changes, DefaultOutput, RawToken(o, "default_max_output_tokens"), policy.defaultOutput, parse);
    if r.None? { return None; }
    r := BoundedIntOverride(r.value, MaxInput, RawToken(o, "max_input_tokens"), policy.maxInput, parse);
    if r.None? { return None; }
    r := BoundedIntOverride(r.value, MaxOutput, RawToken(o, "max_output_tokens"), policy.maxOutput, parse);
    if r.None? { return None; }
    r := BoundedIntOverride(r.value, MaxTotal, RawToken(o, "max_total_tokens"), policy.maxTotal, parse);
  }

  /** No limit is ever loosened, and nothing else of the policy changes. */
  ghost predicate Tighter(o: Policy, p: Policy) {
    && o.maxActive <= p.maxActive && o.maxQueued <= p.maxQueued && o.timeout <= p.timeout
    && o.defaultOutput <= p.defaultOutput && o.maxInput <= p.maxInput
    && o.maxOutput <= p.maxOutput && o.maxTotal <= p.maxTotal
    && o.charsPerToken == p.charsPerToken && o.reject == p.reject
  }

  lemma {:induction false} OverridesTighten(policy: Policy, orchestration: Json, parse: string -> Option<int>,
                                            parseReal: Json -> Option<real>)
    ensures var o := Overridden(policy, orchestration, parse, parseReal); o.Some? ==> Tighter(o.value, policy)
  {
    hide AsInt, Get, Either, TokenFields, Blank;
  }

  /** The tightened policy, limit by limit, and when there is none. */
  lemma {:induction false} OverridesExact(policy: Policy, o: seq<Field>, parse: string -> Option<int>,
                                          parseReal: Json -> Option<real>)
    ensures var r := Overridden(policy, Obj(o), parse, parseReal);
      && (r == None <==>
            || Tightened(RawActive(o), policy.maxActive, parse) == None
            || Tightened(RawQueued(o), policy.maxQueued, parse) == None
            || TightenedReal(Get(o, "queue_timeout_seconds"), policy.timeout, parseReal) == None
            || Tightened(RawToken(o, "default_max_output_tokens"), policy.defaultOutput, parse) == None
            || Tightened(RawToken(o, "max_input_tokens"), policy.maxInput, parse) == None
            || Tightened(RawToken(o, "max_output_tokens"), policy.maxOutput, parse) == None
            || Tightened(RawToken(o, "max_total_tokens"), policy.maxTotal, parse) == None)
      && (r.Some? ==>
            && Some(r.value.maxActive) == Tightened(RawActive(o), policy.maxActive, parse)
            && Some(r.value.maxQueued) == Tightened(RawQueued(o), policy.maxQueued, parse)
            && Some(r.value.timeout) == TightenedReal(Get(o, "queue_timeout_seconds"), policy.timeout, parseReal)
            && Some(r.value.defaultOutput)
                 == Tightened(RawToken(o, "default_max_output_tokens"), policy.defaultOutput, parse)
            && Some(r.value.maxInput) == Tightened(RawToken(o, "max_input_tokens"), policy.maxInput, parse)
            && Some(r.value.maxOutput) == Tightened(RawToken(o, "max_output_tokens"), policy.maxOutput, parse)
            && Some(r.value.maxTotal) == Tightened(RawToken(o, "max_total_tokens"), policy.maxTotal, parse)
            && r.value.charsPerToken == policy.charsPerToken && r.value.reject == policy.reject)
  {
    hide Tightened, TightenedReal, Get, RawActive, RawQueued, RawToken;
  }

  /** The limit a payload is given, when it is admitted. */
  function Limit(payload: Payload, policy: Policy, printed: Json -> string, parse: string -> Option<int>): int
    requires policy.charsPerToken != 0.0 && Applied(payload, policy, printed, parse).Success?
  {
    Granted(policy, Estimate(payload, policy.charsPerToken, printed), Requested(payload, policy, parse).value)
  }

  /**
   * The policy wins: what a tightened policy admits the base policy admits too, with at least as many
   * output tokens, unless the base policy rejects its own default.
   */
  lemma {:induction false} PolicyWins(payload: Payload, base: Policy, tight: Policy, printed: Json -> string,
                                      parse: string -> Option<int>)
    requires base.charsPerToken != 0.0 && Tighter(tight, base) && Applied(payload, tight, printed, parse).Success?
    ensures Applied(payload, base, printed, parse).Success? <==>
      !(base.reject && !Explicit(payload) && base.defaultOutput > base.maxOutput)
    ensures Applied(payload, base, printed, parse).Success? ==>
      Limit(payload, base, printed, parse) >= Limit(payload, tight, printed, parse)
  {
    hide Estimate, AsInt, Rewritten, OutputKey;
  }

  /** A base policy that rejects its own default: lowering the default by an override gets the request in. */
  lemma {:induction false} OverrideAdmits(printed: Json -> string, parse: string -> Option<int>,
                                          parseReal: Json -> Option<real>)
    ensures var base := Policy(1, 1, 1.0, 10, 100, 5, 200, 4.0, true);
      var tight := Overridden(base, Obj([Field("default_max_output_tokens", Num(5.0))]), parse, parseReal);
      && tight == Some(base.(defaultOutput := 5))
      && Applied(map[], base, printed, parse) == Failure(OutputTooLarge)
      && Applied(map[], tight.value, printed, parse).Success?
  {
    var base := Policy(1, 1, 1.0, 10, 100, 5, 200, 4.0, true);
    DefaultOverride(base, 5, parse, parseReal);
    EmptyPayload(base, printed, parse);
    EmptyPayload(base.(defaultOutput := 5), printed, parse);
    hide *;
  }

  /** An override of the default alone. */
  lemma {:induction false} DefaultOverride(policy: Policy, n: int, parse: string -> Option<int>,
                                           parseReal: Json -> Option<real>)
    requires 1 <= n <= policy.defaultOutput
    ensures Overridden(policy, Obj([Field("default_max_output_tokens", Num(n as real))]), parse, parseReal)
      == Some(policy.(defaultOutput := n))
  {
    RawsOf(n);
    Truncated(n);
    hide Either, TokenFields, RawToken, RawActive, RawQueued, Get, Truncate;
  }

  lemma {:induction false} RawsOf(n: int)
    ensures var o := [Field("default_max_output_tokens", Num(n as real))];
      && RawActive(o) == None && RawQueued(o) == None && Get(o, "queue_timeout_seconds") == None
      && RawToken(o, "default_max_output_tokens") == Some(Num(n as real))
      && RawToken(o, "max_input_tokens") == None && RawToken(o, "max_output_tokens") == None
      && RawToken(o, "max_total_tokens") == None
  {
    OneField("default_max_output_tokens", Num(n as real));
    hide Get;
  }

  /** A request without text that asks for nothing is judged by the default alone. */
  lemma {:induction false} EmptyPayload(policy: Policy, printed: Json -> string, parse: string -> Option<int>)
    requires policy.charsPerToken != 0.0 && policy.maxInput >= 0 && policy.maxTotal >= 1
    ensures policy.reject && policy.defaultOutput > policy.maxOutput ==>
      Applied(map[], policy, printed, parse) == Failure(OutputTooLarge)
    ensures policy.defaultOutput <= policy.maxOutput ==> Applied(map[], policy, printed, parse).Success?
  {
    NoText(map[], TEXT_KEYS, printed);
    assert Estimate(map[], policy.charsPerToken, printed) == 0;
    hide Estimate, Rewritten, OutputKey;
  }

  lemma {:induction false} OneField(key: string, value: Json)
    ensures forall k :: Get([Field(key, value)], k) == if k == key then Some(value) else None
  {
  }

  lemma {:induction false} NoText(payload: Payload, keys: seq<string>, printed: Json -> string)
    requires payload == map[]
    ensures PayloadTexts(payload, keys, printed) == []
  {
    if keys != [] { NoText(payload, keys[1..], printed); }
  }

  /** The written limit is the one that was granted, whichever of the three keys carries it. */
  lemma {:induction false} LimitIsWritten(payload: Payload, policy: Policy, printed: Json -> string,
                                          parse: string -> Option<int>)
    requires policy.charsPerToken != 0.0 && Applied(payload, policy, printed, parse).Success?
    ensures var q := Applied(payload, policy, printed, parse).value; var n := Limit(payload, policy, printed, parse);
      && OutputKey(q) == OutputKey(payload) && OutputKey(q) in q
      && AsInt(q[OutputKey(q)], parse) == Some(n)
      && n <= policy.maxOutput && n <= policy.maxTotal - Estimate(payload, policy.charsPerToken, printed)
      && forall k | k in q && k != META && k != OutputKey(payload) :: k in payload && q[k] == payload[k]
    // exactly the least of the three, written only where the request did not say it already, and recorded
    ensures var q := Applied(payload, policy, printed, parse).value; var n := Limit(payload, policy, printed, parse);
      var input, requested := Estimate(payload, policy.charsPerToken, printed), Requested(payload, policy, parse).value;
      && n <= requested && (n == requested || n == policy.maxOutput || n == policy.maxTotal - input)
      && q[OutputKey(q)] == (if n == requested && Explicit(payload) then payload[OutputKey(payload)]
                             else Num(n as real))
      && (forall k | k in payload && k != META :: k in q)
      && "_orchestrator" in q
      && q["_orchestrator"] == Obj([Field("estimated_input_tokens", Num(input as real)),
                                    Field("effective_output_tokens", Num(n as real)),
                                    Field("output_tokens_capped", Bool(n < requested))])
  {
    LimitIs(payload, policy, printed, parse);
    var input := Estimate(payload, policy.charsPerToken, printed);
    var requested := Requested(payload, policy, parse).value;
    var granted := Granted(policy, input, requested);
    RewriteKeeps(payload, input, requested, granted, policy.charsPerToken, printed);
    Truncated(granted);
    hide Estimate, Meta, Truncate;
    assert OutputKey(payload)[0] == 'm' && META[0] == '_';
    hide OutputKey;
  }

  lemma {:induction false} LimitIs(payload: Payload, policy: Policy, printed: Json -> string,
                                   parse: string -> Option<int>)
    requires policy.charsPerToken != 0.0 && Applied(payload, policy, printed, parse).Success?
    ensures var q := Applied(payload, policy, printed, parse).value; var n := Limit(payload, policy, printed, parse);
      var input, requested := Estimate(payload, policy.charsPerToken, printed), Requested(payload, policy, parse).value;
      && n <= requested && (n == requested || n == policy.maxOutput || n == policy.maxTotal - input)
      && OutputKey(payload) in q
      && q[OutputKey(payload)] ==
           (if n == requested && Explicit(payload) then payload[OutputKey(payload)] else Num(n as real))
      && (forall k | k in payload && k != META :: k in q)
      && META in q && q[META] == Meta(input, n, n < requested)
  {
    KeysApart(payload);
    hide Estimate, Meta, AsInt, OutputKey;
  }
}
