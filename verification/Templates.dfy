/** Payload templates: `{{ name }}` placeholders inside the strings of a JSON value. */
module Templates {
  import opened Wrappers
  import opened JsonValues

  // ---- the placeholder pattern ------------------------------------------------------------

  /** What the pattern's `\s` accepts in a text. */
  predicate Space(c: char) {
    var n := c as int;
    9 <= n <= 13 || 28 <= n <= 32 || n in {0x85, 0xA0, 0x1680, 0x2028, 0x2029, 0x202F, 0x205F, 0x3000}
    || 0x2000 <= n <= 0x200A
  }

  predicate Letter(c: char) { 'A' <= c <= 'Z' || 'a' <= c <= 'z' || c == '_' }

  predicate NameChar(c: char) { Letter(c) || '0' <= c <= '9' || c == '.' || c == '-' }

  ghost predicate All(s: string, from: nat, to: nat, class_: char -> bool)
    requires from <= to <= |s|
  {
    forall k | from <= k < to :: class_(s[k])
  }

  /** The regular expression on the first `n` characters: two braces, blanks, a name in [i, j), blanks, two braces. */
  ghost predicate Shape(s: string, n: nat, i: nat, j: nat) {
    && 2 <= i < j <= n - 2 && n <= |s|
    && s[0] == s[1] == '{' && s[n - 2] == s[n - 1] == '}'
    && All(s, 2, i, Space) && Letter(s[i]) && All(s, i, j, NameChar) && All(s, j, n - 2, Space)
  }

  /** `t` as a whole matches the pattern, with `name` in the group. */
  ghost predicate IsPlaceholder(t: string, name: string) {
    exists i: nat, j: nat :: Shape(t, |t|, i, j) && name == t[i..j]
  }

  /** Where the run of characters of a class that starts at `from` ends. */
  function RunEnd(s: string, from: nat, class_: char -> bool): (e: nat)
    requires from <= |s|
    ensures from <= e <= |s| && All(s, from, e, class_) && (e < |s| ==> !class_(s[e]))
    decreases |s| - from
  {
    if from == |s| || !class_(s[from]) then from else RunEnd(s, from + 1, class_)
  }

  datatype Match = Match(name: string, length: nat)

  /** A match of the pattern at the start of `s`, taking every run of blanks and of name characters greedily. */
  function MatchAt(s: string): (r: Option<Match>)
    ensures r.Some? ==> 5 <= r.value.length <= |s|
  {
    if |s| < 2 || s[0] != '{' || s[1] != '{' then None
    else
      var i := RunEnd(s, 2, Space);
      var j := RunEnd(s, i, NameChar);
      var k := RunEnd(s, j, Space);
      if i < j && Letter(s[i]) && k + 2 <= |s| && s[k] == s[k + 1] == '}' then Some(Match(s[i..j], k + 2)) else None
  }

  /** Blanks, name characters and braces are disjoint, which is why taking runs greedily loses no match. */
  lemma {:induction false} ClassesDisjoint(c: char)
    ensures !(Space(c) && NameChar(c)) && !Space('{') && !NameChar('{') && !Space('}') && !NameChar('}')
    ensures Letter(c) ==> NameChar(c)
  {
  }

  lemma {:induction false} RunEndIs(s: string, from: nat, to: nat, class_: char -> bool)
    requires from <= to < |s| && All(s, from, to, class_) && !class_(s[to])
    ensures RunEnd(s, from, class_) == to
  {
    var e := RunEnd(s, from, class_);
    assert e <= to && e >= to;
  }

  /** Every way to match is the greedy one. */
  lemma {:induction false} MatchComplete(s: string, n: nat, i: nat, j: nat)
    requires Shape(s, n, i, j)
    ensures MatchAt(s) == Some(Match(s[i..j], n))
  {
    ClassesDisjoint(s[i]);
    ClassesDisjoint(s[j]);
    hide Space, NameChar, Letter;
    assert NameChar(s[i]);
    RunEndIs(s, 2, i, Space);
    RunEndIs(s, i, j, NameChar);
    RunEndIs(s, j, n - 2, Space);
  }

  lemma {:induction false} ShapePrefix(s: string, n: nat, i: nat, j: nat)
    requires n <= |s|
    ensures Shape(s, n, i, j) <==> Shape(s[..n], n, i, j)
    ensures i <= j <= n ==> s[..n][i..j] == s[i..j]
  {
    hide Space, NameChar, Letter;
  }

  /** The greedy scan finds exactly the prefix the regular expression describes, and there is at most one. */
  lemma {:induction false} MatchIff(s: string, name: string, length: nat)
    requires length <= |s|
    ensures MatchAt(s) == Some(Match(name, length)) <==> IsPlaceholder(s[..length], name)
  {
    if MatchAt(s) == Some(Match(name, length)) {
      var i := RunEnd(s, 2, Space);
      var j := RunEnd(s, i, NameChar);
      hide Space, NameChar, Letter;
      assert Shape(s, length, i, j);
      ShapePrefix(s, length, i, j);
    }
    if IsPlaceholder(s[..length], name) {
      var i: nat, j: nat :| Shape(s[..length], length, i, j) && name == s[..length][i..j];
      ShapePrefix(s, length, i, j);
      MatchComplete(s, length, i, j);
    }
  }

  // ---- scanning ---------------------------------------------------------------------------

  datatype Piece = Plain(c: char) | Hole(text: string, name: string)

  /** The first piece of a text, and how much of the text it takes. */
  function Head(s: string): (r: (Piece, nat))
    requires s != ""
    ensures 1 <= r.1 <= |s|
  {
    match MatchAt(s)
    case Some(m) => (Hole(s[..m.length], m.name), m.length)
    case None => (Plain(s[0]), 1)
  }

  /** Left to right, without overlaps: a placeholder where one starts, otherwise one character. */
  function Scan(s: string): (r: seq<Piece>)
    decreases |s|
  {
    if s == "" then [] else [Head(s).0] + Scan(s[Head(s).1..])
  }

  function Unscan(pieces: seq<Piece>): string {
    if pieces == [] then ""
    else (match pieces[0] case Plain(c) => [c] case Hole(t, _) => t) + Unscan(pieces[1..])
  }

  /** Scanning loses nothing. */
  lemma {:induction false} UnscanScan(s: string)
    ensures Unscan(Scan(s)) == s
    decreases |s|
  {
    if s != "" {
      var n := Head(s).1;
      UnscanScan(s[n..]);
      assert s == s[..n] + s[n..];
      assert Scan(s)[1..] == Scan(s[n..]);
    }
  }

  /** A placeholder opens braces at its start only. */
  lemma {:induction false} BracesAtStart(s: string, n: nat, name: string, k: nat)
    requires MatchAt(s) == Some(Match(name, n)) && 2 <= k < n
    ensures s[k] != '{'
  {
    var i := RunEnd(s, 2, Space);
    var j := RunEnd(s, i, NameChar);
    ClassesDisjoint(s[k]);
    hide Space, NameChar, Letter;
    assert Shape(s, n, i, j);
  }

  lemma {:induction false} MatchExtends(x: string, s: string, name: string, n: nat)
    requires |x| <= |s| && s[..|x|] == x && n <= |x|
    ensures MatchAt(x) == Some(Match(name, n)) <==> MatchAt(s) == Some(Match(name, n))
  {
    MatchIff(x, name, n);
    MatchIff(s, name, n);
    hide MatchAt, IsPlaceholder;
    assert s[..n] == x[..n];
  }

  /** What comes before a placeholder neither hides it nor reaches into it. */
  lemma {:induction false} MatchBefore(x: string, t: string, rest: string)
    requires x != "" && |t| >= 2 && t[0] == t[1] == '{'
    ensures MatchAt(x + t + rest) == MatchAt(x)
  {
    var s := x + t + rest;
    assert s[..|x|] == x && s[|x|] == s[|x| + 1] == '{';
    hide MatchAt;
    if MatchAt(x).Some? {
      var m := MatchAt(x).value;
      MatchExtends(x, s, m.name, m.length);
    }
    if MatchAt(s).Some? {
      var m := MatchAt(s).value;
      MatchInside(x, s);
      MatchExtends(x, s, m.name, m.length);
    }
  }

  /** A match does not cross the start of the next placeholder. */
  lemma {:induction false} MatchInside(x: string, s: string)
    requires x != "" && |x| + 2 <= |s| && s[|x|] == s[|x| + 1] == '{' && MatchAt(s).Some?
    ensures MatchAt(s).value.length <= |x|
  {
    var m := MatchAt(s).value;
    if |x| >= 2 && |x| < m.length { BracesAtStart(s, m.length, m.name, |x|); }
    if |x| == 1 { BracesAtStart(s, m.length, m.name, 2); }
  }

  lemma {:induction false} HeadBefore(x: string, t: string, rest: string)
    requires x != "" && |t| >= 2 && t[0] == t[1] == '{'
    ensures var s := x + t + rest; var n := Head(x).1; Head(s) == Head(x) && s[n..] == x[n..] + t + rest
  {
    var s := x + t + rest;
    MatchBefore(x, t, rest);
    HeadFrom(x, s);
    hide *;
    var n := Head(x).1;
    assert s == x + (t + rest);
    assert s[n..] == x[n..] + (t + rest) == x[n..] + t + rest;
  }

  lemma {:induction false} HeadFrom(x: string, s: string)
    requires x != "" && x <= s && MatchAt(s) == MatchAt(x)
    ensures Head(s) == Head(x)
  {
    hide MatchAt;
    var n := Head(x).1;
    assert s[..n] == x[..n] && s[0] == x[0];
  }

  lemma {:induction false} HeadIs(t: string, name: string, rest: string)
    requires IsPlaceholder(t, name)
    ensures t != "" && t[0] == '{' && |t| >= 2 && t[1] == '{'
    ensures Head(t + rest) == (Hole(t, name), |t|)
  {
    assert (t + rest)[..|t|] == t;
    MatchIff(t + rest, name, |t|);
    hide MatchAt;
  }

  /** Placeholders are found wherever they stand, whatever surrounds them. */
  lemma {:induction false} ScanAround(x: string, t: string, name: string, rest: string)
    requires IsPlaceholder(t, name)
    ensures Scan(x + t + rest) == Scan(x) + [Hole(t, name)] + Scan(rest)
    decreases |x|
  {
    hide *;
    HeadIs(t, name, rest);
    if x == "" {
      ScanHead(t, name, rest);
    } else {
      HeadBefore(x, t, rest);
      var n := Head(x).1;
      ScanStep(x);
      ScanStep(x + t + rest);
      ScanAround(x[n..], t, name, rest);
      Regroup([Head(x).0], Scan(x[n..]), [Hole(t, name)], Scan(rest));
    }
  }

  lemma {:induction false} ScanStep(s: string)
    requires s != ""
    ensures 1 <= Head(s).1 <= |s| && Scan(s) == [Head(s).0] + Scan(s[Head(s).1..])
  {
    hide Head;
  }

  lemma {:induction false} Regroup<T>(a: seq<T>, b: seq<T>, c: seq<T>, d: seq<T>)
    ensures a + (b + c + d) == (a + b) + c + d
  {
  }

  lemma {:induction false} ScanHead(t: string, name: string, rest: string)
    requires t != "" && Head(t + rest) == (Hole(t, name), |t|)
    ensures Scan("" + t + rest) == Scan("") + [Hole(t, name)] + Scan(rest)
  {
    hide Head;
    assert "" + t + rest == t + rest;
    assert (t + rest)[|t|..] == rest;
  }

  // ---- variables --------------------------------------------------------------------------

  /** `name.split(".")`. */
  function Split(name: string): (r: seq<string>)
    ensures r != []
  {
    if name == "" then [""]
    else
      var rest := Split(name[1..]);
      if name[0] == '.' then [""] + rest else [[name[0]] + rest[0]] + rest[1..]
  }

  function Join(parts: seq<string>): string {
    if parts == [] then "" else if |parts| == 1 then parts[0] else parts[0] + "." + Join(parts[1..])
  }

  /** Splitting a path loses nothing, and no component contains a dot. */
  lemma {:induction false} JoinSplit(name: string)
    ensures Join(Split(name)) == name
    ensures forall part | part in Split(name) :: '.' !in part
  {
    if name != "" {
      var rest := Split(name[1..]);
      JoinSplit(name[1..]);
      assert name == [name[0]] + name[1..];
      assert forall part | part in Split(name) :: part == "" || part == [name[0]] + rest[0] || part in rest;
      if name[0] == '.' {
        assert Split(name)[1..] == rest && "" + "." + Join(rest) == [name[0]] + Join(rest);
      } else if |rest| > 1 {
        assert Split(name)[1..] == rest[1..];
        assert [name[0]] + rest[0] + "." + Join(rest[1..]) == [name[0]] + (rest[0] + "." + Join(rest[1..]));
      }
    }
  }

  function Walk(current: Json, parts: seq<string>): Option<Json>
    decreases |parts|
  {
    if parts == [] then Some(current)
    else if !current.Obj? then None
    else match Get(current.fields, parts[0])
      case None => None
      case Some(next) => Walk(next, parts[1..])
  }

  function Lookup(variables: Json, name: string): Option<Json> { Walk(variables, Split(name)) }

  /** A path of one component is a field of the variables, and a longer one goes on below the field of its first. */
  lemma {:induction false} PathStep(variables: Json, first: string, rest: string)
    requires '.' !in first
    ensures Lookup(variables, first) == if variables.Obj? then Get(variables.fields, first) else None
    ensures Lookup(variables, first + "." + rest)
      == if variables.Obj? && Get(variables.fields, first).Some? then Lookup(Get(variables.fields, first).value, rest)
         else None
  {
    SplitOne(first);
    SplitMore(first, rest);
    assert ([first] + Split(rest))[1..] == Split(rest);
    if variables.Obj? && Get(variables.fields, first).Some? {
      assert [first][1..] == [] && Walk(Get(variables.fields, first).value, []).Some?;
    }
    hide Split, Get;
  }

  lemma {:induction false} SplitOne(name: string)
    requires '.' !in name
    ensures Split(name) == [name]
  {
    if name != "" {
      assert name[0] in name && forall c | c in name[1..] :: c in name;
      SplitOne(name[1..]);
      assert [name[0]] + name[1..] == name;
    }
  }

  lemma {:induction false} SplitMore(first: string, rest: string)
    requires '.' !in first
    ensures Split(first + "." + rest) == [first] + Split(rest)
  {
    if first == "" {
      assert ("" + "." + rest)[1..] == rest;
    } else {
      assert first[0] in first && forall c | c in first[1..] :: c in first;
      SplitMore(first[1..], rest);
      assert (first + "." + rest)[1..] == first[1..] + "." + rest;
      assert [first[0]] + first[1..] == first;
      assert ([first[1..]] + Split(rest))[1..] == Split(rest);
    }
  }

  // ---- rendering --------------------------------------------------------------------------

  /** `str` of a text is itself; of anything else it is some printed form. */
  function Shown(v: Json, printed: Json -> string): string { if v.Str? then v.text else printed(v) }

  /** What stands for one piece in the result; a placeholder without a value is an error. */
  function Filled(piece: Piece, variables: Json, printed: Json -> string): Result<string, string> {
    match piece
    case Plain(c) => Success([c])
    case Hole(_, name) =>
      match Lookup(variables, name)
      case Some(v) => Success(Shown(v, printed))
      case None => Failure(name)
  }

  /** The replacement loop of `sub`; fails with the first name that has no value. */
  function Expand(pieces: seq<Piece>, variables: Json, printed: Json -> string): Result<string, string> {
    if pieces == [] then Success("")
    else match Filled(pieces[0], variables, printed)
      case Failure(name) => Failure(name)
      case Success(first) =>
        match Expand(pieces[1..], variables, printed)
        case Success(rest) => Success(first + rest)
        case Failure(name) => Failure(name)
  }

  /** A string that is one placeholder becomes the value itself; any other string stays a string. */
  function RenderString(s: string, variables: Json, printed: Json -> string): Result<Json, string> {
    match MatchAt(s)
    case Some(m) =>
      if m.length == |s| then
        (match Lookup(variables, m.name) case Some(v) => Success(v) case None => Failure(m.name))
      else Substituted(s, variables, printed)
    case None => Substituted(s, variables, printed)
  }

  function Substituted(s: string, variables: Json, printed: Json -> string): Result<Json, string> {
    match Expand(Scan(s), variables, printed)
    case Success(text) => Success(Str(text))
    case Failure(name) => Failure(name)
  }

  function Render(value: Json, variables: Json, printed: Json -> string): Result<Json, string>
    decreases value
  {
    match value
    case Str(s) => RenderString(s, variables, printed)
    case Arr(elements) =>
      (match RenderElements(elements, variables, printed)
       case Success(r) => Success(Arr(r))
       case Failure(name) => Failure(name))
    case Obj(fields) =>
      (match RenderFields(fields, variables, printed)
       case Success(r) => Success(Obj(r))
       case Failure(name) => Failure(name))
    case _ => Success(value)
  }

  function RenderElements(elements: seq<Json>, variables: Json, printed: Json -> string): Result<seq<Json>, string>
    decreases elements
  {
    if elements == [] then Success([])
    else match Render(elements[0], variables, printed)
      case Failure(name) => Failure(name)
      case Success(first) =>
        match RenderElements(elements[1..], variables, printed)
        case Failure(name) => Failure(name)
        case Success(rest) => Success([first] + rest)
  }

  function RenderFields(fields: seq<Field>, variables: Json, printed: Json -> string): Result<seq<Field>, string>
    decreases fields
  {
    if fields == [] then Success([])
    else match Render(fields[0].value, variables, printed)
      case Failure(name) => Failure(name)
      case Success(first) =>
        match RenderFields(fields[1..], variables, printed)
        case Failure(name) => Failure(name)
        case Success(rest) => Success([Field(fields[0].key, first)] + rest)
  }

  // ---- what a template refers to ----------------------------------------------------------

  function Names(pieces: seq<Piece>): seq<string> {
    if pieces == [] then [] else (if pieces[0].Hole? then [pieces[0].name] else []) + Names(pieces[1..])
  }

  /** Every referenced path, in reading order. */
  function Paths(value: Json): seq<string>
    decreases value
  {
    match value
    case Str(s) => Names(Scan(s))
    case Arr(elements) => PathsOfElements(elements)
    case Obj(fields) => PathsOfFields(fields)
    case _ => []
  }

  function PathsOfElements(elements: seq<Json>): seq<string>
    decreases elements
  {
    if elements == [] then [] else Paths(elements[0]) + PathsOfElements(elements[1..])
  }

  function PathsOfFields(fields: seq<Field>): seq<string>
    decreases fields
  {
    if fields == [] then [] else Paths(fields[0].value) + PathsOfFields(fields[1..])
  }

  function FirstMissing(names: seq<string>, variables: Json): (r: Option<string>)
    ensures r == None <==> forall n | n in names :: Lookup(variables, n).Some?
    ensures r.Some? ==> r.value in names && Lookup(variables, r.value) == None
  {
    if names == [] then None
    else if Lookup(variables, names[0]) == None then Some(names[0])
    else
      assert names == [names[0]] + names[1..];
      FirstMissing(names[1..], variables)
  }

  lemma {:induction false} MissingConcat(a: seq<string>, b: seq<string>, variables: Json)
    ensures FirstMissing(a + b, variables) == if FirstMissing(a, variables).Some? then FirstMissing(a, variables)
      else FirstMissing(b, variables)
  {
    if a == [] {
      assert a + b == b;
    } else {
      assert (a + b)[1..] == a[1..] + b;
      MissingConcat(a[1..], b, variables);
    }
  }

  /** Rendering fails exactly with the first missing name. */
  ghost predicate FailsWith<T>(r: Result<T, string>, missing: Option<string>) {
    match missing
    case None => r.Success?
    case Some(name) => r == Failure(name)
  }

  lemma {:induction false} ExpandFails(pieces: seq<Piece>, variables: Json, printed: Json -> string)
    ensures FailsWith(Expand(pieces, variables, printed), FirstMissing(Names(pieces), variables))
  {
    hide Lookup, Shown;
    if pieces != [] {
      ExpandFails(pieces[1..], variables, printed);
      if pieces[0].Hole? {
        assert Names(pieces)[1..] == Names(pieces[1..]);
      } else {
        assert Names(pieces) == Names(pieces[1..]);
      }
    }
  }

  lemma {:induction false} WholeScan(s: string)
    requires MatchAt(s).Some? && MatchAt(s).value.length == |s|
    ensures Scan(s) == [Hole(s, MatchAt(s).value.name)] && Names(Scan(s)) == [MatchAt(s).value.name]
  {
    assert s[..|s|] == s && s[|s|..] == "";
    assert Scan(s)[1..] == [];
  }

  lemma {:induction false} StringFails(s: string, variables: Json, printed: Json -> string)
    ensures FailsWith(RenderString(s, variables, printed), FirstMissing(Names(Scan(s)), variables))
  {
    ExpandFails(Scan(s), variables, printed);
    if MatchAt(s).Some? && MatchAt(s).value.length == |s| { WholeScan(s); }
  }

  /** Rendering succeeds iff every referenced path resolves; otherwise it names the first that does not. */
  lemma {:induction false} RenderFails(value: Json, variables: Json, printed: Json -> string)
    ensures FailsWith(Render(value, variables, printed), FirstMissing(Paths(value), variables))
    decreases value
  {
    match value
    case Str(s) => StringFails(s, variables, printed);
    case Arr(elements) => ElementsFail(elements, variables, printed);
    case Obj(fields) => FieldsFail(fields, variables, printed);
    case _ =>
  }

  lemma {:induction false} ElementsFail(elements: seq<Json>, variables: Json, printed: Json -> string)
    ensures FailsWith(RenderElements(elements, variables, printed), FirstMissing(PathsOfElements(elements), variables))
    decreases elements
  {
    if elements != [] {
      RenderFails(elements[0], variables, printed);
      ElementsFail(elements[1..], variables, printed);
      MissingConcat(Paths(elements[0]), PathsOfElements(elements[1..]), variables);
    }
  }

  lemma {:induction false} FieldsFail(fields: seq<Field>, variables: Json, printed: Json -> string)
    ensures FailsWith(RenderFields(fields, variables, printed), FirstMissing(PathsOfFields(fields), variables))
    decreases fields
  {
    if fields != [] {
      RenderFails(fields[0].value, variables, printed);
      FieldsFail(fields[1..], variables, printed);
      MissingConcat(Paths(fields[0].value), PathsOfFields(fields[1..]), variables);
    }
  }

  // ---- what the result depends on ---------------------------------------------------------

  ghost predicate Agree(names: seq<string>, a: Json, b: Json) {
    forall n | n in names :: Lookup(a, n) == Lookup(b, n)
  }

  lemma {:induction false} ExpandDepends(pieces: seq<Piece>, a: Json, b: Json, printed: Json -> string)
    requires Agree(Names(pieces), a, b)
    ensures Expand(pieces, a, printed) == Expand(pieces, b, printed)
  {
    if pieces != [] {
      var head := if pieces[0].Hole? then [pieces[0].name] else [];
      assert Names(pieces) == head + Names(pieces[1..]);
      assert pieces[0].Hole? ==> head[0] in Names(pieces);
      ExpandDepends(pieces[1..], a, b, printed);
    }
  }

  lemma {:induction false} StringDepends(s: string, a: Json, b: Json, printed: Json -> string)
    requires Agree(Names(Scan(s)), a, b)
    ensures RenderString(s, a, printed) == RenderString(s, b, printed)
  {
    hide Lookup, MatchAt, Scan, Names, Expand;
    ExpandDepends(Scan(s), a, b, printed);
    if MatchAt(s).Some? && MatchAt(s).value.length == |s| {
      WholeScan(s);
      assert MatchAt(s).value.name in Names(Scan(s));
    }
  }

  /** Variables at other paths do not matter. */
  lemma {:induction false} RenderDepends(value: Json, a: Json, b: Json, printed: Json -> string)
    requires Agree(Paths(value), a, b)
    ensures Render(value, a, printed) == Render(value, b, printed)
    decreases value
  {
    match value
    case Str(s) => StringDepends(s, a, b, printed);
    case Arr(elements) => ElementsDepend(elements, a, b, printed);
    case Obj(fields) => FieldsDepend(fields, a, b, printed);
    case _ =>
  }

  lemma {:induction false} ElementsDepend(elements: seq<Json>, a: Json, b: Json, printed: Json -> string)
    requires Agree(PathsOfElements(elements), a, b)
    ensures RenderElements(elements, a, printed) == RenderElements(elements, b, printed)
    decreases elements
  {
    if elements != [] {
      assert Agree(Paths(elements[0]), a, b) && Agree(PathsOfElements(elements[1..]), a, b);
      RenderDepends(elements[0], a, b, printed);
      ElementsDepend(elements[1..], a, b, printed);
    }
  }

  lemma {:induction false} FieldsDepend(fields: seq<Field>, a: Json, b: Json, printed: Json -> string)
    requires Agree(PathsOfFields(fields), a, b)
    ensures RenderFields(fields, a, printed) == RenderFields(fields, b, printed)
    decreases fields
  {
    if fields != [] {
      assert Agree(Paths(fields[0].value), a, b) && Agree(PathsOfFields(fields[1..]), a, b);
      RenderDepends(fields[0].value, a, b, printed);
      FieldsDepend(fields[1..], a, b, printed);
    }
  }

  // ---- plain templates and inserted text --------------------------------------------------

  lemma {:induction false} PlainExpands(pieces: seq<Piece>, variables: Json, printed: Json -> string)
    requires Names(pieces) == []
    ensures Expand(pieces, variables, printed) == Success(Unscan(pieces))
  {
    if pieces != [] { PlainExpands(pieces[1..], variables, printed); }
  }

  /** A template without placeholders renders to itself. */
  lemma {:induction false} PlainRenders(value: Json, variables: Json, printed: Json -> string)
    requires Paths(value) == []
    ensures Render(value, variables, printed) == Success(value)
    decreases value
  {
    match value
    case Str(s) =>
      PlainExpands(Scan(s), variables, printed);
      UnscanScan(s);
    case Arr(elements) => PlainElements(elements, variables, printed);
    case Obj(fields) => PlainFields(fields, variables, printed);
    case _ =>
  }

  lemma {:induction false} PlainElements(elements: seq<Json>, variables: Json, printed: Json -> string)
    requires PathsOfElements(elements) == []
    ensures RenderElements(elements, variables, printed) == Success(elements)
    decreases elements
  {
    if elements != [] {
      assert elements == [elements[0]] + elements[1..];
      PlainRenders(elements[0], variables, printed);
      PlainElements(elements[1..], variables, printed);
    }
  }

  lemma {:induction false} PlainFields(fields: seq<Field>, variables: Json, printed: Json -> string)
    requires PathsOfFields(fields) == []
    ensures RenderFields(fields, variables, printed) == Success(fields)
    decreases fields
  {
    if fields != [] {
      assert fields == [Field(fields[0].key, fields[0].value)] + fields[1..];
      PlainRenders(fields[0].value, variables, printed);
      PlainFields(fields[1..], variables, printed);
    }
  }

  lemma {:induction false} ExpandConcat(x: seq<Piece>, y: seq<Piece>, variables: Json, printed: Json -> string)
    requires Expand(x, variables, printed).Success? && Expand(y, variables, printed).Success?
    ensures Expand(x + y, variables, printed)
      == Success(Expand(x, variables, printed).value + Expand(y, variables, printed).value)
  {
    hide *;
    if x == [] {
      assert x + y == y;
      ExpandNothing(variables, printed);
      assert "" + Expand(y, variables, printed).value == Expand(y, variables, printed).value;
    } else {
      assert (x + y)[1..] == x[1..] + y;
      ExpandStep(x, variables, printed);
      ExpandStep(x + y, variables, printed);
      ExpandConcat(x[1..], y, variables, printed);
      var first, rest, more := Filled(x[0], variables, printed).value,
        Expand(x[1..], variables, printed).value, Expand(y, variables, printed).value;
      assert first + (rest + more) == (first + rest) + more;
    }
  }

  lemma {:induction false} ExpandNothing(variables: Json, printed: Json -> string)
    ensures Expand([], variables, printed) == Success("")
  {
  }

  lemma {:induction false} ExpandStep(pieces: seq<Piece>, variables: Json, printed: Json -> string)
    requires pieces != []
    ensures var first, rest := Filled(pieces[0], variables, printed), Expand(pieces[1..], variables, printed);
      && (Expand(pieces, variables, printed).Success? <==> first.Success? && rest.Success?)
      && (first.Success? && rest.Success? ==> Expand(pieces, variables, printed) == Success(first.value + rest.value))
  {
    hide Filled;
  }

  /** A string that is one placeholder and nothing else becomes the value itself, whatever its type. */
  lemma {:induction false} WholeIsValue(t: string, name: string, variables: Json, printed: Json -> string)
    requires IsPlaceholder(t, name)
    ensures Render(Str(t), variables, printed) ==
      if Lookup(variables, name).Some? then Success(Lookup(variables, name).value) else Failure(name)
  {
    assert t[..|t|] == t;
    MatchIff(t, name, |t|);
    hide MatchAt, IsPlaceholder, Lookup, Scan, Expand;
  }

  /** Text around a placeholder keeps the string from being one placeholder. */
  lemma {:induction false} NotWhole(x: string, t: string, name: string, rest: string)
    requires IsPlaceholder(t, name) && x + rest != ""
    ensures var m := MatchAt(x + t + rest); m == None || m.value.length != |x + t + rest|
  {
    ScanAround(x, t, name, rest);
    assert |Scan(x)| + |Scan(rest)| >= 1;
    hide Scan, MatchAt, IsPlaceholder;
    if MatchAt(x + t + rest).Some? && MatchAt(x + t + rest).value.length == |x + t + rest| { WholeScan(x + t + rest); }
  }

  /**
   * Inserted text is never expanded again: whatever text a value prints as, braces included, it ends up
   * verbatim between what the text before and the text after the placeholder render to on their own.
   */
  lemma {:induction false} InsertedVerbatim(x: string, t: string, name: string, rest: string,
                                            variables: Json, printed: Json -> string)
    requires IsPlaceholder(t, name) && x + rest != ""
    requires Expand(Scan(x), variables, printed).Success? && Expand(Scan(rest), variables, printed).Success?
    requires Lookup(variables, name).Some?
    ensures RenderString(x + t + rest, variables, printed) == Success(Str(
      Expand(Scan(x), variables, printed).value
      + (var v := Lookup(variables, name).value; if v.Str? then v.text else printed(v))
      + Expand(Scan(rest), variables, printed).value))
  {
    assert Shown(Lookup(variables, name).value, printed)
      == (var v := Lookup(variables, name).value; if v.Str? then v.text else printed(v));
    var hole := [Hole(t, name)];
    ScanAround(x, t, name, rest);
    NotWhole(x, t, name, rest);
    HoleExpands(t, name, variables, printed);
    hide Scan, MatchAt, IsPlaceholder, Expand, Lookup, Shown;
    ExpandConcat(Scan(x), hole, variables, printed);
    ExpandConcat(Scan(x) + hole, Scan(rest), variables, printed);
  }

  lemma {:induction false} HoleExpands(t: string, name: string, variables: Json, printed: Json -> string)
    requires Lookup(variables, name).Some?
    ensures Expand([Hole(t, name)], variables, printed) == Success(Shown(Lookup(variables, name).value, printed))
  {
    hide Lookup, Shown;
    var hole := [Hole(t, name)];
    assert hole[1..] == [] && Expand(hole[1..], variables, printed) == Success("");
    var text := Shown(Lookup(variables, name).value, printed);
    assert text + "" == text;
  }
}
