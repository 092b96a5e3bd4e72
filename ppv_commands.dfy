/**
 * `parsePPVCommands` of `src/lib/ppv-handler.ts`: the commands embedded in a
 * script, first every bracket-form command in script order, then every
 * brace-form command in script order. A match whose type is not one of the
 * three known types, or whose price is not greater than zero, is dropped.
 */
module PpvCommands {
  import opened Wrappers
  import opened Text
  import opened JsNumber
  import opened PpvScan

  datatype PpvType = Photo | Video | Bundle

  function TypeName(t: PpvType): string {
    match t
    case Photo => "PHOTO"
    case Video => "VIDEO"
    case Bundle => "BUNDLE"
  }

  /**
   * `parts[0].toUpperCase()` checked against `['PHOTO', 'VIDEO', 'BUNDLE']`:
   * a type exactly when the upper-cased token is one of the three names.
   */
  function KindOf(token: string): (r: Option<PpvType>)
    ensures r.Some? ==> ToUpper(token) == TypeName(r.value)
    ensures r.None? ==> forall t :: ToUpper(token) != TypeName(t)
  {
    var u := ToUpper(token);
    if u == "PHOTO" then Some(Photo)
    else if u == "VIDEO" then Some(Video)
    else if u == "BUNDLE" then Some(Bundle)
    else None
  }

  /** A type name written in capitals is read back as that type. */
  lemma KindOfTypeName(t: PpvType)
    ensures KindOf(TypeName(t)) == Some(t)
  {
    match t
    case Photo => CapitalsStayUpper("PHOTO");
    case Video => CapitalsStayUpper("VIDEO");
    case Bundle => CapitalsStayUpper("BUNDLE");
  }

  /**
   * A parsed command. `price` is the (positive) number read from the script,
   * `photos`/`videos` are `None` when the field is absent (`undefined`).
   */
  datatype PpvCommand = PpvCommand(
    kind: PpvType,
    price: Decimal,
    description: Option<string>,
    photos: Option<JsInt>,
    videos: Option<JsInt>,
    rawCommand: string,
    position: nat)

  /** What a command's parameters (the captured group) determine. */
  datatype Params = Params(
    kind: PpvType,
    price: Decimal,
    description: Option<string>,
    photos: Option<JsInt>,
    videos: Option<JsInt>)

  /** The command for parameters `p` found by match `m` of `s`. */
  function Locate(p: Params, s: string, m: Match): (c: PpvCommand)
    requires m.start <= m.end <= |s|
    ensures c.position == m.start && c.rawCommand == s[m.start..m.end]
  {
    PpvCommand(p.kind, p.price, p.description, p.photos, p.videos, s[m.start..m.end], m.start)
  }

  /**
   * The parameters of a bracket command: at least three colon-separated
   * fields, a known type, a price greater than zero; the description is
   * fields 3..n joined back with ':'.
   */
  function BracketParams(params: string): (r: Option<Params>)
    ensures r.Some? ==> Normal(r.value.price) && IsPositive(r.value.price)
                        && r.value.photos == None && r.value.videos == None
                        && r.value.description.Some?
  {
    var parts := Split(params, ':');
    if |parts| >= 3 then
      var kind := KindOf(parts[0]);
      var price := ParseFloat(parts[1]);
      if kind.Some? && GreaterThanZero(price) then
        Some(Params(kind.value, price.magnitude, Some(Join(parts[2..], ':')), None, None))
      else None
    else None
  }

  /** `const [key, ...valueParts] = field.split('=')`, kept when the key is non-empty and an '=' was present. */
  function KeyValue(field: string): Option<(string, string)>
  {
    var kv := Split(field, '=');
    if kv[0] != "" && |kv| > 1 then Some((kv[0], Join(kv[1..], '='))) else None
  }

  /** A `key=value` field is split at its FIRST '=': the value keeps any later '='. */
  lemma KeyValueSplitsAtFirstEquals(field: string)
    ensures KeyValue(field).Some? <==> '=' in field && field[0] != '='
    ensures KeyValue(field).Some? ==>
              var (key, value) := KeyValue(field).value;
              field == key + "=" + value && key != "" && '=' !in key
  {
    var kv := Split(field, '=');
    match IndexOfChar(field, '=', 0)
    case None =>
      assert '=' !in field;
    case Some(k) =>
      assert |kv| >= 2;
      SplitHead(field, '=');
  }

  /** A field written `key=value`, with no '=' in the key, reads back as that pair. */
  lemma KeyValuePair(key: string, value: string)
    requires key != "" && '=' !in key && '=' !in value
    ensures KeyValue(key + "=" + value) == Some((key, value))
  {
    SplitPair(key, value, '=');
  }

  /** The `commandParams` record filled from `parts[1..n]`: a later field overwrites an earlier one. */
  function FieldsUpTo(parts: seq<string>, n: nat): map<string, string>
    requires n <= |parts|
  {
    if n <= 1 then map[]
    else
      var fields := FieldsUpTo(parts, n - 1);
      match KeyValue(parts[n - 1])
      case None => fields
      case Some(kv) => fields[kv.0 := kv.1]
  }

  function Fields(parts: seq<string>): map<string, string> {
    FieldsUpTo(parts, |parts|)
  }

  ghost predicate FieldSets(parts: seq<string>, i: int, key: string, value: string) {
    0 < i < |parts| && KeyValue(parts[i]) == Some((key, value))
  }

  /**
   * A key is in the record exactly when some field from index 1 on sets it,
   * and its value is the one set by the LAST such field.
   */
  lemma {:induction false} FieldsLastWins(parts: seq<string>, n: nat, key: string)
    requires n <= |parts|
    ensures key in FieldsUpTo(parts, n) <==> exists i, v :: i < n && FieldSets(parts, i, key, v)
    ensures key in FieldsUpTo(parts, n) ==>
              exists i :: i < n && FieldSets(parts, i, key, FieldsUpTo(parts, n)[key])
                          && forall j, v :: i < j < n ==> !FieldSets(parts, j, key, v)
    decreases n
  {
    if n > 1 {
      FieldsLastWins(parts, n - 1, key);
      match KeyValue(parts[n - 1])
      case None =>
      case Some(kv) =>
        if kv.0 == key {
          assert FieldSets(parts, n - 1, key, kv.1);
        }
    }
  }

  function IntField(fields: map<string, string>, key: string): Option<JsInt> {
    if key in fields && fields[key] != "" then Some(ParseInt(fields[key])) else None
  }

  /** The price text of a brace command: `commandParams.price || '0'`. */
  function PriceText(fields: map<string, string>): string {
    if "price" in fields && fields["price"] != "" then fields["price"] else "0"
  }

  /**
   * The parameters of a brace command: at least two colon-separated fields,
   * a known type and a `price` field greater than zero.
   */
  function BraceParams(params: string): (r: Option<Params>)
    ensures r.Some? ==> Normal(r.value.price) && IsPositive(r.value.price)
  {
    var parts := Split(params, ':');
    if |parts| < 2 then None else BraceFromFields(parts[0], Fields(parts))
  }

  /** The checks on a brace command once its `key=value` fields are collected. */
  function BraceFromFields(typeToken: string, fields: map<string, string>): (r: Option<Params>)
    ensures r.Some? ==> Normal(r.value.price) && IsPositive(r.value.price)
  {
    var kind := KindOf(typeToken);
    var price := ParseFloat(PriceText(fields));
    var description := if "description" in fields then Some(fields["description"]) else None;
    if kind.Some? && GreaterThanZero(price) then
      Some(Params(kind.value, price.magnitude, description,
                  IntField(fields, "photos"), IntField(fields, "videos")))
    else None
  }

  /** A brace command with no `price` field (or an empty one) is read as price 0 and dropped. */
  lemma BraceWithoutPriceDropped(params: string)
    requires var fields := Fields(Split(params, ':'));
             "price" !in fields || fields["price"] == ""
    ensures BraceParams(params) == None
  {
    var parts := Split(params, ':');
    if |parts| >= 2 {
      assert PriceText(Fields(parts)) == "0";
      ZeroNotPositive();
    }
  }

  lemma ZeroNotPositive()
    ensures !GreaterThanZero(ParseFloat("0"))
  {
    assert TrimStart("0") == "0";
    assert LeadingDigits("0") == "0";
    assert ParseFloat("0") == Num(false, Decimal(0, ""));
  }

  function ParamsOf(syn: Syntax, params: string): (r: Option<Params>)
    ensures r.Some? ==> Normal(r.value.price) && IsPositive(r.value.price)
  {
    match syn
    case Bracket => BracketParams(params)
    case Brace => BraceParams(params)
  }

  /** The command one match yields, if its parameters pass the checks. */
  function CommandOf(syn: Syntax, s: string, m: Match): Option<PpvCommand>
    requires m.start <= m.end <= |s|
  {
    match ParamsOf(syn, m.params)
    case None => None
    case Some(p) => Some(Locate(p, s, m))
  }

  function OptionToSeq<T>(o: Option<T>): seq<T> {
    match o
    case None => []
    case Some(x) => [x]
  }

  /** The commands of the `exec` loop of one syntax, from `lastIndex == from` on. */
  function CommandsFrom(syn: Syntax, s: string, from: nat): seq<PpvCommand>
    decreases |s| - from
  {
    match FindFrom(syn, s, from)
    case None => []
    case Some(m) => OptionToSeq(CommandOf(syn, s, m)) + CommandsFrom(syn, s, m.end)
  }

  /** The result of `parsePPVCommands`: bracket-form commands, then brace-form commands. */
  function Commands(s: string): (r: seq<PpvCommand>)
    ensures AllWellFormed(r, s) && DistinctPositions(r)
  {
    CommandsFromOrdered(Bracket, s, 0);
    CommandsFromOrdered(Brace, s, 0);
    GroupsDisjoint(CommandsFrom(Bracket, s, 0), CommandsFrom(Brace, s, 0), s, '[', '{');
    CommandsFrom(Bracket, s, 0) + CommandsFrom(Brace, s, 0)
  }

  /** What every emitted command satisfies. */
  ghost predicate WellFormedIn(c: PpvCommand, s: string) {
    && c.position + |c.rawCommand| <= |s|
    && s[c.position..c.position + |c.rawCommand|] == c.rawCommand
    && Normal(c.price) && IsPositive(c.price)
  }

  /** A command found by match `m` is well formed. */
  lemma CommandOfWellFormed(syn: Syntax, s: string, m: Match)
    requires m.start <= m.end <= |s|
    requires CommandOf(syn, s, m).Some?
    ensures WellFormedIn(CommandOf(syn, s, m).value, s)
  {
    var p := ParamsOf(syn, m.params).value;
    LocateWellFormed(p, s, m);
  }

  lemma LocateWellFormed(p: Params, s: string, m: Match)
    requires m.start <= m.end <= |s|
    requires Normal(p.price) && IsPositive(p.price)
    ensures WellFormedIn(Locate(p, s, m), s)
  {
    assert |Locate(p, s, m).rawCommand| == m.end - m.start;
  }

  /** A command found by match `m` sits where the match starts. */
  lemma CommandOfPosition(syn: Syntax, s: string, m: Match)
    requires m.start <= m.end <= |s|
    requires CommandOf(syn, s, m).Some?
    ensures CommandOf(syn, s, m).value.position == m.start
  {
  }

  /** A match starts with the first character of its opening marker and is not empty. */
  lemma MatchOpens(syn: Syntax, s: string, m: Match)
    requires MatchAt(syn, s, m.start) == Some(m)
    ensures m.start < m.end <= |s| && s[m.start] == Open(syn)[0]
  {
    var w := Open(syn) + m.params + Close(syn);
    assert s[m.start..m.start + |w|] == w;
    assert s[m.start] == s[m.start..m.start + |w|][0];
  }

  /** Every command is well formed in `s` and sits at or after `from` on character `c0`. */
  ghost predicate AllWellFormedFrom(cs: seq<PpvCommand>, s: string, from: nat, c0: char) {
    forall i :: 0 <= i < |cs| ==>
      WellFormedIn(cs[i], s) && from <= cs[i].position < |s| && s[cs[i].position] == c0
  }

  /** Positions strictly increase along the sequence. */
  ghost predicate Ascending(cs: seq<PpvCommand>) {
    forall i, j :: 0 <= i < j < |cs| ==> cs[i].position < cs[j].position
  }

  lemma PrependOrdered(head: seq<PpvCommand>, rest: seq<PpvCommand>, s: string, from: nat, to: nat, c0: char)
    requires |head| <= 1 && from < to
    requires AllWellFormedFrom(head, s, from, c0) && AllWellFormedFrom(rest, s, to, c0) && Ascending(rest)
    requires forall i :: 0 <= i < |head| ==> head[i].position < to
    ensures AllWellFormedFrom(head + rest, s, from, c0) && Ascending(head + rest)
  {
  }

  /**
   * The commands of one syntax are well formed, start at or after `from`, sit
   * at strictly increasing positions, and start with that syntax's opening character.
   */
  lemma {:induction false} CommandsFromOrdered(syn: Syntax, s: string, from: nat)
    ensures AllWellFormedFrom(CommandsFrom(syn, s, from), s, from, Open(syn)[0])
    ensures Ascending(CommandsFrom(syn, s, from))
    decreases |s| - from
  {
    var found := FindFrom(syn, s, from);
    if found.Some? {
      var m := found.value;
      HeadOrdered(syn, s, from, m);
      CommandsFromOrdered(syn, s, m.end);
      var rest := CommandsFrom(syn, s, m.end);
      var head := OptionToSeq(CommandOf(syn, s, m));
      assert CommandsFrom(syn, s, from) == head + rest;
      PrependOrdered(head, rest, s, from, m.end, Open(syn)[0]);
    }
  }

  /** The command of a match at or after `from`, if any, is well formed and lies before the match's end. */
  lemma HeadOrdered(syn: Syntax, s: string, from: nat, m: Match)
    requires from <= m.start && MatchAt(syn, s, m.start) == Some(m)
    ensures m.start <= m.end <= |s| && from < m.end
    ensures var head := OptionToSeq(CommandOf(syn, s, m));
            |head| <= 1 && AllWellFormedFrom(head, s, from, Open(syn)[0])
            && forall i :: 0 <= i < |head| ==> head[i].position < m.end
  {
    MatchOpens(syn, s, m);
    match CommandOf(syn, s, m)
    case None =>
    case Some(c) =>
      CommandOfWellFormed(syn, s, m);
      CommandOfPosition(syn, s, m);
      assert OptionToSeq(CommandOf(syn, s, m)) == [c];
      SingleWellFormedFrom(c, s, from, Open(syn)[0]);
  }

  lemma SingleWellFormedFrom(c: PpvCommand, s: string, from: nat, c0: char)
    requires WellFormedIn(c, s) && from <= c.position < |s| && s[c.position] == c0
    ensures AllWellFormedFrom([c], s, from, c0)
  {
  }

  ghost predicate AllWellFormed(cs: seq<PpvCommand>, s: string) {
    forall i :: 0 <= i < |cs| ==> WellFormedIn(cs[i], s)
  }

  /** No two commands share a position. */
  ghost predicate DistinctPositions(cs: seq<PpvCommand>) {
    forall i, j :: 0 <= i < |cs| && 0 <= j < |cs| && i != j ==> cs[i].position != cs[j].position
  }

  /** Two ascending groups that start on different characters never share a position. */
  lemma GroupsDisjoint(a: seq<PpvCommand>, b: seq<PpvCommand>, s: string, ca: char, cb: char)
    requires ca != cb
    requires AllWellFormedFrom(a, s, 0, ca) && Ascending(a)
    requires AllWellFormedFrom(b, s, 0, cb) && Ascending(b)
    ensures AllWellFormed(a + b, s) && DistinctPositions(a + b)
  {
    var cs := a + b;
    forall i, j | 0 <= i < |cs| && 0 <= j < |cs| && i != j
      ensures cs[i].position != cs[j].position
    {
      if i < |a| && j >= |a| {
        assert s[cs[i].position] == ca && s[cs[j].position] == cb;
      } else if i >= |a| && j < |a| {
        assert s[cs[i].position] == cb && s[cs[j].position] == ca;
      }
    }
  }

  /**
   * Every command returned by `parsePPVCommands` has a known type and a
   * positive price, and its raw text is exactly the script's text at its
   * position; each group is in ascending position, and no two commands
   * share a position.
   */
  lemma CommandsWellFormed(s: string)
    ensures AllWellFormed(Commands(s), s) && DistinctPositions(Commands(s))
    ensures Ascending(CommandsFrom(Bracket, s, 0)) && Ascending(CommandsFrom(Brace, s, 0))
  {
    CommandsFromOrdered(Bracket, s, 0);
    CommandsFromOrdered(Brace, s, 0);
    GroupsDisjoint(CommandsFrom(Bracket, s, 0), CommandsFrom(Brace, s, 0), s, '[', '{');
  }

  /**
   * A bracket command's description is the text after the second ':' of its
   * parameters, so colons inside the description are kept.
   */
  lemma BracketDescriptionKeepsColons(params: string)
    requires BracketParams(params).Some?
    ensures var parts := Split(params, ':');
            ':' !in parts[0] && ':' !in parts[1]
            && params == parts[0] + ":" + parts[1] + ":" + BracketParams(params).value.description.value
  {
    SplitTwoHeads(params, ':');
  }

  /** The `for` loop that fills `commandParams` from the fields after the type. */
  method CollectFields(parts: seq<string>) returns (fields: map<string, string>)
    requires |parts| >= 1
    ensures fields == Fields(parts)
  {
    fields := map[];
    for i := 1 to |parts|
      invariant fields == FieldsUpTo(parts, i)
    {
      var kv := Split(parts[i], '=');
      if kv[0] != "" && |kv| > 1 {
        assert KeyValue(parts[i]) == Some((kv[0], Join(kv[1..], '=')));
        fields := fields[kv[0] := Join(kv[1..], '=')];
      } else {
        assert KeyValue(parts[i]) == None;
      }
    }
  }

  /** One turn of an `exec` loop: the command of the match found, then the rest from its end. */
  lemma CommandsFromStep(syn: Syntax, s: string, from: nat)
    requires FindFrom(syn, s, from).Some?
    ensures var m := FindFrom(syn, s, from).value;
            from < m.end <= |s|
            && CommandsFrom(syn, s, from) == OptionToSeq(CommandOf(syn, s, m)) + CommandsFrom(syn, s, m.end)
  {
    MatchOpens(syn, s, FindFrom(syn, s, from).value);
  }

  /** The first `exec` loop of `parsePPVCommands`: the bracket-form commands, in script order. */
  method ScanBracket(script: string) returns (commands: seq<PpvCommand>)
    ensures commands == CommandsFrom(Bracket, script, 0)
  {
    commands := [];
    var lastIndex := 0;
    while true
      invariant lastIndex <= |script|
      invariant commands + CommandsFrom(Bracket, script, lastIndex) == CommandsFrom(Bracket, script, 0)
      decreases |script| - lastIndex
    {
      var found := FindFrom(Bracket, script, lastIndex);
      if found.None? {
        break;
      }
      var m := found.value;
      CommandsFromStep(Bracket, script, lastIndex);
      AppendAssoc(commands, OptionToSeq(CommandOf(Bracket, script, m)), CommandsFrom(Bracket, script, m.end));
      ghost var next := commands + OptionToSeq(CommandOf(Bracket, script, m));
      var params := BracketParams(m.params);
      if params.Some? {
        commands := commands + [Locate(params.value, script, m)];
      }
      assert commands == next;
      lastIndex := m.end;
    }
    assert CommandsFrom(Bracket, script, lastIndex) == [];
  }

  /**
   * The second `exec` loop of `parsePPVCommands`: appends the brace-form
   * commands, in script order, to `commands`.
   */
  method ScanBrace(script: string, prior: seq<PpvCommand>) returns (commands: seq<PpvCommand>)
    ensures commands == prior + CommandsFrom(Brace, script, 0)
  {
    commands := prior;
    var lastIndex := 0;
    while true
      invariant lastIndex <= |script|
      invariant commands + CommandsFrom(Brace, script, lastIndex) == prior + CommandsFrom(Brace, script, 0)
      decreases |script| - lastIndex
    {
      var found := FindFrom(Brace, script, lastIndex);
      if found.None? {
        break;
      }
      var m := found.value;
      CommandsFromStep(Brace, script, lastIndex);
      AppendAssoc(commands, OptionToSeq(CommandOf(Brace, script, m)), CommandsFrom(Brace, script, m.end));
      ghost var next := commands + OptionToSeq(CommandOf(Brace, script, m));
      var parts := Split(m.params, ':');
      if |parts| >= 2 {
        var fields := CollectFields(parts);
        var params := BraceFromFields(parts[0], fields);
        assert params == BraceParams(m.params);
        if params.Some? {
          commands := commands + [Locate(params.value, script, m)];
        }
      } else {
        assert BraceParams(m.params) == None;
      }
      assert commands == next;
      lastIndex := m.end;
    }
    assert CommandsFrom(Brace, script, lastIndex) == [];
  }

  /** `parsePPVCommands`: the bracket loop, then the brace loop on the same array. */
  method ParsePPVCommands(script: string) returns (commands: seq<PpvCommand>)
    ensures commands == Commands(script)
    ensures AllWellFormed(commands, script) && DistinctPositions(commands)
  {
    commands := ScanBracket(script);
    commands := ScanBrace(script, commands);
    CommandsWellFormed(script);
  }
}
