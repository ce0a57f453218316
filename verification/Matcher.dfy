/** The attribute matcher: its parser, its printer, and exactly which matchers survive
    being printed and parsed again. */
module Matcher {
  import opened Fleet

  datatype Op = NotRegex | Regex | NotEqual | Equal

  datatype AttrMatcher = AttrMatcher(key: string, op: Op, value: string)

  datatype Error = EmptyMatcher | InvalidMatcher | MissingKey | InvalidRegex

  datatype Parsed = Ok(matcher: AttrMatcher) | Err(error: Error)

  function Text(op: Op): (text: string)
    ensures |text| == if op.Equal? then 1 else 2
  {
    match op case NotRegex => "!~" case Regex => "=~" case NotEqual => "!=" case Equal => "="
  }

  function Print(m: AttrMatcher): string {
    m.key + Text(m.op) + m.value
  }

  // ----- white space -----

  /** The Unicode White_Space characters, which strings.TrimSpace removes. */
  predicate IsSpace(c: char) {
    || '\t' <= c <= '\r' || c == ' ' || c == '\U{85}' || c == '\U{A0}' || c == '\U{1680}'
    || '\U{2000}' <= c <= '\U{200A}' || c == '\U{2028}' || c == '\U{2029}' || c == '\U{202F}' || c == '\U{205F}'
    || c == '\U{3000}'
  }

  /** The ASCII white space the \s of a pattern stands for. */
  predicate IsBlank(c: char) {
    c == '\t' || c == '\n' || c == '\U{0C}' || c == '\r' || c == ' '
  }

  /** The first position from i on that is not white space. */
  function Start(s: string, i: nat): (j: nat)
    requires i <= |s|
    ensures i <= j <= |s| && (j < |s| ==> !IsSpace(s[j]))
    decreases |s| - i
  {
    if i < |s| && IsSpace(s[i]) then Start(s, i + 1) else i
  }

  /** Where s ends, not before i, once trailing white space before j is gone. */
  function End(s: string, i: nat, j: nat): (e: nat)
    requires i <= j <= |s|
    ensures i <= e <= j && (i < e ==> !IsSpace(s[e - 1]))
    ensures forall p :: e <= p < j ==> IsSpace(s[p])
  {
    if i < j && IsSpace(s[j - 1]) then End(s, i, j - 1) else j
  }

  function Trim(s: string): string {
    var i := Start(s, 0);
    s[i..End(s, i, |s|)]
  }

  predicate IsTrimmed(s: string) {
    s == [] || (!IsSpace(s[0]) && !IsSpace(s[|s| - 1]))
  }

  lemma TrimTrims(s: string)
    ensures IsTrimmed(Trim(s)) && |Trim(s)| <= |s| && (IsTrimmed(s) <==> Trim(s) == s)
    ensures OneLine(s) ==> OneLine(Trim(s))
  {
  }

  /** Text that does not start with white space is trimmed at its end only. */
  lemma TrimOfText(s: string)
    requires s != [] && !IsSpace(s[0])
    ensures Trim(s) == s[..|Trim(s)|] && Trim(s) != []
    ensures forall i :: |Trim(s)| <= i < |s| ==> IsSpace(s[i])
  {
  }

  predicate OneLine(s: string) {
    forall i :: 0 <= i < |s| ==> s[i] != '\n'
  }

  predicate OneLineFrom(s: string, i: nat) {
    forall j :: i <= j < |s| ==> s[j] != '\n'
  }

  predicate Blanks(s: string, i: nat, j: nat)
    requires j <= |s|
  {
    forall p :: i <= p < j ==> IsBlank(s[p])
  }

  // ----- the pattern -----

  /** The first position from i on that is not blank. */
  function Skip(s: string, i: nat): (j: nat)
    requires i <= |s|
    ensures i <= j <= |s| && Blanks(s, i, j) && (j < |s| ==> !IsBlank(s[j]))
    decreases |s| - i
  {
    if i < |s| && IsBlank(s[i]) then Skip(s, i + 1) else i
  }

  predicate HasAt(s: string, i: nat, op: Op) {
    match op
    case NotRegex => i + 1 < |s| && s[i] == '!' && s[i + 1] == '~'
    case Regex => i + 1 < |s| && s[i] == '=' && s[i + 1] == '~'
    case NotEqual => i + 1 < |s| && s[i] == '!' && s[i + 1] == '='
    case Equal => i < |s| && s[i] == '='
  }

  /** The operator at i can be followed by blanks and a one-line value. */
  predicate Reads(s: string, i: nat, op: Op) {
    HasAt(s, i, op) && OneLineFrom(s, Skip(s, i + |Text(op)|))
  }

  /** Longer operators are tried before "=". */
  function OperatorAt(s: string, i: nat): Option<Op> {
    if Reads(s, i, NotRegex) then Some(NotRegex)
    else if Reads(s, i, Regex) then Some(Regex)
    else if Reads(s, i, NotEqual) then Some(NotEqual)
    else if Reads(s, i, Equal) then Some(Equal)
    else None
  }

  /** A key of k characters can be followed by blanks, an operator and a value. */
  predicate EndsKey(s: string, k: nat) {
    k <= |s| && OneLine(s[..k]) && OperatorAt(s, Skip(s, k)).Some?
  }

  /** The length of the shortest key of at least k characters. */
  function KeyEnd(s: string, k: nat): (end: Option<nat>)
    ensures end.Some? ==> k <= end.value && EndsKey(s, end.value) && forall p :: k <= p < end.value ==> !EndsKey(s, p)
    ensures end.None? ==> forall p :: k <= p ==> !EndsKey(s, p)
    decreases |s| - k
  {
    if k > |s| then None else if EndsKey(s, k) then Some(k) else KeyEnd(s, k + 1)
  }

  function Unquote(v: string): (r: string)
    ensures |r| <= |v| && (|r| == |v| ==> r == v)
  {
    TrimTrims(v);
    var s := Trim(v);
    if |s| >= 2 && ((s[0] == '"' && s[|s| - 1] == '"') || (s[0] == '\'' && s[|s| - 1] == '\'')) then s[1..|s| - 1] else s
  }

  /** compiles says which patterns the regular-expression engine accepts. */
  function Build(m: AttrMatcher, compiles: string -> bool): Parsed {
    if m.key == "" then Err(MissingKey)
    else if !Compiles(m, compiles) then Err(InvalidRegex)
    else Ok(m)
  }

  /** The matcher read when the key group ends at k. */
  function ReadAt(s: string, k: nat): AttrMatcher
    requires EndsKey(s, k)
  {
    var i := Skip(s, k);
    var op := OperatorAt(s, i).value;
    AttrMatcher(Trim(s[..k]), op, Unquote(s[Skip(s, i + |Text(op)|)..]))
  }

  function ParseTrimmed(s: string, compiles: string -> bool): Parsed {
    if s == "" then Err(EmptyMatcher)
    else if KeyEnd(s, 1).None? then Err(InvalidMatcher)
    else Build(ReadAt(s, KeyEnd(s, 1).value), compiles)
  }

  function Parse(input: string, compiles: string -> bool): Parsed {
    ParseTrimmed(Trim(input), compiles)
  }

  // ----- the search finds what the pattern means -----

  /** One way of matching the pattern: a one-line key of k characters, blanks up to i, an operator,
      blanks up to j, and a one-line value. */
  ghost predicate Matches(s: string, k: nat, i: nat, op: Op, j: nat) {
    && 1 <= k <= i && i + |Text(op)| <= j <= |s|
    && OneLine(s[..k]) && Blanks(s, k, i) && HasAt(s, i, op) && Blanks(s, i + |Text(op)|, j) && OneLineFrom(s, j)
  }

  /** However the pattern can match, the key of that match is one at which the search would stop:
      the greedy runs of blanks and the fixed order of operators lose nothing. */
  lemma SearchIsComplete(s: string, k: nat, i: nat, op: Op, j: nat)
    requires Matches(s, k, i, op, j)
    ensures EndsKey(s, k)
  {
  }

  /** The search stops only where the pattern matches. */
  lemma SearchIsSound(s: string, k: nat)
    requires k >= 1 && EndsKey(s, k)
    ensures exists i, op, j :: Matches(s, k, i, op, j)
  {
    var i := Skip(s, k);
    var op := OperatorAt(s, i).value;
    assert Matches(s, k, i, op, Skip(s, i + |Text(op)|));
  }

  /** A trimmed input never reaches the missing-key error. */
  lemma KeyIsNeverMissing(input: string, compiles: string -> bool)
    ensures Parse(input, compiles) != Err(MissingKey)
  {
  }

  // ----- the round trip -----

  /** An operator is read before the end of the key. */
  predicate ReadsEarly(key: string, op: Op) {
    exists p, other :: 1 <= p < |key| && HasAt(key + Text(op), p, other)
  }

  /** What a caller can check of a matcher before printing it. */
  predicate Printable(m: AttrMatcher) {
    && m.key != "" && IsTrimmed(m.key) && OneLine(m.key) && !ReadsEarly(m.key, m.op)
    && OneLine(m.value) && Unquote(m.value) == m.value
    && !(m.op.Equal? && m.value != "" && m.value[0] == '~')
  }

  predicate Compiles(m: AttrMatcher, compiles: string -> bool) {
    (m.op.Regex? || m.op.NotRegex?) ==> compiles(m.value)
  }

  /** An operator in key + op reads the same once the value follows, and only those do so early. */
  lemma EarlyOperators(m: AttrMatcher, p: nat, other: Op)
    requires p < |m.key|
    ensures HasAt(Print(m), p, other) <==> HasAt(m.key + Text(m.op), p, other)
  {
  }

  lemma PrintedParts(m: AttrMatcher)
    ensures var s, n, o := Print(m), |m.key|, |Text(m.op)|;
            && |s| == n + o + |m.value| && s[..n] == m.key && s[n + o..] == m.value
            && HasAt(s, n, m.op) && !IsSpace(s[n]) && !IsSpace(s[n + o - 1]) && Skip(s, n) == n
  {
  }

  lemma PrintedIsTrimmed(m: AttrMatcher)
    requires m.key != "" && IsTrimmed(m.key) && IsTrimmed(m.value)
    ensures Trim(Print(m)) == Print(m)
  {
  }

  /** No key shorter than the printed one can end before an operator. */
  lemma NoShorterKey(m: AttrMatcher, p: nat)
    requires m.key != "" && IsTrimmed(m.key) && !ReadsEarly(m.key, m.op) && 1 <= p < |m.key|
    ensures !EndsKey(Print(m), p)
  {
    PrintedParts(m);
    var s, n := Print(m), |m.key|;
    assert s[n - 1] == s[..n][n - 1];
    var i := Skip(s, p);
    assert i < n;
    forall other ensures !HasAt(s, i, other) {
      EarlyOperators(m, i, other);
    }
  }

  /** At the end of the printed key the printed operator and value are read. */
  lemma KeyEndsHere(m: AttrMatcher)
    requires OneLine(m.key) && OneLine(m.value) && IsTrimmed(m.value)
    requires !(m.op.Equal? && m.value != "" && m.value[0] == '~')
    ensures var s, n, o := Print(m), |m.key|, |Text(m.op)|;
            EndsKey(s, n) && OperatorAt(s, n) == Some(m.op) && Skip(s, n + o) == n + o
  {
  }

  lemma KeyEndIs(m: AttrMatcher)
    requires EndsKey(Print(m), |m.key|) && m.key != "" && IsTrimmed(m.key) && !ReadsEarly(m.key, m.op)
    ensures KeyEnd(Print(m), 1) == Some(|m.key|)
  {
    var k := KeyEnd(Print(m), 1);
    if k.Some? && k.value < |m.key| {
      NoShorterKey(m, k.value);
    }
  }

  lemma ReadBack(m: AttrMatcher)
    requires m.key != "" && IsTrimmed(m.key) && Unquote(m.value) == m.value
    requires var s, n, o := Print(m), |m.key|, |Text(m.op)|;
             EndsKey(s, n) && OperatorAt(s, n) == Some(m.op) && Skip(s, n + o) == n + o
    ensures ReadAt(Print(m), |m.key|) == m
  {
    PrintedParts(m);
    TrimTrims(m.key);
  }

  lemma UnquotedIsTrimmed(v: string)
    requires Unquote(v) == v
    ensures IsTrimmed(v)
  {
  }

  lemma SurvivorsParse(m: AttrMatcher, compiles: string -> bool)
    requires Printable(m) && Compiles(m, compiles)
    ensures Parse(Print(m), compiles) == Ok(m)
  {
    UnquotedIsTrimmed(m.value);
    PrintedIsTrimmed(m);
    KeyEndsHere(m);
    KeyEndIs(m);
    ReadBack(m);
  }

  // ----- nothing else survives -----

  /** Trimming a printed matcher can only take white space off the end of its value. */
  lemma TrimTouchesOnlyTheValue(m: AttrMatcher)
    requires m.key != "" && IsTrimmed(m.key)
    ensures var s := Trim(Print(m)); |m.key| + |Text(m.op)| <= |s| <= |Print(m)| && s == Print(m)[..|s|]
  {
    PrintedParts(m);
    assert Print(m)[0] == m.key[0];
    TrimOfText(Print(m));
  }

  /** A key group that trims to the key is the key, when no white space follows it. */
  lemma KeyGroupIsKey(s: string, k: nat, key: string)
    requires k <= |s| && key != "" && Trim(s[..k]) == key && |key| < |s| && s[..|key|] == key && !IsSpace(s[|key|])
    ensures k == |key|
  {
  }

  /** A value read back whole was printed with nothing to skip, trim or unquote. */
  lemma ValueGroupIsValue(m: AttrMatcher, s: string, j: nat)
    requires |m.key| + |Text(m.op)| <= j <= |s| <= |Print(m)| && s == Print(m)[..|s|] && Unquote(s[j..]) == m.value
    ensures s == Print(m) && j == |m.key| + |Text(m.op)| && Unquote(m.value) == m.value
  {
  }

  lemma OperatorAtReads(s: string, i: nat, op: Op)
    requires OperatorAt(s, i) == Some(op)
    ensures i + |Text(op)| <= |s| && OneLineFrom(s, Skip(s, i + |Text(op)|))
  {
  }

  lemma ReadAtParts(s: string, n: nat, op: Op)
    requires EndsKey(s, n) && Skip(s, n) == n && OperatorAt(s, n) == Some(op) && n + |Text(op)| <= |s|
    ensures ReadAt(s, n).op == op && ReadAt(s, n).value == Unquote(s[Skip(s, n + |Text(op)|)..])
  {
  }

  lemma ReadBackWhole(m: AttrMatcher, s: string)
    requires |m.key| + |Text(m.op)| <= |s| <= |Print(m)| && s == Print(m)[..|s|]
    requires EndsKey(s, |m.key|) && ReadAt(s, |m.key|) == m
    ensures s == Print(m) && Unquote(m.value) == m.value
    ensures OperatorAt(s, |m.key|) == Some(m.op) && OneLineFrom(s, |m.key| + |Text(m.op)|)
  {
    NothingToSkip(m, s);
    var op := OperatorAt(s, |m.key|).value;
    OperatorAtReads(s, |m.key|, op);
    ReadAtParts(s, |m.key|, op);
    ValueGroupIsValue(m, s, Skip(s, |m.key| + |Text(m.op)|));
  }

  lemma NothingToSkip(m: AttrMatcher, s: string)
    requires |m.key| + |Text(m.op)| <= |s| <= |Print(m)| && s == Print(m)[..|s|]
    ensures Skip(s, |m.key|) == |m.key|
  {
  }

  lemma KeyEndsWhereItWas(m: AttrMatcher, s: string, k: nat)
    requires |m.key| + |Text(m.op)| <= |s| <= |Print(m)| && s == Print(m)[..|s|]
    requires m.key != "" && EndsKey(s, k) && ReadAt(s, k).key == m.key
    ensures k == |m.key|
  {
    PrintedParts(m);
    var n := |m.key|;
    assert s[..n] == Print(m)[..n] && s[n] == Print(m)[n];
    KeyGroupIsKey(s, k, m.key);
  }

  lemma OnlyPrintableReadBack(m: AttrMatcher, s: string, k: nat)
    requires s == Trim(Print(m)) && KeyEnd(s, 1) == Some(k) && ReadAt(s, k) == m && m.key != ""
    ensures Printable(m)
  {
    TrimTrims(s[..k]);
    TrimTouchesOnlyTheValue(m);
    KeyEndsWhereItWas(m, s, k);
    ReadBackWhole(m, s);
    NothingEarly(m);
    if m.op.Equal? && m.value != "" && m.value[0] == '~' {
      TildeReadsAsRegex(m);
    }
  }

  lemma NothingEarly(m: AttrMatcher)
    requires EndsKey(Print(m), |m.key|) && KeyEnd(Print(m), 1) == Some(|m.key|) && OneLineFrom(Print(m), |m.key| + |Text(m.op)|)
    ensures OneLine(m.key) && OneLine(m.value) && !ReadsEarly(m.key, m.op)
  {
    PrintedParts(m);
    var s, n, o := Print(m), |m.key|, |Text(m.op)|;
    assert forall j :: 0 <= j < |m.value| ==> m.value[j] == s[n + o + j];
    forall p, other | 1 <= p < n ensures !HasAt(m.key + Text(m.op), p, other) {
      EarlyOperators(m, p, other);
      if HasAt(s, p, other) {
        AllOneLine(m);
        StopsAt(s, p, other);
      }
    }
  }

  lemma AllOneLine(m: AttrMatcher)
    requires OneLine(m.key) && OneLine(m.value)
    ensures OneLine(Print(m))
  {
  }

  lemma StopsAt(s: string, p: nat, other: Op)
    requires OneLine(s) && HasAt(s, p, other)
    ensures EndsKey(s, p)
  {
  }

  lemma TildeReadsAsRegex(m: AttrMatcher)
    requires m.op.Equal? && m.value != "" && m.value[0] == '~' && OneLine(m.value)
    ensures OperatorAt(Print(m), |m.key|) == Some(Regex)
  {
  }

  lemma ParsedFrom(s: string, m: AttrMatcher, compiles: string -> bool)
    requires ParseTrimmed(s, compiles) == Ok(m)
    ensures KeyEnd(s, 1).Some? && ReadAt(s, KeyEnd(s, 1).value) == m && m.key != "" && Compiles(m, compiles)
  {
  }

  lemma OnlySurvivorsParse(m: AttrMatcher, compiles: string -> bool)
    requires Parse(Print(m), compiles) == Ok(m)
    ensures Printable(m) && Compiles(m, compiles)
  {
    var s := Trim(Print(m));
    ParsedFrom(s, m, compiles);
    OnlyPrintableReadBack(m, s, KeyEnd(s, 1).value);
  }

  /** A matcher survives being printed and parsed exactly when its key is a trimmed, non-empty line in
      which no operator starts after the first character, its value is an unquoted trimmed line that
      does not turn "=" into "=~", and its pattern, if it is one, compiles. */
  lemma RoundTripExactly(m: AttrMatcher, compiles: string -> bool)
    ensures Parse(Print(m), compiles) == Ok(m) <==> Printable(m) && Compiles(m, compiles)
  {
    if Printable(m) && Compiles(m, compiles) {
      SurvivorsParse(m, compiles);
    } else if Parse(Print(m), compiles) == Ok(m) {
      OnlySurvivorsParse(m, compiles);
    }
  }

  lemma PlainKeysReadWhole(key: string, op: Op)
    requires forall i :: 0 <= i < |key| ==> key[i] != '=' && key[i] != '!'
    ensures !ReadsEarly(key, op)
  {
  }

  /** The usual case: a trimmed one-line key without "=" or "!", and a plain value. */
  lemma PlainMatchersSurvive(m: AttrMatcher, compiles: string -> bool)
    requires m.key != "" && IsTrimmed(m.key) && OneLine(m.key)
    requires forall i :: 0 <= i < |m.key| ==> m.key[i] != '=' && m.key[i] != '!'
    requires OneLine(m.value) && Unquote(m.value) == m.value && !(m.op.Equal? && m.value != "" && m.value[0] == '~')
    requires Compiles(m, compiles)
    ensures Parse(Print(m), compiles) == Ok(m)
  {
    PlainKeysReadWhole(m.key, m.op);
    RoundTripExactly(m, compiles);
  }

  lemma SpacedKeyEnd(s: string)
    requires |s| == 6 && s[0] == 'a' && s[1] == '!' && s[2] == ' ' && s[3] == '=' && s[4] == ' ' && s[5] == 'v'
    ensures KeyEnd(s, 1) == Some(2)
    ensures Skip(s, 2) == 3 && OperatorAt(s, 3) == Some(Equal) && Skip(s, 4) == 5
  {
  }

  lemma SpacedKeyParses(s: string, m: AttrMatcher, compiles: string -> bool)
    requires |s| == 6 && s[0] == 'a' && s[1] == '!' && s[2] == ' ' && s[3] == '=' && s[4] == ' ' && s[5] == 'v'
    requires m == AttrMatcher(s[..2], Equal, s[5..])
    ensures Parse(s, compiles) == Ok(m)
  {
    SpacedKeyEnd(s);
    TrimTrims(s);
    TrimTrims(s[..2]);
    TrimTrims(s[5..]);
    assert ReadAt(s, 2) == m;
  }

  /** A parsed matcher need not survive: blanks keep the key "a!" apart from its operator, and
      printing puts them together. */
  lemma ParsedMatchersMayNotSurvive(s: string, m: AttrMatcher, compiles: string -> bool)
    requires s == "a! = v" && m == AttrMatcher("a!", Equal, "v")
    ensures Parse(s, compiles) == Ok(m) && Parse(Print(m), compiles) != Ok(m)
  {
    assert s[..2] == m.key && s[5..] == m.value;
    SpacedKeyParses(s, m, compiles);
    BangReadsEarly(m.key, m.op);
    RoundTripExactly(m, compiles);
  }

  lemma BangReadsEarly(key: string, op: Op)
    requires |key| == 2 && key[1] == '!' && op.Equal?
    ensures ReadsEarly(key, op)
  {
    assert HasAt(key + Text(op), 1, NotEqual);
  }
}
