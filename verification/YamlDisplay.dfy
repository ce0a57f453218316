/** The re-indenter that shows an effective config: tabs become spaces on two-column
    stops, and an even indent unit of four or more is collapsed to two. */
module YamlDisplay {
  // ----- lines -----

  function Split(s: string): (lines: seq<string>)
    ensures |lines| >= 1
  {
    if s == [] then [[]]
    else
      var rest := Split(s[1..]);
      if s[0] == '\n' then [[]] + rest else [[s[0]] + rest[0]] + rest[1..]
  }

  function Join(lines: seq<string>): string
    requires |lines| >= 1
  {
    if |lines| == 1 then lines[0] else lines[0] + "\n" + Join(lines[1..])
  }

  predicate IsLine(line: string) {
    forall i :: 0 <= i < |line| ==> line[i] != '\n'
  }

  predicate AreLines(lines: seq<string>) {
    forall i :: 0 <= i < |lines| ==> IsLine(lines[i])
  }

  lemma {:induction false} SplitGivesLines(s: string)
    ensures AreLines(Split(s))
  {
    if s != [] {
      SplitGivesLines(s[1..]);
    }
  }

  lemma {:induction false} SplitOfLine(line: string, rest: string)
    requires IsLine(line)
    ensures Split(line + "\n" + rest) == [line] + Split(rest)
    ensures Split(line) == [line]
  {
    if line == [] {
      assert line + "\n" + rest == ['\n'] + rest;
    } else {
      SplitOfLine(line[1..], rest);
      assert (line + "\n" + rest)[1..] == line[1..] + "\n" + rest;
      assert [line[0]] + line[1..] == line;
    }
  }

  lemma {:induction false} SplitUndoesJoin(lines: seq<string>)
    requires |lines| >= 1 && AreLines(lines)
    ensures Split(Join(lines)) == lines
  {
    if |lines| == 1 {
      SplitOfLine(lines[0], "");
    } else {
      SplitUndoesJoin(lines[1..]);
      SplitOfLine(lines[0], Join(lines[1..]));
    }
  }

  // ----- tabs -----

  function Spaces(n: nat): (s: string)
    ensures |s| == n && forall i :: 0 <= i < n ==> s[i] == ' '
  {
    seq(n, _ => ' ')
  }

  /** The line once each tab runs to the next even column. */
  function Expanded(line: string): string {
    if line == [] then []
    else
      var before, c := Expanded(line[..|line| - 1]), line[|line| - 1];
      if c == '\t' then before + Spaces(2 - |before| % 2) else before + [c]
  }

  predicate HasNoTab(line: string) {
    forall i :: 0 <= i < |line| ==> line[i] != '\t'
  }

  lemma {:induction false} ExpandedHasNoTab(line: string)
    ensures HasNoTab(Expanded(line)) && (IsLine(line) ==> IsLine(Expanded(line)))
  {
    if line != [] {
      ExpandedHasNoTab(line[..|line| - 1]);
    }
  }

  lemma {:induction false} NothingToExpand(line: string)
    requires HasNoTab(line)
    ensures Expanded(line) == line
  {
    if line != [] {
      NothingToExpand(line[..|line| - 1]);
    }
  }

  /** The column at which the i-th character of a line is shown, with tab stops every two columns. */
  function Column(line: string, i: nat): nat
    requires i <= |line|
  {
    if i == 0 then 0
    else
      var c := Column(line, i - 1);
      if line[i - 1] == '\t' then c + 2 - c % 2 else c + 1
  }

  lemma {:induction false} ColumnOfPrefix(line: string, k: nat, i: nat)
    requires i <= k <= |line|
    ensures Column(line[..k], i) == Column(line, i)
  {
    if i > 0 {
      ColumnOfPrefix(line, k, i - 1);
    }
  }

  /** Expanding keeps every character in the column it was shown in. */
  lemma {:induction false} ExpandedKeepsColumns(line: string, i: nat)
    requires i <= |line|
    ensures |Expanded(line)| == Column(line, |line|) && Column(line, i) <= |Expanded(line)|
    ensures i < |line| && line[i] != '\t' ==> Column(line, i) < |Expanded(line)| && Expanded(line)[Column(line, i)] == line[i]
  {
    if line != [] {
      var n := |line| - 1;
      var k := if i < n then i else n;
      ExpandedKeepsColumns(line[..n], k);
      ColumnOfPrefix(line, n, k);
      ColumnOfPrefix(line, n, n);
    }
  }

  /** Every other column is filled with a space. */
  lemma {:induction false} ExpandedFillsWithSpaces(line: string, p: nat)
    requires p < |Expanded(line)| && Expanded(line)[p] != ' '
    ensures exists i :: 0 <= i < |line| && line[i] != '\t' && Column(line, i) == p
  {
    var n := |line| - 1;
    var init := line[..n];
    ExpandedKeepsColumns(init, n);
    ColumnOfPrefix(line, n, n);
    if p < |Expanded(init)| {
      ExpandedFillsWithSpaces(init, p);
      var i :| 0 <= i < n && init[i] != '\t' && Column(init, i) == p;
      ColumnOfPrefix(line, n, i);
      assert line[i] != '\t' && Column(line, i) == p;
    } else {
      assert line[n] != '\t' && Column(line, n) == p;
    }
  }

  // ----- indentation -----

  /** The number of leading spaces. */
  function Indent(line: string): (n: nat)
    ensures n <= |line| && (n < |line| ==> line[n] != ' ')
    ensures forall i :: 0 <= i < n ==> line[i] == ' '
  {
    if line != [] && line[0] == ' ' then 1 + Indent(line[1..]) else 0
  }

  function Text(line: string): string {
    line[Indent(line)..]
  }

  predicate IsContent(line: string) {
    Text(line) != [] && Text(line)[0] != '#'
  }

  predicate IsIndented(line: string) {
    IsContent(line) && Indent(line) > 0
  }

  lemma IndentOf(n: nat, text: string)
    requires text != [] ==> text[0] != ' '
    ensures Indent(Spaces(n) + text) == n && Text(Spaces(n) + text) == text
  {
    var line := Spaces(n) + text;
    assert forall i :: 0 <= i < n ==> line[i] == ' ';
    assert line[n..] == text;
  }

  // ----- the greatest common divisor -----

  function Gcd(a: nat, b: nat): nat
    decreases b
  {
    if b == 0 then a else Gcd(b, a % b)
  }

  function Abs(a: int): nat {
    if a < 0 then -a else a
  }

  /** The remainder that takes the sign of its dividend. */
  function Rem(a: int, b: int): int
    requires b != 0
  {
    if a < 0 then -(-a % Abs(b)) else a % Abs(b)
  }

  method ComputeGcd(a0: int, b0: int) returns (g: nat)
    ensures g == Gcd(Abs(a0), Abs(b0))
  {
    var a, b := a0, b0;
    while b != 0
      invariant Gcd(Abs(a), Abs(b)) == Gcd(Abs(a0), Abs(b0))
      decreases Abs(b)
    {
      a, b := b, Rem(a, b);
    }
    g := if a < 0 then -a else a;
  }

  lemma ModOfSum(x: int, y: int, q: int, d: nat)
    requires d > 0 && y % d == 0
    ensures (x + y * q) % d == x % d
  {
    var k, r := x / d, x % d;
    var l := y / d;
    assert y == d * l;
    assert x + y * q == d * (k + l * q) + r by {
      assert y * q == d * (l * q);
      assert d * (k + l * q) == d * k + d * (l * q);
    }
    ModOf(x + y * q, d, k + l * q, r);
  }

  lemma ModOf(x: int, d: nat, k: int, r: nat)
    requires r < d && x == d * k + r
    ensures x % d == r
  {
    assert x == d * (x / d) + x % d;
    assert d * (x / d - k) == d * (x / d) - d * k;
    SmallMultiple(d, x / d - k);
  }

  lemma SmallMultiple(d: int, z: int)
    requires -d < d * z < d
    ensures z == 0
  {
  }

  lemma DividesRemainder(a: nat, b: nat, d: nat)
    requires b > 0 && d > 0 && b % d == 0
    ensures (a % b) % d == a % d
  {
    assert a == a % b + b * (a / b);
    ModOfSum(a % b, b, a / b, d);
  }

  lemma {:induction false} GcdDivides(a: nat, b: nat)
    requires a > 0 || b > 0
    ensures Gcd(a, b) > 0 && a % Gcd(a, b) == 0 && b % Gcd(a, b) == 0
    decreases b
  {
    if b > 0 {
      GcdDivides(b, a % b);
      DividesRemainder(a, b, Gcd(a, b));
    }
  }

  lemma {:induction false} GcdIsGreatest(a: nat, b: nat, d: nat)
    requires d > 0 && a % d == 0 && b % d == 0
    ensures Gcd(a, b) % d == 0
    decreases b
  {
    if b > 0 {
      DividesRemainder(a, b, d);
      GcdIsGreatest(b, a % b, d);
    }
  }

  // ----- the indent unit -----

  function Unit(lines: seq<string>): nat {
    if lines == [] then 0
    else
      var u, line := Unit(lines[..|lines| - 1]), lines[|lines| - 1];
      if !IsIndented(line) then u else if u == 0 then Indent(line) else Gcd(u, Indent(line))
  }

  lemma {:induction false} UnitDivides(lines: seq<string>, i: nat)
    requires i < |lines| && IsIndented(lines[i])
    ensures Unit(lines) > 0 && Indent(lines[i]) % Unit(lines) == 0
  {
    var n := |lines| - 1;
    if i == n {
      GcdDivides(Unit(lines[..n]), Indent(lines[n]));
      ModOf(Indent(lines[n]), Indent(lines[n]), 1, 0);
    } else {
      UnitDivides(lines[..n], i);
      if IsIndented(lines[n]) {
        StillDivides(Indent(lines[i]), Unit(lines[..n]), Indent(lines[n]));
      }
    }
  }

  lemma StillDivides(n: nat, u: nat, m: nat)
    requires u > 0 && n % u == 0
    ensures Gcd(u, m) > 0 && n % Gcd(u, m) == 0
  {
    GcdDivides(u, m);
    DividesChain(n, u, Gcd(u, m));
  }

  lemma DividesChain(n: nat, u: nat, g: nat)
    requires u > 0 && g > 0 && n % u == 0 && u % g == 0
    ensures n % g == 0
  {
    assert n == 0 + u * (n / u);
    ModOfSum(0, u, n / u, g);
  }

  ghost predicate DividesAll(lines: seq<string>, d: nat) {
    d > 0 && forall i :: 0 <= i < |lines| && IsIndented(lines[i]) ==> Indent(lines[i]) % d == 0
  }

  lemma {:induction false} UnitIsGreatest(lines: seq<string>, d: nat)
    requires DividesAll(lines, d)
    ensures Unit(lines) % d == 0
  {
    if lines != [] {
      var n := |lines| - 1;
      UnitIsGreatest(lines[..n], d);
      if IsIndented(lines[n]) {
        GcdIsGreatest(Unit(lines[..n]), Indent(lines[n]), d);
      }
    }
  }

  lemma {:induction false} UnitNeedsAnIndent(lines: seq<string>)
    requires Unit(lines) > 0
    ensures exists i :: 0 <= i < |lines| && IsIndented(lines[i])
  {
    var n := |lines| - 1;
    if !IsIndented(lines[n]) {
      UnitNeedsAnIndent(lines[..n]);
      var i :| 0 <= i < n && IsIndented(lines[..n][i]);
      assert IsIndented(lines[i]);
    }
  }

  // ----- rescaling -----

  function Rescaled(line: string, scale: nat): string
    requires scale > 0
  {
    if Text(line) == [] || Indent(line) == 0 then line else Spaces(Indent(line) / scale) + Text(line)
  }

  /** Rescaling divides the indent of a line of text and keeps the text. */
  lemma RescaledIndent(line: string, scale: nat)
    requires scale > 0
    ensures Text(Rescaled(line, scale)) == Text(line)
    ensures Text(line) != [] ==> Indent(Rescaled(line, scale)) == Indent(line) / scale
  {
    if Text(line) != [] && Indent(line) > 0 {
      IndentOf(Indent(line) / scale, Text(line));
    }
  }

  function ExpandAll(lines: seq<string>): seq<string> {
    seq(|lines|, i requires 0 <= i < |lines| => Expanded(lines[i]))
  }

  function RescaleAll(lines: seq<string>, scale: nat): seq<string>
    requires scale > 0
  {
    seq(|lines|, i requires 0 <= i < |lines| => Rescaled(lines[i], scale))
  }

  /** What the content indents are divided by; 1 leaves the lines alone. */
  function Scale(lines: seq<string>): (scale: nat)
    ensures scale > 0
  {
    if Unit(lines) >= 4 && Unit(lines) % 2 == 0 then Unit(lines) / 2 else 1
  }

  function Shown(lines: seq<string>): seq<string> {
    if Scale(lines) > 1 then RescaleAll(lines, Scale(lines)) else lines
  }

  function Display(s: string): string {
    Join(Shown(ExpandAll(Split(s))))
  }

  // ----- the code -----

  method ExpandTabs(line: string) returns (expanded: string)
    ensures expanded == Expanded(line)
  {
    if '\t' !in line {
      NothingToExpand(line);
      return line;
    }
    expanded := "";
    var col := 0;
    for i := 0 to |line|
      invariant expanded == Expanded(line[..i]) && col == |expanded|
    {
      assert line[..i + 1][..i] == line[..i];
      if line[i] == '\t' {
        var n := 2 - col % 2;
        ghost var before := expanded;
        for j := 0 to n
          invariant expanded == before + Spaces(j) && col == |expanded|
        {
          assert Spaces(j) + [' '] == Spaces(j + 1);
          assert before + Spaces(j) + [' '] == before + (Spaces(j) + [' ']);
          expanded, col := expanded + [' '], col + 1;
        }
      } else {
        expanded, col := expanded + [line[i]], col + 1;
      }
    }
    assert line[..|line|] == line;
  }

  method IndentUnit(lines: seq<string>) returns (unit: nat)
    ensures unit == Unit(lines)
  {
    unit := 0;
    for i := 0 to |lines|
      invariant unit == Unit(lines[..i])
    {
      assert lines[..i + 1][..i] == lines[..i];
      var trimmed := Text(lines[i]);
      if trimmed == "" || trimmed[0] == '#' {
        continue;
      }
      var n := |lines[i]| - |trimmed|;
      if n == 0 {
        continue;
      }
      if unit == 0 {
        unit := n;
      } else {
        unit := ComputeGcd(unit, n);
      }
    }
    assert lines[..|lines|] == lines;
  }

  method YamlDisplay(s: string) returns (shown: string)
    ensures shown == Display(s)
  {
    if s == "" {
      assert ExpandAll(Split(s)) == [""];
      return s;
    }
    var lines := Split(s);
    ghost var was := lines;
    for i := 0 to |lines|
      invariant |lines| == |was|
      invariant forall k :: 0 <= k < |was| ==> lines[k] == if k < i then Expanded(was[k]) else was[k]
    {
      var expanded := ExpandTabs(lines[i]);
      lines := lines[i := expanded];
    }
    assert lines == ExpandAll(was);
    var unit := IndentUnit(lines);
    if unit >= 4 && unit % 2 == 0 {
      lines := RescaleLines(lines, unit / 2);
    }
    shown := Join(lines);
  }

  method RescaleLines(lines: seq<string>, scale: nat) returns (rescaled: seq<string>)
    requires scale > 0
    ensures rescaled == RescaleAll(lines, scale)
  {
    rescaled := lines;
    for i := 0 to |lines|
      invariant |rescaled| == |lines|
      invariant forall k :: 0 <= k < |lines| ==> rescaled[k] == if k < i then Rescaled(lines[k], scale) else lines[k]
    {
      var trimmed := Text(lines[i]);
      var n := |lines[i]| - |trimmed|;
      if trimmed != "" && n != 0 {
        rescaled := rescaled[i := Spaces(n / scale) + trimmed];
      }
    }
  }

  // ----- what the reader sees -----

  lemma ExactQuotient(n: nat, scale: nat)
    requires scale > 0 && n % (2 * scale) == 0
    ensures scale * (n / scale) == n && (n / scale) % 2 == 0 && (n > 0 ==> n / scale > 0)
  {
    var k := n / (2 * scale);
    assert n == 2 * scale * k == scale * (2 * k);
    ModOf(n, scale, 2 * k, 0);
    assert n / scale == 2 * k by {
      assert scale * (n / scale - 2 * k) == scale * (n / scale) - scale * (2 * k) == 0;
      SmallMultiple(scale, n / scale - 2 * k);
    }
  }

  lemma ExactIndent(lines: seq<string>, i: nat)
    requires i < |lines| && IsContent(lines[i]) && Scale(lines) > 1
    ensures IsContent(Shown(lines)[i]) && Text(Shown(lines)[i]) == Text(lines[i])
    ensures Scale(lines) * Indent(Shown(lines)[i]) == Indent(lines[i]) && Indent(Shown(lines)[i]) % 2 == 0
    ensures IsIndented(lines[i]) <==> IsIndented(Shown(lines)[i])
  {
    var scale := Scale(lines);
    if IsIndented(lines[i]) {
      UnitDivides(lines, i);
    }
    RescaledIndent(lines[i], scale);
    ExactQuotient(Indent(lines[i]), scale);
  }

  /** Only content lines are content afterwards. */
  lemma SameContent(lines: seq<string>, i: nat)
    requires i < |lines|
    ensures |Shown(lines)| == |lines| && Text(Shown(lines)[i]) == Text(lines[i])
  {
    RescaledIndent(lines[i], Scale(lines));
  }

  lemma ScaledDivides(m: nat, v: nat, scale: nat)
    requires v > 0 && scale > 0 && m % v == 0
    ensures (scale * m) % (v * scale) == 0
  {
    var k := m / v;
    assert m == v * k;
    assert scale * m == v * scale * k by {
      assert scale * (v * k) == (scale * v) * k;
    }
    ModOf(scale * m, v * scale, k, 0);
  }

  lemma MultipleIsNoSmaller(n: nat, w: nat)
    requires n > 0 && w > 0 && n % w == 0
    ensures w <= n
  {
  }

  lemma AtMostTwo(v: nat, scale: nat, w: nat)
    requires v > 0 && scale > 0 && w == v * scale && (2 * scale) % w == 0
    ensures v <= 2
  {
    MultipleIsNoSmaller(2 * scale, w);
    SameOrder(2, v, scale);
  }

  lemma ScaleIsHalf(lines: seq<string>)
    requires Scale(lines) > 1
    ensures Unit(lines) == 2 * Scale(lines)
  {
  }

  lemma RescaledUnitIsEven(lines: seq<string>)
    requires Scale(lines) > 1
    ensures Unit(Shown(lines)) > 0 && Unit(Shown(lines)) % 2 == 0
  {
    var shown := Shown(lines);
    UnitNeedsAnIndent(lines);
    var i :| 0 <= i < |lines| && IsIndented(lines[i]);
    ExactIndent(lines, i);
    UnitDivides(shown, i);
    forall k | 0 <= k < |shown| && IsIndented(shown[k]) ensures Indent(shown[k]) % 2 == 0 {
      SameContent(lines, k);
      ExactIndent(lines, k);
    }
    UnitIsGreatest(shown, 2);
  }

  lemma RescaledUnitTimesScale(lines: seq<string>, v: nat, scale: nat)
    requires scale == Scale(lines) > 1 && v == Unit(Shown(lines)) > 0
    ensures DividesAll(lines, v * scale)
  {
    forall k | 0 <= k < |lines| && IsIndented(lines[k]) ensures Indent(lines[k]) % (v * scale) == 0 {
      ExactIndent(lines, k);
      UnitDivides(Shown(lines), k);
      ScaledDivides(Indent(Shown(lines)[k]), v, scale);
    }
    assert v * scale > 0;
  }

  /** After a rescaling the indent unit is exactly two. */
  lemma RescaledUnitIsTwo(lines: seq<string>)
    requires Scale(lines) > 1
    ensures Unit(Shown(lines)) == 2
  {
    var scale, v := Scale(lines), Unit(Shown(lines));
    RescaledUnitIsEven(lines);
    RescaledUnitTimesScale(lines, v, scale);
    UnitIsGreatest(lines, v * scale);
    ScaleIsHalf(lines);
    AtMostTwo(v, scale, v * scale);
  }

  lemma RescaledLine(line: string, scale: nat)
    requires scale > 0 && IsLine(line) && HasNoTab(line)
    ensures IsLine(Rescaled(line, scale)) && HasNoTab(Rescaled(line, scale))
  {
  }

  lemma ShownLines(s: string)
    ensures var shown := Shown(ExpandAll(Split(s)));
            AreLines(shown) && |shown| == |Split(s)| && forall i :: 0 <= i < |shown| ==> HasNoTab(shown[i])
  {
    var raw := Split(s);
    var lines := ExpandAll(raw);
    SplitGivesLines(s);
    forall i | 0 <= i < |lines| ensures IsLine(Shown(lines)[i]) && HasNoTab(Shown(lines)[i]) {
      ExpandedHasNoTab(raw[i]);
      RescaledLine(lines[i], Scale(lines));
    }
  }

  lemma NoTabsNoChange(lines: seq<string>)
    requires forall i :: 0 <= i < |lines| ==> HasNoTab(lines[i])
    ensures ExpandAll(lines) == lines
  {
    forall i | 0 <= i < |lines| ensures Expanded(lines[i]) == lines[i] {
      NothingToExpand(lines[i]);
    }
  }

  /** Displaying what was displayed changes nothing, whatever the text. */
  lemma DisplayIsIdempotent(s: string)
    ensures Display(Display(s)) == Display(s)
  {
    var lines := ExpandAll(Split(s));
    var shown := Shown(lines);
    ShownLines(s);
    SplitUndoesJoin(shown);
    NoTabsNoChange(shown);
    if Scale(lines) > 1 {
      RescaledUnitIsTwo(lines);
    }
  }

  /** The displayed text has the same lines with the same text, tabs aside; content indents are divided
      exactly by one scale, so that their strict order is kept; and no other line gains on another. */
  lemma DisplayScalesExactly(s: string, i: nat, j: nat)
    requires i < |Split(s)| && j < |Split(s)|
    ensures var lines, shown := ExpandAll(Split(s)), Split(Display(s));
      && |shown| == |lines| && Text(shown[i]) == Text(lines[i])
      && (IsContent(lines[i]) ==> Scale(lines) * Indent(shown[i]) == Indent(lines[i]))
      && (IsContent(lines[i]) && IsContent(lines[j]) ==>
            (Indent(shown[i]) < Indent(shown[j]) <==> Indent(lines[i]) < Indent(lines[j])))
      && (Text(lines[i]) != [] && Text(lines[j]) != [] && Indent(lines[i]) <= Indent(lines[j]) ==>
            Indent(shown[i]) <= Indent(shown[j]))
  {
    var lines := ExpandAll(Split(s));
    ShownLines(s);
    SplitUndoesJoin(Shown(lines));
    ScaledLines(lines, i, j);
  }

  lemma ScaledLines(lines: seq<string>, i: nat, j: nat)
    requires i < |lines| && j < |lines|
    ensures var shown, scale := Shown(lines), Scale(lines);
      && |shown| == |lines| && Text(shown[i]) == Text(lines[i])
      && (IsContent(lines[i]) ==> scale * Indent(shown[i]) == Indent(lines[i]))
      && (IsContent(lines[i]) && IsContent(lines[j]) ==>
            (Indent(shown[i]) < Indent(shown[j]) <==> Indent(lines[i]) < Indent(lines[j])))
      && (Text(lines[i]) != [] && Text(lines[j]) != [] && Indent(lines[i]) <= Indent(lines[j]) ==>
            Indent(shown[i]) <= Indent(shown[j]))
  {
    SameContent(lines, i);
    if Scale(lines) > 1 {
      if IsContent(lines[i]) {
        ExactIndent(lines, i);
        if IsContent(lines[j]) {
          ExactIndent(lines, j);
          SameOrder(Indent(Shown(lines)[i]), Indent(Shown(lines)[j]), Scale(lines));
        }
      }
      RescaledIndent(lines[i], Scale(lines));
      RescaledIndent(lines[j], Scale(lines));
      if Indent(lines[i]) <= Indent(lines[j]) {
        QuotientOrder(Indent(lines[i]), Indent(lines[j]), Scale(lines));
      }
    }
  }

  lemma SameOrder(a: nat, b: nat, scale: nat)
    requires scale > 0
    ensures a < b <==> scale * a < scale * b
  {
  }

  lemma QuotientOrder(a: nat, b: nat, scale: nat)
    requires scale > 0 && a <= b
    ensures a / scale <= b / scale
  {
    var p, q := a / scale, b / scale;
    assert scale * p <= a <= b < scale * q + scale;
    assert scale * p < scale * (q + 1);
    SameOrder(p, q + 1, scale);
  }

  /** Comments take no part in finding the unit, so theirs may be divided inexactly: here a comment
      deeper than the line above it is shown level with it. */
  lemma CommentsMayCollapse(lines: seq<string>)
    requires lines == [Spaces(4) + "b", Spaces(5) + "#"]
    ensures Scale(lines) == 2 && Indent(lines[0]) < Indent(lines[1])
    ensures Indent(Shown(lines)[0]) == Indent(Shown(lines)[1])
  {
    IndentOf(4, "b");
    IndentOf(5, "#");
    assert lines[..1] == [lines[0]] && lines[..1][..0] == [];
    assert Unit(lines[..1]) == 4;
    RescaledIndent(lines[0], 2);
    RescaledIndent(lines[1], 2);
  }

  /** Dividing keeps a strictly larger indent strictly larger exactly when a multiple of the scale parts them. */
  lemma QuotientStrictlyLess(p: nat, q: nat, scale: nat)
    requires scale > 0
    ensures p / scale < q / scale <==> q - q % scale > p
  {
    var a, b := p / scale, q / scale;
    assert scale * a <= p < scale * a + scale && q - q % scale == scale * b;
    SameOrder(a, b, scale);
    assert scale * (a + 1) == scale * a + scale;
    SameOrder(b, a + 1, scale);
  }

  /** Of any two lines of text, comments included, one is shown strictly deeper exactly when its indent, cut
      down to a multiple of the scale, is still deeper than the other's. */
  lemma OrderKeptExactly(lines: seq<string>, i: nat, j: nat)
    requires i < |lines| && j < |lines| && Text(lines[i]) != [] && Text(lines[j]) != []
    ensures |Shown(lines)| == |lines|
    ensures Indent(Shown(lines)[i]) < Indent(Shown(lines)[j])
       <==> Indent(lines[j]) - Indent(lines[j]) % Scale(lines) > Indent(lines[i])
  {
    if Scale(lines) > 1 {
      RescaledIndent(lines[i], Scale(lines));
      RescaledIndent(lines[j], Scale(lines));
      QuotientStrictlyLess(Indent(lines[i]), Indent(lines[j]), Scale(lines));
    }
  }

  lemma DisplayKeepsOrderExactly(s: string, i: nat, j: nat)
    requires i < |Split(s)| && j < |Split(s)|
    requires Text(ExpandAll(Split(s))[i]) != [] && Text(ExpandAll(Split(s))[j]) != []
    ensures var lines, shown := ExpandAll(Split(s)), Split(Display(s));
      && |shown| == |lines|
      && (Indent(shown[i]) < Indent(shown[j]) <==> Indent(lines[j]) - Indent(lines[j]) % Scale(lines) > Indent(lines[i]))
  {
    ShownLines(s);
    SplitUndoesJoin(Shown(ExpandAll(Split(s))));
    OrderKeptExactly(ExpandAll(Split(s)), i, j);
  }
}
